/** The session context (contexts/AuthContext.tsx): the signed-in user's
    profile, the role and permission derived from it, and the loading flag,
    kept over the authentication service. */
module Session {
  import opened Common
  import opened Json
  import opened Auth

  datatype Role = Admin | Employee | Client

  datatype Permission = Read | Write | Admin

  /** The permission that goes with each role. */
  function PermissionOf(role: Role): Permission {
    match role
    case Admin => Permission.Admin
    case Employee => Write
    case Client => Read
  }

  /** The profile marks an administrator: the flag or the role text. */
  predicate MarksAdmin(p: Profile) {
    p.isAdmin || p.role == Some("admin")
  }

  /** The profile marks an employee: the flag or the role text. */
  predicate MarksEmployee(p: Profile) {
    p.isEmployee || p.role == Some("employee")
  }

  /** `determineUserRoleAndPermission`: administrator marks win over employee
      marks, every other profile is a client with read permission, and the
      permission always follows from the role. */
  function DetermineRoleAndPermission(p: Profile): (r: (Role, Permission))
    ensures r.1 == PermissionOf(r.0)
    ensures r.0 == Role.Admin <==> MarksAdmin(p)
    ensures r.0 == Employee <==> !MarksAdmin(p) && MarksEmployee(p)
    ensures r.0 == Client <==> !MarksAdmin(p) && !MarksEmployee(p)
  {
    if MarksAdmin(p) then (Role.Admin, Permission.Admin)
    else if MarksEmployee(p) then (Employee, Write)
    else (Client, Read)
  }

  /** The provider's state. */
  class AuthProvider {
    const service: AuthService
    var user: Option<Profile>
    var userRole: Option<Role>
    var userPermission: Option<Permission>
    var isLoading: bool

    /** Role and permission are the ones derived from the current user, and
        absent when there is no user. */
    ghost predicate Valid()
      reads this
    {
      match user
      case None => userRole.None? && userPermission.None?
      case Some(p) =>
        userRole == Some(DetermineRoleAndPermission(p).0) &&
        userPermission == Some(DetermineRoleAndPermission(p).1)
    }

    /** The provider as first rendered: no user, loading. */
    constructor(service: AuthService)
      ensures this.service == service && Valid()
      ensures user.None? && isLoading
    {
      this.service := service;
      user := None;
      userRole := None;
      userPermission := None;
      isLoading := true;
    }

    /** `isAuthenticated` as the context exposes it: a user is loaded. */
    predicate IsAuthenticated()
      reads this
    {
      user.Some?
    }

    /** The state `logout` leaves, relative to the state before it. */
    twostate predicate LoggedOutSince()
      reads this, service
    {
      && user.None? && userRole.None? && userPermission.None? && isLoading == old(isLoading)
      && service.storage == Cleared(old(service.storage)) && service.href == "/login"
      && service.calls == old(service.calls)
    }

    /** `refreshUserData`: without a stored access token the user is cleared
        and no profile is fetched; otherwise the fetched profile is loaded, and
        a failed fetch logs out. Loading is over on every path. */
    method RefreshUserData(outcome: Result<Profile, Thrown>)
      modifies this, service
      ensures Valid() && !isLoading
      ensures !old(service.IsAuthenticated()) ==>
        user.None? && unchanged(service)
      ensures old(service.IsAuthenticated()) ==> service.calls == old(service.calls) + [ProfileCall]
      ensures old(service.IsAuthenticated()) && outcome.Success? ==>
        user == Some(outcome.value) && service.storage == old(service.storage) && service.href == old(service.href)
      ensures old(service.IsAuthenticated()) && outcome.Failure? ==>
        user.None? && service.storage == Cleared(old(service.storage)) && service.href == "/login"
    {
      if !service.IsAuthenticated() {
        user := None;
        userRole := None;
        userPermission := None;
        isLoading := false;
        return;
      }
      var profile := service.GetUserProfile(outcome);
      match profile {
        case Success(p) =>
          var (role, permission) := DetermineRoleAndPermission(p);
          user := Some(p);
          userRole := Some(role);
          userPermission := Some(permission);
        case Failure(_) =>
          service.Logout();
          user := None;
          userRole := None;
          userPermission := None;
      }
      isLoading := false;
    }

    /** The state `login` leaves, relative to the state before it: the login
        call, then (for a non-empty access token) the profile call. A failed
        sign-in changes nothing else. A successful one stores both tokens and
        reloads the user, with the role and permission derived from it; when
        that reload fails the service logs out again, so the tokens just
        stored are cleared and the browser is sent to '/login'. */
    twostate predicate SignedInSince(username: string, password: string, response: Result<LoginResponse, Thrown>,
                                     profile: Result<Profile, Thrown>)
      reads this, service
    {
      && service.calls == old(service.calls) + [LoginCall(username, password)] +
           (if response.Success? && response.value.access != "" then [ProfileCall] else [])
      && (response.Failure? ==>
            && service.storage == old(service.storage) && service.href == old(service.href)
            && user == old(user) && userRole == old(userRole) && userPermission == old(userPermission)
            && isLoading == old(isLoading))
      && (response.Success? ==>
            var stored := old(service.storage)[AccessKey := Stringify(response.value.access)]
                                              [RefreshKey := Stringify(response.value.refresh)];
            && !isLoading && Valid()
            && (user.Some? <==> response.value.access != "" && profile.Success?)
            && (user.Some? ==> user == Some(profile.value))
            && (response.value.access != "" && profile.Failure? ==>
                  service.storage == Cleared(stored) && service.href == "/login")
            && (!(response.value.access != "" && profile.Failure?) ==>
                  service.storage == stored && service.href == old(service.href)))
    }

    /** `login`: signs in through the service, then reloads the user. A failed
        sign-in rejects with the service's message; a successful one resolves
        with no value. */
    method Login(username: string, password: string, response: Result<LoginResponse, Thrown>, profile: Result<Profile, Thrown>)
      returns (rejection: Option<string>)
      modifies this, service
      ensures Valid() || response.Failure?
      ensures SignedInSince(username, password, response, profile)
      ensures rejection.Some? <==> response.Failure?
      ensures rejection.Some? ==> rejection.value == InvalidCredentials
    {
      var r := service.Login(username, password, response);
      if r.Failure? {
        return Some(r.error);
      }
      AuthenticatedAfterStore(old(service.storage), response.value.access);
      ReadOtherKey(old(service.storage)[AccessKey := Stringify(response.value.access)], RefreshKey, AccessKey, Stringify(response.value.refresh));
      RefreshUserData(profile);
      rejection := None;
    }

    /** `logout`: clears the tokens through the service and the user here. */
    method Logout()
      modifies this, service
      ensures LoggedOutSince() && Valid() && !IsAuthenticated()
    {
      service.Logout();
      user := None;
      userRole := None;
      userPermission := None;
    }
  }
}
