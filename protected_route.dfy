/** The protected route (components/ProtectedRoute.tsx): an ordered chain of
    checks on the session context (loading, signed in, role, permission) that
    decides what is rendered. */
module ProtectedRoute {
  import opened Common
  import opened Session

  /** What the route renders. */
  datatype View =
    | Loading
    | RedirectTo(path: string)
    | RoleDenied(requiredRole: Role, actualRole: Option<Role>)
    | PermissionDenied(requiredPermission: Permission, actualPermission: Option<Permission>)
    | Children

  /** A role requirement is met when absent, matched exactly, or held by an
      administrator. */
  predicate RoleAdmits(actual: Option<Role>, required: Option<Role>) {
    required.None? || actual == required || actual == Some(Role.Admin)
  }

  /** A permission requirement is met when absent, matched exactly, or held
      with the administrator permission. */
  predicate PermissionAdmits(actual: Option<Permission>, required: Option<Permission>) {
    required.None? || actual == required || actual == Some(Permission.Admin)
  }

  /** The route's render decision; `redirectTo` is None when the prop is not
      given, in which case '/login' is used. */
  function Render(
    isLoading: bool, isAuthenticated: bool,
    userRole: Option<Role>, userPermission: Option<Permission>,
    requiredRole: Option<Role>, requiredPermission: Option<Permission>,
    redirectTo: Option<string>): (v: View)
    ensures isLoading ==> v == Loading
    ensures !isLoading && !isAuthenticated ==>
      v == RedirectTo(if redirectTo.Some? then redirectTo.value else "/login")
    ensures v.RoleDenied? <==> !isLoading && isAuthenticated && !RoleAdmits(userRole, requiredRole)
    ensures v.PermissionDenied? <==>
      !isLoading && isAuthenticated && RoleAdmits(userRole, requiredRole) &&
      !PermissionAdmits(userPermission, requiredPermission)
    ensures v == Children <==>
      !isLoading && isAuthenticated && RoleAdmits(userRole, requiredRole) &&
      PermissionAdmits(userPermission, requiredPermission)
  {
    if isLoading then Loading
    else if !isAuthenticated then RedirectTo(if redirectTo.Some? then redirectTo.value else "/login")
    else if requiredRole.Some? && userRole != requiredRole && userRole != Some(Role.Admin) then
      RoleDenied(requiredRole.value, userRole)
    else if requiredPermission.Some? && userPermission != requiredPermission && userPermission != Some(Permission.Admin) then
      PermissionDenied(requiredPermission.value, userPermission)
    else Children
  }
}
