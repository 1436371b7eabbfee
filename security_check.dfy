/** The security hook (hooks/useSecurityCheck.ts): token verification with a
    refresh fallback, the reaction to a 401, the permission ladder, the user
    integrity check and the wrapper around API calls. The backend's verdict on
    a token and the outcome of the context's `refreshToken` member (which the
    session context does not define) are inputs. */
module SecurityCheck {
  import opened Common
  import opened Json
  import opened Auth
  import opened Session

  const SessionExpired: string := "Sessão expirada. Faça login novamente."
  const SessionRedirect: string := "Sessão expirada. Redirecionando para login..."
  const AdminRequired: string := "Acesso negado: Permissão de administrador necessária"
  const WriteRequired: string := "Acesso negado: Permissão de escrita necessária"
  const CorruptUser: string := "Dados do usuário corrompidos. Fazendo logout por segurança."

  /** `isPublicPage`: the path needs no token. */
  predicate IsPublicPage(path: string) {
    path in PublicPaths
  }

  /** What the context's `refreshToken()` does when called: resolves to a
      truthy value, resolves to a falsy one, or throws. */
  datatype RefreshOutcome = RefreshTruthy | RefreshFalsy | RefreshThrows

  /** The decision `verifyAndRefreshToken` takes: its result, the token it
      sends to the backend for verification (if any) and whether it calls
      `refreshToken`. Whenever the result is false the hook logs out and
      navigates to '/login'. */
  datatype Verdict = Verdict(valid: bool, verified: Option<JsonValue>, refreshCalled: bool)

  /** `verifyAndRefreshToken` over the current path, the raw text stored
      under 'access', the backend's verdict and the refresh outcome. A stored
      text JSON.parse rejects fails inside the inner try, so it is treated
      like a token the backend rejects. */
  function VerifyDecision(path: string, raw: Option<string>, accepts: bool, refresh: RefreshOutcome): (v: Verdict)
    ensures IsPublicPage(path) ==> v == Verdict(true, None, false)
    ensures v.verified.Some? ==> raw.Some? && Parse(raw.value) == v.verified
    ensures v.refreshCalled ==> !IsPublicPage(path) && raw.Some? && raw.value != ""
    ensures v.valid ==> IsPublicPage(path) || accepts || refresh == RefreshTruthy
  {
    if IsPublicPage(path) then Verdict(true, None, false)
    else if raw.None? || raw.value == "" then Verdict(false, None, false)
    else
      var parsed := Parse(raw.value);
      if parsed.Some? && accepts then Verdict(true, parsed, false)
      else Verdict(refresh == RefreshTruthy, parsed, true)
  }

  /** A public page is valid with no call; a missing or empty token is
      invalid with no call; otherwise the token is sent for verification
      exactly when it parses, the refresh is tried exactly when the
      verification does not succeed, and the result is valid exactly when
      one of the two does. */
  lemma VerifyDecisionMeaning(path: string, raw: Option<string>, accepts: bool, refresh: RefreshOutcome)
    ensures var v := VerifyDecision(path, raw, accepts, refresh);
      && (IsPublicPage(path) ==> v == Verdict(true, None, false))
      && (!IsPublicPage(path) && (raw.None? || raw.value == "") ==> v == Verdict(false, None, false))
      && (v.verified.Some? <==> !IsPublicPage(path) && raw.Some? && raw.value != "" && Parse(raw.value).Some?)
      && (v.verified.Some? ==> Parse(raw.value) == v.verified)
      && (v.refreshCalled <==>
            !IsPublicPage(path) && raw.Some? && raw.value != "" && !(Parse(raw.value).Some? && accepts))
      && (v.valid <==>
            IsPublicPage(path) || (raw.Some? && raw.value != "" && ((Parse(raw.value).Some? && accepts) || refresh == RefreshTruthy)))
  {
  }

  /** A token the backend rejects on a guarded path is never valid when the
      refresh throws, which is what calling the undefined `refreshToken` of
      the session context does. */
  lemma RejectedTokenEndsSession(path: string, raw: Option<string>)
    requires !IsPublicPage(path)
    ensures !VerifyDecision(path, raw, false, RefreshThrows).valid
    ensures !VerifyDecision(path, raw, false, RefreshFalsy).valid
  {
  }

  /** `error?.message?.includes('401') || error?.status === 401` */
  predicate IsUnauthorized(e: Thrown) {
    Contains(e.message, "401") || e.status == Some(401)
  }

  /** The order of permissions. */
  function Rank(p: Permission): nat {
    match p
    case Read => 0
    case Write => 1
    case Admin => 2
  }

  /** The ladder in `checkPermission` once a user is present: the toast that
      denies the requirement, or None when it is met. For a present
      permission this is exactly "rank at least the required rank". */
  function PermissionDenial(current: Option<Permission>, required: Permission): (r: Option<string>)
    ensures current.Some? ==> (r.None? <==> Rank(current.value) >= Rank(required))
    ensures current.None? ==> (r.None? <==> required != Permission.Admin)
    ensures r.Some? ==> r == Some(if required == Permission.Admin then AdminRequired else WriteRequired)
  {
    if current == Some(Permission.Admin) then None
    else if required == Permission.Admin then Some(AdminRequired)
    else if required == Write && current == Some(Read) then Some(WriteRequired)
    else None
  }

  class SecurityCheck {
    const auth: AuthProvider
    /** window.location.pathname */
    var pathname: string
    /** The paths passed to `navigate`, in order. */
    var navigations: seq<string>
    var toasts: seq<Toast>
    /** The tokens sent to the backend's verify endpoint, in order. */
    var verifyCalls: seq<JsonValue>
    /** How many times `refreshToken` was called. */
    var refreshCalls: nat

    constructor(auth: AuthProvider, pathname: string)
      ensures this.auth == auth && this.pathname == pathname
      ensures navigations == [] && toasts == [] && verifyCalls == [] && refreshCalls == 0
    {
      this.auth := auth;
      this.pathname := pathname;
      navigations := [];
      toasts := [];
      verifyCalls := [];
      refreshCalls := 0;
    }

    /** `localStorage.getItem('access')` */
    function RawAccess(): Option<string>
      reads this, auth, auth.service
    {
      if AccessKey in auth.service.storage then Some(auth.service.storage[AccessKey]) else None
    }

    /** The verification and refresh calls VerifyDecision asks for, relative
        to the state before them. */
    twostate predicate VerifiedSince(accepts: bool, refresh: RefreshOutcome)
      reads this, auth, auth.service
    {
      var v := VerifyDecision(old(pathname), old(RawAccess()), accepts, refresh);
      && verifyCalls == old(verifyCalls) + (if v.verified.Some? then [v.verified.value] else [])
      && refreshCalls == old(refreshCalls) + (if v.refreshCalled then 1 else 0)
    }

    /** `verifyAndRefreshToken`, carrying out VerifyDecision: a false result
        logs out and navigates to '/login'; a true one changes no session
        state. */
    method VerifyAndRefreshToken(accepts: bool, refresh: RefreshOutcome) returns (valid: bool)
      requires auth.Valid()
      modifies `navigations, `verifyCalls, `refreshCalls, auth, auth.service
      ensures auth.Valid()
      ensures var v := VerifyDecision(old(pathname), old(RawAccess()), accepts, refresh);
        && valid == v.valid
        && verifyCalls == old(verifyCalls) + (if v.verified.Some? then [v.verified.value] else [])
        && refreshCalls == old(refreshCalls) + (if v.refreshCalled then 1 else 0)
      ensures valid ==> unchanged(auth, auth.service) && navigations == old(navigations)
      ensures !valid ==> auth.LoggedOutSince() && navigations == old(navigations) + ["/login"]
    {
      if IsPublicPage(pathname) {
        return true;
      }
      var token := RawAccess();
      if token.None? || token.value == "" {
        EndSession();
        return false;
      }
      var parsed := Parse(token.value);
      valid := VerifyParsed(parsed, accepts, refresh);
    }

    /** The rest of `verifyAndRefreshToken` once the stored text is parsed
        (`parsed` is None where JSON.parse throws): a parsed token is sent
        for verification, and unless the backend accepts it the refresh is
        tried; failing both ends the session. */
    method VerifyParsed(parsed: Option<JsonValue>, accepts: bool, refresh: RefreshOutcome) returns (valid: bool)
      requires auth.Valid()
      modifies `navigations, `verifyCalls, `refreshCalls, auth, auth.service
      ensures auth.Valid()
      ensures valid <==> (parsed.Some? && accepts) || refresh == RefreshTruthy
      ensures verifyCalls == old(verifyCalls) + (if parsed.Some? then [parsed.value] else [])
      ensures refreshCalls == old(refreshCalls) + (if parsed.Some? && accepts then 0 else 1)
      ensures valid ==> unchanged(auth, auth.service) && navigations == old(navigations)
      ensures !valid ==> auth.LoggedOutSince() && navigations == old(navigations) + ["/login"]
    {
      if parsed.Some? {
        verifyCalls := verifyCalls + [parsed.value];
        if accepts {
          return true;
        }
      }
      refreshCalls := refreshCalls + 1;
      if refresh == RefreshTruthy {
        return true;
      }
      EndSession();
      valid := false;
    }

    /** The `logout(); navigate('/login')` pair. */
    method EndSession()
      requires auth.Valid()
      modifies `navigations, auth, auth.service
      ensures auth.Valid() && auth.LoggedOutSince()
      ensures navigations == old(navigations) + ["/login"]
    {
      auth.Logout();
      navigations := navigations + ["/login"];
    }

    /** `handleUnauthorized`: an error that is not a 401 is left to the
        caller; a 401 always ends the session with one navigation to '/login'
        and a false result, whatever the verification finds. */
    method HandleUnauthorized(e: Thrown, accepts: bool, refresh: RefreshOutcome) returns (handled: bool)
      requires auth.Valid()
      modifies `navigations, `toasts, `verifyCalls, `refreshCalls, auth, auth.service
      ensures auth.Valid()
      ensures handled <==> !IsUnauthorized(e)
      ensures !IsUnauthorized(e) ==> unchanged(this) && unchanged(auth, auth.service)
      ensures IsUnauthorized(e) ==>
        && auth.LoggedOutSince()
        && VerifiedSince(accepts, refresh)
        && navigations == old(navigations) + ["/login"]
        && var v := VerifyDecision(old(pathname), old(RawAccess()), accepts, refresh);
           toasts == old(toasts) + [ErrorToast(if v.valid then SessionRedirect else SessionExpired)]
    {
      if !IsUnauthorized(e) {
        return true;
      }
      var tokenValid := VerifyAndRefreshToken(accepts, refresh);
      if !tokenValid {
        toasts := toasts + [ErrorToast(SessionExpired)];
        return false;
      }
      toasts := toasts + [ErrorToast(SessionRedirect)];
      auth.Logout();
      navigations := navigations + ["/login"];
      handled := false;
    }

    /** `checkPermission`: passes when the token is valid, a user is present
        and the permission ladder admits the requirement. */
    method CheckPermission(required: Permission, accepts: bool, refresh: RefreshOutcome) returns (allowed: bool)
      requires auth.Valid()
      modifies `navigations, `toasts, `verifyCalls, `refreshCalls, auth, auth.service
      ensures auth.Valid() && VerifiedSince(accepts, refresh)
      ensures var v := VerifyDecision(old(pathname), old(RawAccess()), accepts, refresh);
        && (allowed <==> v.valid && old(auth.user).Some? && PermissionDenial(old(auth.userPermission), required).None?)
        && (v.valid ==> unchanged(auth, auth.service))
        && (!v.valid ==> auth.LoggedOutSince() && navigations == old(navigations) + ["/login"] && toasts == old(toasts))
        && (v.valid && old(auth.user).None? ==>
              navigations == old(navigations) + ["/login"] && toasts == old(toasts) + [ErrorToast(NotAuthenticated)])
        && (v.valid && old(auth.user).Some? ==>
              navigations == old(navigations) &&
              toasts == old(toasts) + (match PermissionDenial(old(auth.userPermission), required)
                                       case None => []
                                       case Some(m) => [ErrorToast(m)]))
    {
      var tokenValid := VerifyAndRefreshToken(accepts, refresh);
      if !tokenValid {
        return false;
      }
      if auth.user.None? {
        toasts := toasts + [ErrorToast(NotAuthenticated)];
        navigations := navigations + ["/login"];
        return false;
      }
      var denial := PermissionDenial(auth.userPermission, required);
      if denial.Some? {
        toasts := toasts + [ErrorToast(denial.value)];
        return false;
      }
      allowed := true;
    }

    /** `checkUserIntegrity`: a valid token and a user with a company pass;
        every failure ends the session with a navigation to '/login', and a
        missing user or company behind a valid token is reported as corrupt
        data. */
    method CheckUserIntegrity(accepts: bool, refresh: RefreshOutcome) returns (intact: bool)
      requires auth.Valid()
      modifies `navigations, `toasts, `verifyCalls, `refreshCalls, auth, auth.service
      ensures auth.Valid() && VerifiedSince(accepts, refresh)
      ensures var v := VerifyDecision(old(pathname), old(RawAccess()), accepts, refresh);
        intact <==> v.valid && old(auth.user).Some? && HasCompany(old(auth.user).value)
      ensures intact ==> unchanged(auth, auth.service) && navigations == old(navigations) && toasts == old(toasts)
      ensures !intact ==> auth.LoggedOutSince() && navigations == old(navigations) + ["/login"]
      ensures var v := VerifyDecision(old(pathname), old(RawAccess()), accepts, refresh);
        && (!v.valid ==> toasts == old(toasts))
        && (v.valid && !intact ==> toasts == old(toasts) + [ErrorToast(CorruptUser)])
    {
      var tokenValid := VerifyAndRefreshToken(accepts, refresh);
      if !tokenValid {
        return false;
      }
      if auth.user.None? || !HasCompany(auth.user.value) {
        toasts := toasts + [ErrorToast(CorruptUser)];
        auth.Logout();
        navigations := navigations + ["/login"];
        return false;
      }
      intact := true;
    }

    /** `secureApiCall`: null when the token is not valid; the call's value
        when it succeeds; null after a 401; any other error is rethrown.
        `recheck` and `recheckRefresh` are the outcomes seen by the second
        verification that `handleUnauthorized` performs after a 401; it
        reads the same stored token, since a valid first verification
        leaves the session untouched. */
    method SecureApiCall<T>(accepts: bool, refresh: RefreshOutcome, call: Result<T, Thrown>,
                            recheck: bool, recheckRefresh: RefreshOutcome)
      returns (r: Result<Option<T>, Thrown>)
      requires auth.Valid()
      modifies `navigations, `toasts, `verifyCalls, `refreshCalls, auth, auth.service
      ensures auth.Valid()
      ensures var v := VerifyDecision(old(pathname), old(RawAccess()), accepts, refresh);
        && (!v.valid ==> r == Success(None) && auth.LoggedOutSince() && VerifiedSince(accepts, refresh))
        && (v.valid && call.Success? ==> VerifiedSince(accepts, refresh))
        && (v.valid && call.Success? ==> r == Success(Some(call.value)) && unchanged(auth, auth.service))
        && (v.valid && call.Failure? && IsUnauthorized(call.error) ==> r == Success(None) && auth.LoggedOutSince())
        && (v.valid && call.Failure? && !IsUnauthorized(call.error) ==> r == Failure(call.error) && unchanged(auth, auth.service))
      ensures var v := VerifyDecision(old(pathname), old(RawAccess()), accepts, refresh);
        && (!v.valid ==> navigations == old(navigations) + ["/login"] && toasts == old(toasts))
        && (v.valid && (call.Success? || !IsUnauthorized(call.error)) ==>
              VerifiedSince(accepts, refresh) && navigations == old(navigations) && toasts == old(toasts))
      ensures var v := VerifyDecision(old(pathname), old(RawAccess()), accepts, refresh);
              var w := VerifyDecision(old(pathname), old(RawAccess()), recheck, recheckRefresh);
        v.valid && call.Failure? && IsUnauthorized(call.error) ==>
          && navigations == old(navigations) + ["/login"]
          && toasts == old(toasts) + [ErrorToast(if w.valid then SessionRedirect else SessionExpired)]
          && verifyCalls == old(verifyCalls) + (if v.verified.Some? then [v.verified.value] else [])
                                             + (if w.verified.Some? then [w.verified.value] else [])
          && refreshCalls == old(refreshCalls) + (if v.refreshCalled then 1 else 0) + (if w.refreshCalled then 1 else 0)
    {
      var tokenValid := VerifyAndRefreshToken(accepts, refresh);
      if !tokenValid {
        return Success(None);
      }
      match call
      case Success(x) =>
        r := Success(Some(x));
      case Failure(e) =>
        var handled := HandleUnauthorized(e, recheck, recheckRefresh);
        if !handled {
          r := Success(None);
        } else {
          r := Failure(e);
        }
    }
  }
}
