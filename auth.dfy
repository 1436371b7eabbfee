/** The authentication service (services/auth.ts): a two-key token store in
    the browser's localStorage, whose values are JSON-encoded strings, and the
    login, refresh, logout, profile and password calls built on it. Every
    backend call is an outcome handed in by the caller and recorded in a log,
    so that "no call was made" can be stated. */
module Auth {
  import opened Common
  import opened Json

  const AccessKey: string := "access"
  const RefreshKey: string := "refresh"

  const InvalidCredentials: string := "Credenciais inválidas"
  const RefreshTokenMissing: string := "Token de refresh não encontrado"
  const RefreshFailed: string := "Falha ao renovar token"
  const NotAuthenticated: string := "Usuário não autenticado"
  const ProfileFailed: string := "Falha ao obter perfil do usuário"
  const PasswordResetFailed: string := "Falha ao solicitar redefinição de senha"
  const ChangeInvalidData: string := "Dados inválidos. Verifique se a senha atual está correta."
  const ChangeUnauthorized: string := "Não autorizado. Faça login novamente."
  const ChangeFailed: string := "Falha ao alterar senha. Tente novamente."

  /** The user profile the backend returns. `companyId` is None when the field
      is missing; the optional flags are false when missing. */
  datatype Profile = Profile(
    firstName: string,
    lastName: string,
    companyId: Option<int>,
    company: string,
    isAdmin: bool,
    isEmployee: bool,
    role: Option<string>)

  /** `!!profile.company_id`: a company id is present and non-zero. */
  predicate HasCompany(p: Profile) {
    p.companyId.Some? && p.companyId.value != 0
  }

  /** The body of a successful login response. */
  datatype LoginResponse = LoginResponse(access: string, refresh: string, requiresPasswordChange: Option<bool>)

  /** A backend call the service made. */
  datatype BackendCall =
    | LoginCall(username: string, password: string)
    | RefreshCall(refreshToken: JsonValue)
    | ProfileCall
    | PasswordResetCall(email: string)
    | ChangePasswordCall(oldPassword: string, newPassword: string)

  // ---------------------------------------------------------------------------
  // The token store as a value

  /** `getAccessToken` / `getRefreshToken`: the stored value decoded with
      JSON.parse, or null when the key is absent, holds "", or holds text
      JSON.parse rejects. It never fails. */
  function ReadToken(storage: map<string, string>, key: string): (v: JsonValue)
    ensures key !in storage || storage[key] == "" ==> v == JNull
    ensures key in storage && Parse(storage[key]).None? ==> v == JNull
    ensures v != JNull ==> key in storage && Parse(storage[key]) == Some(v)
  {
    if key in storage && storage[key] != "" then
      match Parse(storage[key])
      case Some(v) => v
      case None => JNull
    else JNull
  }

  /** `isAuthenticated`: the stored access value decodes to a truthy value. */
  predicate IsAuthenticatedIn(storage: map<string, string>) {
    Truthy(ReadToken(storage, AccessKey))
  }

  /** The storage after `logout`: both token keys removed, every other key kept. */
  function Cleared(storage: map<string, string>): (r: map<string, string>)
    ensures AccessKey !in r && RefreshKey !in r
    ensures forall k :: k in r ==> k in storage && r[k] == storage[k]
    ensures forall k :: k in storage && k != AccessKey && k != RefreshKey ==> k in r
  {
    storage - {AccessKey, RefreshKey}
  }

  /** A token written with JSON.stringify is read back as the same string. */
  lemma TokenRoundTrip(storage: map<string, string>, key: string, token: string)
    ensures ReadToken(storage[key := Stringify(token)], key) == JStr(token)
  {
    ParseStringify(token);
  }

  /** Writing one key does not change what the other key reads. */
  lemma ReadOtherKey(storage: map<string, string>, key: string, other: string, value: string)
    requires key != other
    ensures ReadToken(storage[key := value], other) == ReadToken(storage, other)
  {
    assert other in storage[key := value] <==> other in storage;
  }

  /** Storing both tokens, access first, makes each read back as written. */
  lemma StoreBoth(storage: map<string, string>, access: string, refresh: string)
    ensures ReadToken(storage[AccessKey := Stringify(access)][RefreshKey := Stringify(refresh)], AccessKey) == JStr(access)
    ensures ReadToken(storage[AccessKey := Stringify(access)][RefreshKey := Stringify(refresh)], RefreshKey) == JStr(refresh)
  {
    var withAccess := storage[AccessKey := Stringify(access)];
    TokenRoundTrip(storage, AccessKey, access);
    ReadOtherKey(withAccess, RefreshKey, AccessKey, Stringify(refresh));
    TokenRoundTrip(withAccess, RefreshKey, refresh);
  }

  /** Storing the access token alone makes it read back as written and
      leaves the refresh token as it was. */
  lemma StoreAccess(storage: map<string, string>, token: string)
    ensures ReadToken(storage[AccessKey := Stringify(token)], AccessKey) == JStr(token)
    ensures ReadToken(storage[AccessKey := Stringify(token)], RefreshKey) == ReadToken(storage, RefreshKey)
  {
    TokenRoundTrip(storage, AccessKey, token);
    ReadOtherKey(storage, AccessKey, RefreshKey, Stringify(token));
  }

  /** After storing an access token the session counts as authenticated
      exactly when that token is non-empty. */
  lemma AuthenticatedAfterStore(storage: map<string, string>, access: string)
    ensures IsAuthenticatedIn(storage[AccessKey := Stringify(access)]) <==> access != ""
  {
    TokenRoundTrip(storage, AccessKey, access);
  }

  /** After `logout` no token is readable and the session is unauthenticated;
      logging out again changes nothing. */
  lemma ClearedIsFinal(storage: map<string, string>)
    ensures ReadToken(Cleared(storage), AccessKey) == JNull
    ensures ReadToken(Cleared(storage), RefreshKey) == JNull
    ensures !IsAuthenticatedIn(Cleared(storage))
    ensures Cleared(Cleared(storage)) == Cleared(storage)
  {
  }

  /** The message `changePassword` reports for a failed backend call: the text
      of the error decides, '400' before '401'. */
  function ChangePasswordErrorMessage(e: Thrown): (m: string)
    ensures m in {ChangeInvalidData, ChangeUnauthorized, ChangeFailed}
    ensures m == ChangeInvalidData <==> Contains(e.message, "400")
    ensures m == ChangeUnauthorized <==> !Contains(e.message, "400") && Contains(e.message, "401")
  {
    if e.message != "" && Contains(e.message, "400") then ChangeInvalidData
    else if e.message != "" && Contains(e.message, "401") then ChangeUnauthorized
    else ChangeFailed
  }

  // ---------------------------------------------------------------------------
  // The service

  class AuthService {
    /** localStorage, key to stored text. */
    var storage: map<string, string>
    /** window.location.href */
    var href: string
    /** The backend calls made so far, in order. */
    var calls: seq<BackendCall>

    constructor(storage: map<string, string>, href: string)
      ensures this.storage == storage && this.href == href && calls == []
    {
      this.storage := storage;
      this.href := href;
      calls := [];
    }

    /** `getAccessToken`: null when the key is absent, empty or unparseable,
        otherwise the parsed value. */
    function GetAccessToken(): (t: JsonValue)
      reads this
      ensures AccessKey !in storage || storage[AccessKey] == "" ==> t == JNull
      ensures AccessKey in storage && Parse(storage[AccessKey]).None? ==> t == JNull
      ensures t != JNull ==> AccessKey in storage && Parse(storage[AccessKey]) == Some(t)
    {
      ReadToken(storage, AccessKey)
    }

    /** `getRefreshToken`: null when the key is absent, empty or
        unparseable, otherwise the parsed value. */
    function GetRefreshToken(): (t: JsonValue)
      reads this
      ensures RefreshKey !in storage || storage[RefreshKey] == "" ==> t == JNull
      ensures RefreshKey in storage && Parse(storage[RefreshKey]).None? ==> t == JNull
      ensures t != JNull ==> RefreshKey in storage && Parse(storage[RefreshKey]) == Some(t)
    {
      ReadToken(storage, RefreshKey)
    }

    /** `isAuthenticated`: `!!this.getAccessToken()`. */
    function IsAuthenticated(): (b: bool)
      reads this
      ensures b ==> AccessKey in storage && storage[AccessKey] != "" && Parse(storage[AccessKey]).Some?
      ensures b <==> Truthy(GetAccessToken())
    {
      IsAuthenticatedIn(storage)
    }

    /** Stores both tokens JSON-encoded (StoreBoth: each reads back as
        written). */
    method SetTokens(access: string, refresh: string)
      modifies `storage
      ensures storage == old(storage)[AccessKey := Stringify(access)][RefreshKey := Stringify(refresh)]
    {
      storage := storage[AccessKey := Stringify(access)][RefreshKey := Stringify(refresh)];
    }

    /** Stores the access token only (StoreAccess: it reads back as written
        and the refresh token is untouched). */
    method SetAccessToken(token: string)
      modifies `storage
      ensures storage == old(storage)[AccessKey := Stringify(token)]
    {
      storage := storage[AccessKey := Stringify(token)];
    }

    /** Removes both tokens and sends the browser to '/login'. */
    method Logout()
      modifies this
      ensures storage == Cleared(old(storage)) && href == "/login" && calls == old(calls)
      ensures GetAccessToken() == JNull && GetRefreshToken() == JNull && !IsAuthenticated()
    {
      storage := storage - {AccessKey};
      storage := storage - {RefreshKey};
      assert storage == Cleared(old(storage));
      ClearedIsFinal(old(storage));
      href := "/login";
    }

    /** Signs in; a success stores both tokens, a failure stores nothing and
        reports the one generic message. */
    method Login(username: string, password: string, response: Result<LoginResponse, Thrown>)
      returns (r: Result<LoginResponse, string>)
      modifies this
      ensures calls == old(calls) + [LoginCall(username, password)] && href == old(href)
      ensures response.Success? ==>
        r == Success(response.value) &&
        storage == old(storage)[AccessKey := Stringify(response.value.access)][RefreshKey := Stringify(response.value.refresh)]
      ensures response.Failure? ==> r == Failure(InvalidCredentials) && storage == old(storage)
    {
      calls := calls + [LoginCall(username, password)];
      match response
      case Success(tokens) =>
        SetTokens(tokens.access, tokens.refresh);
        r := Success(tokens);
      case Failure(_) =>
        r := Failure(InvalidCredentials);
    }

    /** Renews the access token with the stored refresh token. Without a
        truthy refresh token nothing is called and nothing changes; a rejected
        refresh logs out. */
    method RefreshAccessToken(outcome: Result<string, Thrown>) returns (r: Result<string, string>)
      modifies this
      ensures !Truthy(old(GetRefreshToken())) ==>
        r == Failure(RefreshTokenMissing) && storage == old(storage) && href == old(href) && calls == old(calls)
      ensures Truthy(old(GetRefreshToken())) ==> calls == old(calls) + [RefreshCall(old(GetRefreshToken()))]
      ensures Truthy(old(GetRefreshToken())) && outcome.Success? ==>
        r == Success(outcome.value) && storage == old(storage)[AccessKey := Stringify(outcome.value)] &&
        href == old(href) && GetRefreshToken() == old(GetRefreshToken())
      ensures Truthy(old(GetRefreshToken())) && outcome.Failure? ==>
        r == Failure(RefreshFailed) && storage == Cleared(old(storage)) && href == "/login"
    {
      var refreshToken := GetRefreshToken();
      if !Truthy(refreshToken) {
        return Failure(RefreshTokenMissing);
      }
      r := Renew(refreshToken, outcome);
    }

    /** The refresh call itself, with the stored refresh token: a new access
        token is stored, a rejection logs out. */
    method Renew(refreshToken: JsonValue, outcome: Result<string, Thrown>) returns (r: Result<string, string>)
      modifies this
      ensures calls == old(calls) + [RefreshCall(refreshToken)]
      ensures outcome.Success? ==>
        r == Success(outcome.value) && storage == old(storage)[AccessKey := Stringify(outcome.value)] &&
        href == old(href) && GetRefreshToken() == old(GetRefreshToken())
      ensures outcome.Failure? ==>
        r == Failure(RefreshFailed) && storage == Cleared(old(storage)) && href == "/login"
    {
      calls := calls + [RefreshCall(refreshToken)];
      if outcome.Success? {
        ghost var before := storage;
        SetAccessToken(outcome.value);
        StoreAccess(before, outcome.value);
        r := Success(outcome.value);
      } else {
        Logout();
        r := Failure(RefreshFailed);
      }
    }

    /** Fetches the profile; refuses without a call when unauthenticated. */
    method GetUserProfile(outcome: Result<Profile, Thrown>) returns (r: Result<Profile, string>)
      modifies this
      ensures storage == old(storage) && href == old(href)
      ensures !IsAuthenticated() ==> r == Failure(NotAuthenticated) && calls == old(calls)
      ensures IsAuthenticated() ==> calls == old(calls) + [ProfileCall]
      ensures IsAuthenticated() && outcome.Success? ==> r == Success(outcome.value)
      ensures IsAuthenticated() && outcome.Failure? ==> r == Failure(ProfileFailed)
    {
      if !IsAuthenticated() {
        return Failure(NotAuthenticated);
      }
      calls := calls + [ProfileCall];
      match outcome
      case Success(p) => r := Success(p);
      case Failure(_) => r := Failure(ProfileFailed);
    }

    /** Asks the backend to send a password-reset message; `failure` is None
        when the call succeeds. */
    method RequestPasswordReset(email: string, failure: Option<Thrown>) returns (error: Option<string>)
      modifies this
      ensures storage == old(storage) && href == old(href)
      ensures calls == old(calls) + [PasswordResetCall(email)]
      ensures error == (if failure.None? then None else Some(PasswordResetFailed))
    {
      calls := calls + [PasswordResetCall(email)];
      error := if failure.None? then None else Some(PasswordResetFailed);
    }

    /** Changes the password; a failure is reported through
        ChangePasswordErrorMessage. */
    method ChangePassword(oldPassword: string, newPassword: string, failure: Option<Thrown>)
      returns (error: Option<string>)
      modifies this
      ensures storage == old(storage) && href == old(href)
      ensures calls == old(calls) + [ChangePasswordCall(oldPassword, newPassword)]
      ensures failure.None? ==> error.None?
      ensures failure.Some? ==> error == Some(ChangePasswordErrorMessage(failure.value))
    {
      calls := calls + [ChangePasswordCall(oldPassword, newPassword)];
      match failure
      case None => error := None;
      case Some(e) => error := Some(ChangePasswordErrorMessage(e));
    }
  }
}
