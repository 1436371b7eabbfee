/** The sign-in page (pages/Login.tsx): the blank check before signing in, the
    routing after it, and the password-reset form's email checks. */
module Login {
  import opened Common
  import opened Json
  import opened Auth
  import opened Session

  const CredentialsRequired: string := "Usuário e senha são obrigatórios"
  const TemporaryPassword: string := "Senha temporária detectada. Redirecionando para alteração de senha..."
  const SignedIn: string := "Login realizado com sucesso!"
  const InvalidCredentialsToast: string := "Credenciais inválidas"
  const EmailRequired: string := "Email é obrigatório"
  const EmailInvalid: string := "Email inválido"
  const ResetSent: string := "Instruções de recuperação enviadas para seu email!"
  const ContactAdministrator: string := "Entre em contato com o administrador do sistema para redefinir sua senha"

  // ---------------------------------------------------------------------------
  // Signing in

  /** The sign-in handler refuses to call `login` when either field is blank
      after trimming. */
  function CredentialsCheck(username: string, password: string): (rejection: Option<string>)
    ensures rejection.Some? ==> rejection.value == CredentialsRequired
    ensures username == "" || password == "" ==> rejection.Some?
  {
    if Trim(username) == "" || Trim(password) == "" then Some(CredentialsRequired) else None
  }

  /** Sign-in is attempted exactly when neither field is all whitespace. */
  lemma CredentialsCheckMeaning(username: string, password: string)
    ensures CredentialsCheck(username, password).None? <==> !IsBlank(username) && !IsBlank(password)
    ensures CredentialsCheck(username, password).Some? ==>
      CredentialsCheck(username, password).value == CredentialsRequired
  {
    TrimEmptyIffBlank(username);
    TrimEmptyIffBlank(password);
  }


  /** How the promise returned by the context's `login` settles, as the page
      sees it: rejected, resolved with `undefined`, or resolved with an object
      whose `requiresPasswordChange` field is given (or absent). */
  datatype Settled = Rejected | ResolvedUndefined | ResolvedWith(requiresPasswordChange: Option<bool>)

  /** The context's `login` as written: it awaits the service and the profile
      reload and returns nothing, so a success resolves with `undefined`. */
  function ContextLoginAsWritten(response: Result<LoginResponse, Thrown>): (s: Settled)
    ensures s == Rejected <==> response.Failure?
    ensures s != Rejected ==> s == ResolvedUndefined
  {
    if response.Failure? then Rejected else ResolvedUndefined
  }

  /** The context's `login` as the page evidently expects it: a success
      resolves with the service's response, which carries the
      `requires_password_change` flag. */
  function ContextLogin(response: Result<LoginResponse, Thrown>): (s: Settled)
    ensures s == Rejected <==> response.Failure?
    ensures response.Success? ==> s == ResolvedWith(response.value.requiresPasswordChange)
  {
    match response
    case Failure(_) => Rejected
    case Success(tokens) => ResolvedWith(tokens.requiresPasswordChange)
  }

  /** What the page shows and where it goes once the sign-in settles. */
  datatype Outcome = Outcome(toast: Toast, navigateTo: Option<string>)

  /** The `try` block after the blank check. Reading a field of `undefined`
      throws a TypeError, which the same `catch` as a rejected sign-in
      handles. */
  function AfterSignIn(s: Settled): (o: Outcome)
    ensures o.navigateTo.Some? <==> s.ResolvedWith?
    ensures !s.ResolvedWith? ==> o == Outcome(ErrorToast(InvalidCredentialsToast), None)
    ensures s.ResolvedWith? && s.requiresPasswordChange == Some(true) ==>
      o == Outcome(InfoToast(TemporaryPassword), Some("/change-password"))
    ensures s.ResolvedWith? && s.requiresPasswordChange != Some(true) ==>
      o == Outcome(SuccessToast(SignedIn), Some("/companies"))
  {
    match s
    case Rejected => Outcome(ErrorToast(InvalidCredentialsToast), None)
    case ResolvedUndefined => Outcome(ErrorToast(InvalidCredentialsToast), None)
    case ResolvedWith(flag) =>
      if flag == Some(true) then Outcome(InfoToast(TemporaryPassword), Some("/change-password"))
      else Outcome(SuccessToast(SignedIn), Some("/companies"))
  }

  /** The navigation an outcome makes, as a list of zero or one paths. */
  function Target(o: Outcome): (paths: seq<string>)
    ensures |paths| <= 1 && (paths == [] <==> o.navigateTo.None?)
    ensures o.navigateTo.Some? ==> paths == [o.navigateTo.value]
  {
    if o.navigateTo.Some? then [o.navigateTo.value] else []
  }

  /** With the context as written, every sign-in, accepted or not, ends in the
      'invalid credentials' message and no navigation. */
  lemma SignInAsWrittenNeverNavigates(response: Result<LoginResponse, Thrown>)
    ensures AfterSignIn(ContextLoginAsWritten(response)) == Outcome(ErrorToast(InvalidCredentialsToast), None)
    ensures response.Success? ==> AfterSignIn(ContextLogin(response)).navigateTo.Some?
  {
  }

  /** With the corrected context the page routes by the flag: a rejected
      sign-in is the only one that stays, a flagged one goes to the password
      form, every other one to the company list. */
  lemma SignInRoutesByFlag(response: Result<LoginResponse, Thrown>)
    ensures AfterSignIn(ContextLogin(response)).navigateTo.None? <==> response.Failure?
    ensures response.Success? ==>
      AfterSignIn(ContextLogin(response)).navigateTo ==
        Some(if response.value.requiresPasswordChange == Some(true) then "/change-password" else "/companies")
    ensures response.Failure? ==> AfterSignIn(ContextLogin(response)).toast == ErrorToast(InvalidCredentialsToast)
  {
  }

  // ---------------------------------------------------------------------------
  // The reset form's email check

  /** No character is whitespace or '@': a run of the class [^\s@]. */
  predicate PlainRun(t: string) {
    forall k :: 0 <= k < |t| ==> !IsWhitespace(t[k]) && t[k] != '@'
  }

  /** What /^[^\s@]+@[^\s@]+\.[^\s@]+$/ accepts: local@domain.suffix, each of
      the three parts a non-empty run without whitespace or '@'. */
  predicate MatchesEmailPattern(s: string) {
    exists i, j :: 0 < i && i + 1 < j && j + 1 < |s| && s[i] == '@' && s[j] == '.' &&
      PlainRun(s[..i]) && PlainRun(s[i + 1..j]) && PlainRun(s[j + 1..])
  }

  /** The first index of `c` in `s`. */
  function IndexOf(s: string, c: char): (r: Option<nat>)
    ensures r.Some? ==> r.value < |s| && s[r.value] == c && c !in s[..r.value]
    ensures r.None? ==> c !in s
  {
    if s == [] then None
    else if s[0] == c then Some(0)
    else match IndexOf(s[1..], c)
      case None => None
      case Some(k) => assert s[..k + 1] == [s[0]] + s[1..][..k]; Some(k + 1)
  }

  /** The check done by scanning: split at the first '@'; the part before it
      is a plain non-empty run, and the rest is a plain run with a '.' that is
      neither its first nor its last character. */
  function EmailShape(s: string): bool {
    match IndexOf(s, '@')
    case None => false
    case Some(i) =>
      var domain := s[i + 1..];
      i > 0 && PlainRun(s[..i]) && PlainRun(domain) && |domain| >= 3 && '.' in domain[1..|domain| - 1]
  }

  lemma PlainRunSlice(t: string, a: nat, b: nat)
    requires PlainRun(t) && a <= b <= |t|
    ensures PlainRun(t[a..b])
  {
    forall k | 0 <= k < b - a
      ensures !IsWhitespace(t[a..b][k]) && t[a..b][k] != '@'
    {
      assert t[a..b][k] == t[a + k];
    }
  }

  lemma PlainRunJoin(x: string, c: char, y: string)
    requires PlainRun(x) && PlainRun(y) && !IsWhitespace(c) && c != '@'
    ensures PlainRun(x + [c] + y)
  {
    var t := x + [c] + y;
    forall k | 0 <= k < |t|
      ensures !IsWhitespace(t[k]) && t[k] != '@'
    {
      if k < |x| {
        assert t[k] == x[k];
      } else if k > |x| {
        assert t[k] == y[k - |x| - 1];
      }
    }
  }

  /** Where the pattern matches, the '@' it uses is the first one, and the
      scanning check accepts. */
  lemma {:induction false} PatternImpliesShape(s: string, i: nat, j: nat)
    requires 0 < i && i + 1 < j && j + 1 < |s| && s[i] == '@' && s[j] == '.'
    requires PlainRun(s[..i]) && PlainRun(s[i + 1..j]) && PlainRun(s[j + 1..])
    ensures EmailShape(s)
  {
    var first := IndexOf(s, '@');
    assert s[i] in s;
    assert first.Some?;
    assert first.value == i;
    var domain := s[i + 1..];
    var d := j - (i + 1);
    assert domain == s[i + 1..j] + [s[j]] + s[j + 1..];
    PlainRunJoin(s[i + 1..j], s[j], s[j + 1..]);
    assert domain[1..|domain| - 1][d - 1] == '.';
  }

  /** Split points that meet the pattern's conditions are a match. */
  lemma PatternAt(s: string, i: nat, j: nat)
    requires 0 < i && i + 1 < j && j + 1 < |s| && s[i] == '@' && s[j] == '.'
    requires PlainRun(s[..i]) && PlainRun(s[i + 1..j]) && PlainRun(s[j + 1..])
    ensures MatchesEmailPattern(s)
  {
  }

  /** What the scanning check accepts, the pattern matches. */
  lemma {:induction false} ShapeImpliesPattern(s: string)
    requires EmailShape(s)
    ensures MatchesEmailPattern(s)
  {
    var i := IndexOf(s, '@').value;
    var domain := s[i + 1..];
    var inner := domain[1..|domain| - 1];
    var m :| 0 <= m < |inner| && inner[m] == '.';
    var j := i + 2 + m;
    assert s[j] == '.';
    PlainRunSlice(domain, 0, m + 1);
    PlainRunSlice(domain, m + 2, |domain|);
    assert s[i + 1..j] == domain[0..m + 1];
    assert s[j + 1..] == domain[m + 2..|domain|];
    PatternAt(s, i, j);
  }

  /** The scanning check accepts exactly what the pattern accepts. */
  lemma EmailShapeMatchesPattern(s: string)
    ensures EmailShape(s) <==> MatchesEmailPattern(s)
  {
    if MatchesEmailPattern(s) {
      var i, j :| 0 < i && i + 1 < j && j + 1 < |s| && s[i] == '@' && s[j] == '.' &&
        PlainRun(s[..i]) && PlainRun(s[i + 1..j]) && PlainRun(s[j + 1..]);
      PatternImpliesShape(s, i, j);
    }
    if EmailShape(s) {
      ShapeImpliesPattern(s);
    }
  }

  /** The reset handler's checks, in order: a blank email, then one the
      pattern refuses. */
  function ResetCheck(email: string): (rejection: Option<string>)
    ensures rejection.None? ==> EmailShape(email)
    ensures rejection.Some? ==> rejection.value == EmailRequired || rejection.value == EmailInvalid
    ensures email == "" ==> rejection == Some(EmailRequired)
  {
    if Trim(email) == "" then Some(EmailRequired)
    else if !EmailShape(email) then Some(EmailInvalid)
    else None
  }

  /** A blank email is reported as missing; otherwise an email outside the
      pattern is reported as invalid, and one inside it is accepted. */
  lemma ResetCheckMeaning(email: string)
    ensures IsBlank(email) ==> ResetCheck(email) == Some(EmailRequired)
    ensures !IsBlank(email) && !MatchesEmailPattern(email) ==> ResetCheck(email) == Some(EmailInvalid)
    ensures !IsBlank(email) && MatchesEmailPattern(email) ==> ResetCheck(email).None?
  {
    TrimEmptyIffBlank(email);
    EmailShapeMatchesPattern(email);
  }

  /** The reset handler's checks, evaluated the way it does. */
  method CheckResetEmail(email: string) returns (rejection: Option<string>)
    ensures rejection == ResetCheck(email)
  {
    if Trim(email) == "" {
      return Some(EmailRequired);
    }
    if !EmailShape(email) {
      return Some(EmailInvalid);
    }
    return None;
  }

  /** An email the pattern accepts starts with a non-whitespace character. */
  lemma PatternIsNotBlank(email: string)
    requires MatchesEmailPattern(email)
    ensures !IsBlank(email)
  {
    var i, j :| 0 < i && i + 1 < j && j + 1 < |email| && email[i] == '@' && email[j] == '.' &&
      PlainRun(email[..i]) && PlainRun(email[i + 1..j]) && PlainRun(email[j + 1..]);
    assert email[..i][0] == email[0];
    assert !IsWhitespace(email[0]);
  }

  /** An email passes both checks exactly when it matches the pattern. */
  lemma ResetAcceptedIffPattern(email: string)
    ensures ResetCheck(email).None? <==> MatchesEmailPattern(email)
  {
    ResetCheckMeaning(email);
    if MatchesEmailPattern(email) {
      PatternIsNotBlank(email);
    }
  }

  // ---------------------------------------------------------------------------
  // The page

  class LoginPage {
    const auth: AuthProvider
    var username: string
    var password: string
    var isLoading: bool
    var isResetModalOpen: bool
    var resetEmail: string
    var isResetting: bool
    var toasts: seq<Toast>
    var navigations: seq<string>

    constructor(auth: AuthProvider)
      ensures this.auth == auth
      ensures username == "" && password == "" && !isLoading
      ensures !isResetModalOpen && resetEmail == "" && !isResetting
      ensures toasts == [] && navigations == []
    {
      this.auth := auth;
      username, password := "", "";
      isLoading := false;
      isResetModalOpen := false;
      resetEmail := "";
      isResetting := false;
      toasts, navigations := [], [];
    }

    /** `handleSubmit`: blank fields are refused without a sign-in attempt and
        with loading never set; otherwise the context signs in (`response` is
        the backend's answer, `profile` that of the profile reload, and the
        session's new state is SignedInSince), the page routes by AfterSignIn
        of the corrected context ContextLogin, and loading is over. */
    method HandleSubmit(response: Result<LoginResponse, Thrown>, profile: Result<Profile, Thrown>)
      modifies `isLoading, `toasts, `navigations, auth, auth.service
      ensures old(CredentialsCheck(username, password)).Some? ==>
        && toasts == old(toasts) + [ErrorToast(CredentialsRequired)] && navigations == old(navigations)
        && isLoading == old(isLoading) && unchanged(auth) && unchanged(auth.service)
      ensures old(CredentialsCheck(username, password)).None? ==>
        && auth.SignedInSince(old(username), old(password), response, profile)
        && toasts == old(toasts) + [AfterSignIn(ContextLogin(response)).toast]
        && navigations == old(navigations) + Target(AfterSignIn(ContextLogin(response)))
        && !isLoading
    {
      var name, secret := username, password;
      var rejection := CredentialsCheck(name, secret);
      if rejection.Some? {
        toasts := toasts + [ErrorToast(CredentialsRequired)];
        return;
      }
      SignIn(name, secret, response, profile);
    }

    /** The `try` block of `handleSubmit`, settled by the corrected context:
        an accepted sign-in is routed by its password-change flag. */
    method SignIn(name: string, secret: string, response: Result<LoginResponse, Thrown>, profile: Result<Profile, Thrown>)
      modifies `isLoading, `toasts, `navigations, auth, auth.service
      ensures auth.SignedInSince(name, secret, response, profile)
      ensures toasts == old(toasts) + [AfterSignIn(ContextLogin(response)).toast]
      ensures navigations == old(navigations) + Target(AfterSignIn(ContextLogin(response)))
      ensures !isLoading
    {
      isLoading := true;
      var failure := auth.Login(name, secret, response, profile);
      var settled := if failure.Some? then Rejected else ContextLogin(response);
      assert settled == ContextLogin(response);
      Show(AfterSignIn(settled));
      isLoading := false;
    }

    /** The toast and the navigation of an outcome. */
    method Show(o: Outcome)
      modifies `toasts, `navigations
      ensures toasts == old(toasts) + [o.toast] && navigations == old(navigations) + Target(o)
    {
      toasts := toasts + [o.toast];
      if o.navigateTo.Some? {
        navigations := navigations + [o.navigateTo.value];
      }
    }

    /** `handlePasswordReset`: a blank or malformed email is refused without
        a call; otherwise the reset is requested (`failure` is None when it
        succeeds); a success closes the form and clears the email, a failure
        shows the 'contact the administrator' note and keeps both. */
    method HandlePasswordReset(failure: Option<Thrown>)
      modifies `toasts, `isResetModalOpen, `resetEmail, `isResetting, auth.service
      ensures auth.service.storage == old(auth.service.storage) && auth.service.href == old(auth.service.href)
      ensures old(ResetCheck(resetEmail)).Some? ==>
        && toasts == old(toasts) + [ErrorToast(old(ResetCheck(resetEmail)).value)]
        && auth.service.calls == old(auth.service.calls)
        && resetEmail == old(resetEmail) && isResetModalOpen == old(isResetModalOpen) && isResetting == old(isResetting)
      ensures old(ResetCheck(resetEmail)).None? ==>
        && auth.service.calls == old(auth.service.calls) + [PasswordResetCall(old(resetEmail))]
        && !isResetting
        && (failure.None? ==> toasts == old(toasts) + [SuccessToast(ResetSent)] && !isResetModalOpen && resetEmail == "")
        && (failure.Some? ==>
              toasts == old(toasts) + [InfoToast(ContactAdministrator)] &&
              isResetModalOpen == old(isResetModalOpen) && resetEmail == old(resetEmail))
    {
      var email := resetEmail;
      var rejection := CheckResetEmail(email);
      Reset(email, rejection, failure);
    }

    /** The handler once the checks are done: a refused email shows its
        message, an accepted one is sent. */
    method Reset(email: string, rejection: Option<string>, failure: Option<Thrown>)
      modifies `toasts, `isResetModalOpen, `resetEmail, `isResetting, auth.service
      ensures auth.service.storage == old(auth.service.storage) && auth.service.href == old(auth.service.href)
      ensures rejection.Some? ==>
        && toasts == old(toasts) + [ErrorToast(rejection.value)]
        && auth.service.calls == old(auth.service.calls)
        && resetEmail == old(resetEmail) && isResetModalOpen == old(isResetModalOpen) && isResetting == old(isResetting)
      ensures rejection.None? ==>
        && auth.service.calls == old(auth.service.calls) + [PasswordResetCall(email)]
        && !isResetting
        && (failure.None? ==> toasts == old(toasts) + [SuccessToast(ResetSent)] && !isResetModalOpen && resetEmail == "")
        && (failure.Some? ==>
              toasts == old(toasts) + [InfoToast(ContactAdministrator)] &&
              isResetModalOpen == old(isResetModalOpen) && resetEmail == old(resetEmail))
    {
      if rejection.Some? {
        Reject(rejection.value);
      } else {
        SendReset(email, failure);
      }
    }

    /** A refused email's message. */
    method Reject(message: string)
      modifies `toasts
      ensures toasts == old(toasts) + [ErrorToast(message)]
    {
      toasts := toasts + [ErrorToast(message)];
    }

    /** The `try` block of `handlePasswordReset`. */
    method SendReset(email: string, failure: Option<Thrown>)
      modifies `toasts, `isResetModalOpen, `resetEmail, `isResetting, auth.service
      ensures auth.service.storage == old(auth.service.storage) && auth.service.href == old(auth.service.href)
      ensures auth.service.calls == old(auth.service.calls) + [PasswordResetCall(email)] && !isResetting
      ensures failure.None? ==> toasts == old(toasts) + [SuccessToast(ResetSent)] && !isResetModalOpen && resetEmail == ""
      ensures failure.Some? ==>
        toasts == old(toasts) + [InfoToast(ContactAdministrator)] &&
        isResetModalOpen == old(isResetModalOpen) && resetEmail == old(resetEmail)
    {
      isResetting := true;
      var error := auth.service.RequestPasswordReset(email, failure);
      if error.None? {
        toasts := toasts + [SuccessToast(ResetSent)];
        isResetModalOpen := false;
        resetEmail := "";
      } else {
        toasts := toasts + [InfoToast(ContactAdministrator)];
      }
      isResetting := false;
    }
  }
}
