/** The password change page (pages/ChangePassword.tsx): the strength rules,
    the order of the submit checks, the errors shown under the field and the
    submit button's disabled state. `changePassword` is read from the session
    context, which does not define it; its outcome is an input here. */
module ChangePassword {
  import opened Common

  const OldRequired: string := "Senha atual é obrigatória"
  const NewRequired: string := "Nova senha é obrigatória"
  const Mismatch: string := "Nova senha e confirmação não coincidem"
  const InvalidPrefix: string := "Senha inválida: "
  const SamePassword: string := "A nova senha deve ser diferente da senha atual"
  const Changed: string := "Senha alterada com sucesso!"
  const ChangeFallback: string := "Erro ao alterar senha. Verifique se a senha atual está correta."

  /** The strength rules, in the order `validatePassword` checks them. */
  datatype Rule = MinLength | Upper | Lower | Digit | Special

  const Rules: seq<Rule> := [MinLength, Upper, Lower, Digit, Special]

  function Message(r: Rule): string {
    match r
    case MinLength => "Deve ter pelo menos 8 caracteres"
    case Upper => "Deve conter pelo menos uma letra maiúscula"
    case Lower => "Deve conter pelo menos uma letra minúscula"
    case Digit => "Deve conter pelo menos um número"
    case Special => "Deve conter pelo menos um caractere especial (!@#$%^&*)"
  }

  /** `password.length`: JavaScript counts UTF-16 code units, so a character
      outside the Basic Multilingual Plane counts twice. */
  function Utf16Length(s: string): (n: nat)
    ensures |s| <= n <= 2 * |s|
  {
    if s == [] then 0 else (if s[0] as int > 0xFFFF then 2 else 1) + Utf16Length(s[1..])
  }

  predicate IsSpecial(c: char) {
    c == '!' || c == '@' || c == '#' || c == '$' || c == '%' || c == '^' || c == '&' || c == '*'
  }

  /** The test behind each rule (the regular expressions [A-Z], [a-z], [0-9]
      and [!@#$%^&*], and the length check). */
  predicate Satisfies(password: string, r: Rule) {
    match r
    case MinLength => Utf16Length(password) >= 8
    case Upper => exists i :: 0 <= i < |password| && 'A' <= password[i] <= 'Z'
    case Lower => exists i :: 0 <= i < |password| && 'a' <= password[i] <= 'z'
    case Digit => exists i :: 0 <= i < |password| && '0' <= password[i] <= '9'
    case Special => exists i :: 0 <= i < |password| && IsSpecial(password[i])
  }

  /** The message for the rule, as a one-element list, when the password
      breaks it. */
  function ErrorIf(password: string, r: Rule): seq<string> {
    if Satisfies(password, r) then [] else [Message(r)]
  }

  /** The five checks in source order, each contributing its message when
      it fails. */
  function FiveChecks(password: string): seq<string> {
    ErrorIf(password, MinLength) + ErrorIf(password, Upper) + ErrorIf(password, Lower) +
    ErrorIf(password, Digit) + ErrorIf(password, Special)
  }

  /** `validatePassword`: one error per broken rule, pushed in rule order. */
  method ValidatePassword(password: string) returns (errors: seq<string>)
    ensures errors == PasswordErrors(password)
  {
    errors := CheckRule(password, MinLength, []);
    assert errors == ErrorIf(password, MinLength);
    errors := CheckRule(password, Upper, errors);
    errors := CheckRule(password, Lower, errors);
    errors := CheckRule(password, Digit, errors);
    errors := CheckRule(password, Special, errors);
    assert errors == FiveChecks(password);
    ChecksAreMessagesOfFailed(password);
  }

  /** One `if` of `validatePassword`: the rule's message is pushed when the
      password breaks it. */
  method CheckRule(password: string, r: Rule, errors: seq<string>) returns (pushed: seq<string>)
    ensures pushed == errors + ErrorIf(password, r)
  {
    pushed := errors;
    if !Satisfies(password, r) {
      pushed := pushed + [Message(r)];
    }
  }

  // ---------------------------------------------------------------------------
  // A reference definition: the broken rules, filtered out of the rule list

  /** Whether the password breaks a rule. */
  function Broken(password: string): Rule -> bool {
    r => !Satisfies(password, r)
  }

  /** The rules the password breaks, in the order of Rules. */
  function FailedRules(password: string): seq<Rule> {
    Filter(Broken(password), Rules)
  }

  function Messages(rules: seq<Rule>): (messages: seq<string>)
    ensures |messages| == |rules|
    ensures forall i :: 0 <= i < |rules| ==> messages[i] == Message(rules[i])
  {
    if rules == [] then [] else [Message(rules[0])] + Messages(rules[1..])
  }

  /** What `validatePassword` returns: the message of each broken rule, in
      rule order. */
  function PasswordErrors(password: string): (errors: seq<string>)
    ensures |errors| == |FailedRules(password)|
    ensures forall i :: 0 <= i < |errors| ==> errors[i] == Message(FailedRules(password)[i])
  {
    Messages(FailedRules(password))
  }

  /** The broken rules are Rules with the others left out, so in rule order
      and none twice. */
  lemma FailedRulesInOrder(password: string)
    ensures IsSubsequence(FailedRules(password), Rules) && |FailedRules(password)| <= |Rules|
  {
    FilterIsSubsequence(Broken(password), Rules);
  }

  /** The broken rules are exactly the rules the password breaks. */
  lemma FailedRulesMembers(password: string)
    ensures forall r :: r in FailedRules(password) <==> !Satisfies(password, r)
  {
    forall r | !Satisfies(password, r)
      ensures r in FailedRules(password)
    {
      assert r in Rules by {
        match r
        case MinLength => assert Rules[0] == r;
        case Upper => assert Rules[1] == r;
        case Lower => assert Rules[2] == r;
        case Digit => assert Rules[3] == r;
        case Special => assert Rules[4] == r;
      }
    }
  }

  lemma Assoc5<T>(a: seq<T>, b: seq<T>, c: seq<T>, d: seq<T>, e: seq<T>)
    ensures a + b + c + d + e == a + (b + (c + (d + e)))
  {
  }

  lemma {:induction false} MessagesAppend(a: seq<Rule>, b: seq<Rule>)
    ensures Messages(a + b) == Messages(a) + Messages(b)
  {
  }

  /** One rule, filtered and turned into messages, is that rule's check. */
  lemma OneRule(password: string, r: Rule)
    ensures Messages(Filter(Broken(password), [r])) == ErrorIf(password, r)
  {
    assert [r][1..] == [];
  }

  /** The five checks yield the messages of the broken rules, in rule order. */
  lemma ChecksAreMessagesOfFailed(password: string)
    ensures FiveChecks(password) == PasswordErrors(password)
  {
    var p := Broken(password);
    var last := [Digit] + [Special];
    var three := [Lower] + last;
    var four := [Upper] + three;
    assert Rules == [MinLength] + four;
    FilterAppend(p, [MinLength], four);
    FilterAppend(p, [Upper], three);
    FilterAppend(p, [Lower], last);
    FilterAppend(p, [Digit], [Special]);
    MessagesAppend(Filter(p, [MinLength]), Filter(p, four));
    MessagesAppend(Filter(p, [Upper]), Filter(p, three));
    MessagesAppend(Filter(p, [Lower]), Filter(p, last));
    MessagesAppend(Filter(p, [Digit]), Filter(p, [Special]));
    OneRule(password, MinLength);
    OneRule(password, Upper);
    OneRule(password, Lower);
    OneRule(password, Digit);
    OneRule(password, Special);
    Assoc5(ErrorIf(password, MinLength), ErrorIf(password, Upper), ErrorIf(password, Lower),
           ErrorIf(password, Digit), ErrorIf(password, Special));
  }

  /** A password every rule accepts. */
  predicate IsStrong(password: string) {
    forall r: Rule :: Satisfies(password, r)
  }

  /** `validatePassword` returns no error exactly for a strong password: at
      least 8 code units, an upper-case and a lower-case letter, a digit and
      one of !@#$%^&*. */
  lemma NoErrorsIffStrong(password: string)
    ensures PasswordErrors(password) == [] <==> IsStrong(password)
  {
    FailedRulesMembers(password);
    var failed := FailedRules(password);
    if failed != [] {
      assert failed[0] in failed;
    }
  }

  /** Each error is the message of a broken rule, and the broken rules
      follow the rule order. */
  lemma ErrorsInRuleOrder(password: string)
    ensures |PasswordErrors(password)| <= |Rules|
    ensures forall i :: 0 <= i < |PasswordErrors(password)| ==>
      PasswordErrors(password)[i] == Message(FailedRules(password)[i]) &&
      !Satisfies(password, FailedRules(password)[i])
    ensures IsSubsequence(FailedRules(password), Rules)
  {
    var failed := FailedRules(password);
    FailedRulesMembers(password);
    FailedRulesInOrder(password);
    forall i | 0 <= i < |failed|
      ensures !Satisfies(password, failed[i])
    {
      assert failed[i] in failed;
    }
  }

  /** The errors listed under the new-password field: none while it is
      empty, otherwise those of `validatePassword`. */
  function DisplayedErrors(newPassword: string): (errors: seq<string>)
    ensures newPassword == "" ==> errors == []
    ensures newPassword != "" ==> errors == PasswordErrors(newPassword)
  {
    if newPassword != "" then PasswordErrors(newPassword) else []
  }

  /** The submit button's `disabled` attribute. */
  function SubmitDisabled(isLoading: bool, newPassword: string, confirmPassword: string): (disabled: bool)
    ensures isLoading || newPassword != confirmPassword ==> disabled
    ensures !isLoading && newPassword == "" && confirmPassword == "" ==> !disabled
  {
    isLoading || |DisplayedErrors(newPassword)| > 0 || newPassword != confirmPassword
  }

  /** The button is enabled exactly when nothing is loading, the two new
      fields agree, and the new password is empty or strong; with every field
      empty it is enabled and the submit checks catch it. */
  lemma SubmitEnabledIff(isLoading: bool, newPassword: string, confirmPassword: string)
    ensures !SubmitDisabled(isLoading, newPassword, confirmPassword) <==>
      !isLoading && newPassword == confirmPassword && (newPassword == "" || IsStrong(newPassword))
    ensures !SubmitDisabled(false, "", "")
  {
    if newPassword != "" {
      NoErrorsIffStrong(newPassword);
    }
  }

  /** The first failing check of `handleSubmit`, in source order, or None
      when the change may be sent. */
  function SubmitCheck(oldPassword: string, newPassword: string, confirmPassword: string): (rejection: Option<string>)
    ensures rejection.None? ==>
      newPassword == confirmPassword && oldPassword != newPassword && PasswordErrors(newPassword) == []
    ensures oldPassword == "" ==> rejection == Some(OldRequired)
  {
    if Trim(oldPassword) == "" then Some(OldRequired)
    else if Trim(newPassword) == "" then Some(NewRequired)
    else if newPassword != confirmPassword then Some(Mismatch)
    else if |PasswordErrors(newPassword)| > 0 then Some(InvalidPrefix + PasswordErrors(newPassword)[0])
    else if oldPassword == newPassword then Some(SamePassword)
    else None
  }

  /** A change is sent exactly when both passwords are filled in, the
      confirmation agrees, the new password is strong and differs from the
      current one; the blank checks come first, in field order. */
  lemma SubmitCheckMeaning(oldPassword: string, newPassword: string, confirmPassword: string)
    ensures SubmitCheck(oldPassword, newPassword, confirmPassword).None? <==>
      !IsBlank(oldPassword) && !IsBlank(newPassword) && newPassword == confirmPassword &&
      IsStrong(newPassword) && oldPassword != newPassword
    ensures IsBlank(oldPassword) ==> SubmitCheck(oldPassword, newPassword, confirmPassword) == Some(OldRequired)
    ensures !IsBlank(oldPassword) && IsBlank(newPassword) ==>
      SubmitCheck(oldPassword, newPassword, confirmPassword) == Some(NewRequired)
  {
    TrimEmptyIffBlank(oldPassword);
    TrimEmptyIffBlank(newPassword);
    NoErrorsIffStrong(newPassword);
  }

  /** The guard chain at the top of `handleSubmit`: the message of the first
      failing check, computed the way the handler does. */
  method CheckSubmission(oldPassword: string, newPassword: string, confirmPassword: string)
    returns (rejection: Option<string>)
    ensures rejection == SubmitCheck(oldPassword, newPassword, confirmPassword)
  {
    if Trim(oldPassword) == "" {
      return Some(OldRequired);
    }
    if Trim(newPassword) == "" {
      return Some(NewRequired);
    }
    if newPassword != confirmPassword {
      return Some(Mismatch);
    }
    var passwordErrors := ValidatePassword(newPassword);
    if |passwordErrors| > 0 {
      return Some(InvalidPrefix + passwordErrors[0]);
    }
    if oldPassword == newPassword {
      return Some(SamePassword);
    }
    rejection := None;
  }

  /** The toast for a failed change: the error's own message, or the fixed
      fallback when it has none. */
  function FailureToast(e: Thrown): (t: Toast)
    ensures t.ErrorToast? && t.text != ""
    ensures e.message != "" ==> t.text == e.message
  {
    ErrorToast(if e.message != "" then e.message else ChangeFallback)
  }

  class ChangePasswordPage {
    var oldPassword: string
    var newPassword: string
    var confirmPassword: string
    var isLoading: bool
    var toasts: seq<Toast>
    var navigations: seq<string>
    /** The (old, new) pairs passed to `changePassword`. */
    var changeCalls: seq<(string, string)>

    constructor()
      ensures oldPassword == "" && newPassword == "" && confirmPassword == ""
      ensures !isLoading && toasts == [] && navigations == [] && changeCalls == []
    {
      oldPassword, newPassword, confirmPassword := "", "", "";
      isLoading := false;
      toasts, navigations, changeCalls := [], [], [];
    }

    /** `handleSubmit`: the first failing check is reported and nothing is
        sent; otherwise the change is sent (`failure` is None when it
        succeeds), a success goes to '/companies', and loading is over on
        both outcomes. */
    method HandleSubmit(failure: Option<Thrown>)
      modifies `isLoading, `toasts, `navigations, `changeCalls
      ensures old(SubmitCheck(oldPassword, newPassword, confirmPassword)).Some? ==>
        && toasts == old(toasts) + [ErrorToast(old(SubmitCheck(oldPassword, newPassword, confirmPassword)).value)]
        && changeCalls == old(changeCalls) && navigations == old(navigations) && isLoading == old(isLoading)
      ensures old(SubmitCheck(oldPassword, newPassword, confirmPassword)).None? ==>
        && changeCalls == old(changeCalls) + [(oldPassword, newPassword)] && !isLoading
        && (failure.None? ==> toasts == old(toasts) + [SuccessToast(Changed)] && navigations == old(navigations) + ["/companies"])
        && (failure.Some? ==> toasts == old(toasts) + [FailureToast(failure.value)] && navigations == old(navigations))
    {
      var current, next, confirmation := oldPassword, newPassword, confirmPassword;
      var rejection := CheckSubmission(current, next, confirmation);
      if rejection.Some? {
        Reject(rejection.value);
      } else {
        SendChange(failure);
      }
    }

    /** A refused submission: its message is shown and nothing else
        changes. */
    method Reject(message: string)
      modifies `toasts
      ensures toasts == old(toasts) + [ErrorToast(message)]
    {
      toasts := toasts + [ErrorToast(message)];
    }

    /** The `try` block of `handleSubmit`: the change is sent with the
        current and new passwords; a success is announced and leads to
        '/companies', a failure is announced; loading is over either way. */
    method SendChange(failure: Option<Thrown>)
      modifies `isLoading, `toasts, `navigations, `changeCalls
      ensures changeCalls == old(changeCalls) + [(oldPassword, newPassword)] && !isLoading
      ensures failure.None? ==> toasts == old(toasts) + [SuccessToast(Changed)] && navigations == old(navigations) + ["/companies"]
      ensures failure.Some? ==> toasts == old(toasts) + [FailureToast(failure.value)] && navigations == old(navigations)
    {
      isLoading := true;
      changeCalls := changeCalls + [(oldPassword, newPassword)];
      match failure {
        case None =>
          toasts := toasts + [SuccessToast(Changed)];
          navigations := navigations + ["/companies"];
        case Some(e) =>
          toasts := toasts + [FailureToast(e)];
      }
      isLoading := false;
    }
  }
}
