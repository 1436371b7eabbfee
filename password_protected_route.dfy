/** The password-protected route (components/PasswordProtectedRoute.tsx): it
    holds back its children while a password change is pending and sends a
    signed-in user to the change form. `requiresPasswordChange` is read from
    the session context, which does not define it; it is an input here. */
module PasswordProtectedRoute {
  import opened Common

  /** What one render does: the effect's navigation and whether the children
      are rendered (otherwise nothing is). */
  datatype Outcome = Outcome(navigateTo: Option<string>, rendersChildren: bool)

  function Decide(isAuthenticated: bool, requiresPasswordChange: bool): (o: Outcome)
    ensures o.navigateTo.Some? <==> isAuthenticated && requiresPasswordChange
    ensures o.navigateTo.Some? ==> o.navigateTo.value == "/change-password"
    ensures o.rendersChildren <==> !requiresPasswordChange
  {
    var navigateTo := if isAuthenticated && requiresPasswordChange then Some("/change-password") else None;
    if requiresPasswordChange then Outcome(navigateTo, false) else Outcome(navigateTo, true)
  }

  /** Whenever a navigation happens the children are held back, and an
      unauthenticated visitor with the flag set gets neither. */
  lemma NavigationHidesChildren(isAuthenticated: bool, requiresPasswordChange: bool)
    ensures Decide(isAuthenticated, requiresPasswordChange).navigateTo.Some? ==>
      !Decide(isAuthenticated, requiresPasswordChange).rendersChildren
    ensures !isAuthenticated && requiresPasswordChange ==>
      Decide(isAuthenticated, requiresPasswordChange) == Outcome(None, false)
  {
  }
}
