/** The three authorization gates side by side: the security hook's ladder
    (PermissionDenial), the protected route's exact-match-or-administrator
    test (PermissionAdmits, RoleAdmits) and the layout's per-path table
    (HasPageAccess). These lemmas state where they agree and where they do
    not. */
module Gates {
  import opened Common
  import opened Session
  import opened SecurityCheck
  import opened ProtectedRoute
  import opened ConditionalLayout

  /** For a present permission the protected route admits a requirement
      exactly when the ladder does, except that it denies a write permission
      a read requirement. */
  lemma ExactMatchVersusLadder(p: Permission, required: Permission)
    ensures PermissionAdmits(Some(p), Some(required)) <==>
      PermissionDenial(Some(p), required).None? && !(p == Write && required == Read)
  {
  }

  /** The disagreement on concrete values: a signed-in employee (write
      permission) is shown 'access denied' by a route that requires 'read',
      while the ladder and the layout both let the same user through; and a
      route that requires the client role turns the employee away too. */
  lemma WriteUserDeniedRead()
    ensures Render(false, true, Some(Employee), Some(Write), None, Some(Read), None) == PermissionDenied(Read, Some(Write))
    ensures PermissionDenial(Some(Write), Read).None?
    ensures HasPageAccess(true, Some(Employee), Some(Write), "/upload")
    ensures Render(false, true, Some(Employee), Some(Write), Some(Client), None, None) == RoleDenied(Client, Some(Employee))
  {
    assert "/upload" in WritePages;
  }

  /** For a user whose permission follows from their role (as the session
      context guarantees), the layout's write pages admit exactly the users
      the ladder admits for 'write', and '/admin' exactly those it admits for
      'admin'. */
  lemma TableMatchesLadder(role: Role, path: string)
    ensures path in WritePages ==>
      (HasPageAccess(true, Some(role), Some(PermissionOf(role)), path) <==>
       PermissionDenial(Some(PermissionOf(role)), Write).None?)
    ensures path == "/admin" ==>
      (HasPageAccess(true, Some(role), Some(PermissionOf(role)), path) <==>
       PermissionDenial(Some(PermissionOf(role)), Permission.Admin).None?)
  {
  }

  /** The layout's '/admin' row and a protected route requiring the
      administrator permission admit the same users. */
  lemma AdminRowMatchesRoute(role: Role)
    ensures HasPageAccess(true, Some(role), Some(PermissionOf(role)), "/admin") <==>
      Render(false, true, Some(role), Some(PermissionOf(role)), None, Some(Permission.Admin), None) == Children
  {
    assert "/admin" !in WritePages;
  }

  /** For the write pages the layout and a protected route requiring 'write'
      disagree on nothing for consistent users either: both admit exactly
      employees and administrators. */
  lemma WriteRowMatchesRoute(role: Role)
    ensures HasPageAccess(true, Some(role), Some(PermissionOf(role)), "/upload") <==>
      Render(false, true, Some(role), Some(PermissionOf(role)), None, Some(Write), None) == Children
  {
    assert "/upload" in WritePages;
  }
}
