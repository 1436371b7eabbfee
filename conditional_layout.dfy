/** The layout around every page (components/ConditionalLayout.tsx): the
    per-path access table, whether the sidebar is shown, and the page title. */
module ConditionalLayout {
  import opened Common
  import opened Session

  const AnyUserPages: seq<string> := ["/companies", "/dashboard", "/reports"]
  const WritePages: seq<string> := ["/upload", "/history"]

  /** The header title of each known path. */
  const Titles: map<string, string> := map[
    "/dashboard" := "Dashboard",
    "/upload" := "Upload",
    "/history" := "Histórico",
    "/notifications" := "Notificações",
    "/reports" := "Relatórios",
    "/admin" := "Administração",
    "/" := "Configuração Geral",
    "/companies" := "Selecionar Empresa",
    "/login" := "Login"]

  /** `hasPageAccess`: a visitor may only see '/login'; an administrator role
      sees everything; '/upload' and '/history' need write or administrator
      permission, '/admin' the administrator permission; every other path is
      open to a signed-in user. */
  function HasPageAccess(isAuthenticated: bool, userRole: Option<Role>, userPermission: Option<Permission>, path: string): (ok: bool)
    ensures !isAuthenticated ==> (ok <==> path == "/login")
    ensures isAuthenticated && userRole == Some(Role.Admin) ==> ok
    ensures isAuthenticated && path in AnyUserPages ==> ok
    ensures isAuthenticated && path !in WritePages && path != "/admin" ==> ok
    ensures isAuthenticated && userRole != Some(Role.Admin) && path in WritePages ==>
      (ok <==> userPermission == Some(Write) || userPermission == Some(Permission.Admin))
    ensures isAuthenticated && userRole != Some(Role.Admin) && path == "/admin" ==>
      (ok <==> userPermission == Some(Permission.Admin))
  {
    if !isAuthenticated then path == "/login"
    else if userRole == Some(Role.Admin) then true
    else if path in AnyUserPages then true
    else if path in WritePages then userPermission == Some(Write) || userPermission == Some(Permission.Admin)
    else if path == "/admin" then userPermission == Some(Permission.Admin)
    else true
  }

  /** `shouldShowSidebar`: a signed-in user away from '/login' and
      '/companies'. */
  function ShouldShowSidebar(path: string, isAuthenticated: bool): (show: bool)
    ensures show <==> isAuthenticated && path != "/login" && path != "/companies"
  {
    !(path in ["/login", "/companies"]) && isAuthenticated
  }

  /** `getPageTitle`: the mapped title, or 'Sistema' for any other path. */
  function PageTitle(path: string): (t: string)
    ensures path in Titles ==> t == Titles[path]
    ensures path !in Titles ==> t == "Sistema"
  {
    if path in Titles then Titles[path] else "Sistema"
  }

  /** No mapped title is 'Sistema' or empty, so the fallback title appears
      exactly on the unmapped paths. */
  lemma PageTitleFallbackIff(path: string)
    ensures PageTitle(path) != ""
    ensures PageTitle(path) == "Sistema" <==> path !in Titles
  {
    if path in Titles {
      assert path == "/dashboard" || path == "/upload" || path == "/history" || path == "/notifications" ||
             path == "/reports" || path == "/admin" || path == "/" || path == "/companies" || path == "/login";
    }
  }

  /** What the layout renders around a page. */
  datatype Frame = AccessDenied | Bare | WithSidebar(title: string)

  /** The layout's render: the access check first, then the sidebar choice. */
  function Layout(isAuthenticated: bool, userRole: Option<Role>, userPermission: Option<Permission>, path: string): (f: Frame)
    ensures f == AccessDenied <==> !HasPageAccess(isAuthenticated, userRole, userPermission, path)
    ensures f.WithSidebar? <==>
      HasPageAccess(isAuthenticated, userRole, userPermission, path) && ShouldShowSidebar(path, isAuthenticated)
    ensures f.WithSidebar? ==> f.title == PageTitle(path)
  {
    if !HasPageAccess(isAuthenticated, userRole, userPermission, path) then AccessDenied
    else if !ShouldShowSidebar(path, isAuthenticated) then Bare
    else WithSidebar(PageTitle(path))
  }

  /** A visitor sees the login page without a sidebar and every other page
      denied; no signed-in user ever sees the sidebar on '/login' or
      '/companies'. */
  lemma VisitorFrames(userRole: Option<Role>, userPermission: Option<Permission>, path: string)
    ensures Layout(false, userRole, userPermission, path) == (if path == "/login" then Bare else AccessDenied)
    ensures !Layout(true, userRole, userPermission, "/login").WithSidebar?
    ensures !Layout(true, userRole, userPermission, "/companies").WithSidebar?
  {
  }
}
