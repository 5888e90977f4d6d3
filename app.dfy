/**
 * The two route guards and the route table of the application shell.
 * The session store behind `useAuth()` is not part of this model: a guard
 * sees only the snapshot `{ user, loading }` it returns.
 */
module App {
  import opened Wrappers
  import opened Users

  /** The snapshot `useAuth()` returns. */
  datatype Session = Session(user: Option<User>, loading: bool)

  /** What a guard renders: the spinner, its children, or `<Navigate to=.../>`. */
  datatype Decision = Placeholder | Children | Redirect(to: string)

  /** `PrivateRoute`: any signed-in user may pass. */
  function PrivateRoute(s: Session): (d: Decision)
    ensures s.loading ==> d == Placeholder
    ensures !s.loading ==> (d == Children <==> s.user.Some?)
    ensures !s.loading && s.user.None? ==> d == Redirect("/login")
  {
    if s.loading then Placeholder
    else if s.user.Some? then Children
    else Redirect("/login")
  }

  /**
   * `AdminRoute`: only a user whose role is exactly "admin" may pass. Everyone
   * else, an anonymous visitor included, is sent to "/" (not to "/login").
   */
  function AdminRoute(s: Session): (d: Decision)
    ensures s.loading ==> d == Placeholder
    ensures !s.loading ==> (d == Children <==> s.user.Some? && s.user.value.role == Some("admin"))
    ensures !s.loading && d != Children ==> d == Redirect("/")
  {
    if s.loading then Placeholder
    else if IsAdminUser(s.user) then Children
    else Redirect("/")
  }

  /** Whatever the user, both guards wait while the session is still being determined. */
  lemma GuardsWaitWhileLoading(u: Option<User>)
    ensures PrivateRoute(Session(u, true)) == Placeholder
    ensures AdminRoute(Session(u, true)) == Placeholder
  {
  }

  /** The admin guard is stricter than the private guard: whoever it admits, the private guard admits too. */
  lemma AdminImpliesPrivate(s: Session)
    ensures AdminRoute(s) == Children ==> PrivateRoute(s) == Children
    ensures PrivateRoute(s) == Placeholder <==> AdminRoute(s) == Placeholder
  {
  }

  /** A missing role, or any role other than exactly "admin", is denied: there is no privilege by default. */
  lemma NoPrivilegeByDefault(u: User)
    requires u.role != Some("admin")
    ensures AdminRoute(Session(Some(u), false)) == Redirect("/")
    ensures PrivateRoute(Session(Some(u), false)) == Children
  {
  }

  /** An anonymous visitor at an admin route lands on "/", while a private route sends them to "/login". */
  lemma AnonymousRedirects()
    ensures AdminRoute(Session(None, false)) == Redirect("/")
    ensures PrivateRoute(Session(None, false)) == Redirect("/login")
  {
  }

  datatype Page =
    | HomePage | LoginPage | RegisterPage | ProfileSetupPage | DashboardPage
    | AdminDashboardPage | ProfilePage

  datatype Guard = Public | Private | AdminOnly

  datatype Route = Route(path: string, guard: Guard, page: Page)

  /** The address each page is mounted at. */
  function PathOf(p: Page): string
  {
    match p
    case HomePage => "/"
    case LoginPage => "/login"
    case RegisterPage => "/register"
    case ProfileSetupPage => "/setup"
    case DashboardPage => "/matches"
    case ProfilePage => "/profile"
    case AdminDashboardPage => "/admin"
  }

  /** The `<Routes>` table: the route declared for exactly this path, if any. */
  function Lookup(path: string): (r: Option<Route>)
    ensures r.Some? ==> r.value.path == path
    ensures r.Some? ==> PathOf(r.value.page) == path
  {
    if path == "/" then Some(Route("/", Public, HomePage))
    else if path == "/login" then Some(Route("/login", Public, LoginPage))
    else if path == "/register" then Some(Route("/register", Public, RegisterPage))
    else if path == "/setup" then Some(Route("/setup", Private, ProfileSetupPage))
    else if path == "/matches" then Some(Route("/matches", Private, DashboardPage))
    else if path == "/profile" then Some(Route("/profile", Private, ProfilePage))
    else if path == "/admin" then Some(Route("/admin", AdminOnly, AdminDashboardPage))
    else None
  }

  /** Which guard protects each path: three private pages, one admin page, three public pages, nothing else. */
  function GuardOf(path: string): (g: Option<Guard>)
    ensures g == Some(Private) <==> path == "/setup" || path == "/matches" || path == "/profile"
    ensures g == Some(AdminOnly) <==> path == "/admin"
    ensures g == Some(Public) <==> path == "/" || path == "/login" || path == "/register"
  {
    var r := Lookup(path);
    if r.Some? then Some(r.value.guard) else None
  }

  /** What the router shows at a path. */
  datatype Screen = NoMatch | Spinner | Show(page: Page) | Go(to: string)

  function Guarded(g: Guard, s: Session, p: Page): Screen
  {
    var d := match g
      case Public => Children
      case Private => PrivateRoute(s)
      case AdminOnly => AdminRoute(s);
    match d
    case Placeholder => Spinner
    case Children => Show(p)
    case Redirect(to) => Go(to)
  }

  function Render(path: string, s: Session): (sc: Screen)
    ensures sc == NoMatch <==> GuardOf(path).None?
    ensures sc.Show? ==> Lookup(path) == Some(Route(path, Lookup(path).value.guard, sc.page))
    ensures sc.Spinner? ==> s.loading
    ensures GuardOf(path) == Some(Public) ==> sc == Show(Lookup(path).value.page)
    ensures GuardOf(path).Some? && GuardOf(path) != Some(Public) && s.loading ==> sc == Spinner
    ensures GuardOf(path) == Some(Private) && !s.loading ==>
              sc == (if s.user.Some? then Show(Lookup(path).value.page) else Go("/login"))
    ensures GuardOf(path) == Some(AdminOnly) && !s.loading ==>
              sc == (if IsAdminUser(s.user) then Show(Lookup(path).value.page) else Go("/"))
  {
    match Lookup(path)
    case None => NoMatch
    case Some(r) => Guarded(r.guard, s, r.page)
  }

  /** Once the session is known, a signed-out visitor sees a page only at a public path. */
  lemma AnonymousSeesOnlyPublicPages(path: string)
    ensures Render(path, Session(None, false)).Show? <==> GuardOf(path) == Some(Public)
  {
    var g := GuardOf(path);
    match Lookup(path)
    case None =>
    case Some(r) =>
      assert g == Some(r.guard);
      assert r.guard != Public ==> !Guarded(r.guard, Session(None, false), r.page).Show?;
  }
}
