/**
 * The navigation bar: which links it shows for a pathname and a user, and
 * what its two handlers do.
 */
module Navbar {
  import opened Wrappers
  import opened Users
  import opened Outcomes
  import App
  import Home

  datatype Item = HomeLink | AboutLink | MatchesLink | ProfileLink | DashboardLink | LoginLink | LogoutButton

  /** The `to` of each `<Link>`; the "About" anchor and the logout button are handled by click handlers. */
  function Target(i: Item): Option<string>
  {
    match i
    case HomeLink => Some("/")
    case MatchesLink => Some("/matches")
    case ProfileLink => Some("/profile")
    case DashboardLink => Some("/admin")
    case LoginLink => Some("/login")
    case AboutLink => None
    case LogoutButton => None
  }

  predicate IsAuthPage(pathname: string)
  {
    pathname == "/login" || pathname == "/register"
  }

  /** The menu items rendered, left to right, after the logo link to "/" that every page shows. */
  function Menu(pathname: string, user: Option<User>): (items: seq<Item>)
    ensures IsAuthPage(pathname) ==> items == []
    ensures HomeLink in items <==> !IsAuthPage(pathname)
    ensures AboutLink in items <==> !IsAuthPage(pathname) && !IsAdminUser(user)
    ensures MatchesLink in items <==> !IsAuthPage(pathname) && user.Some? && !IsAdmin(user.value)
    ensures ProfileLink in items <==> !IsAuthPage(pathname) && user.Some?
    ensures DashboardLink in items <==> !IsAuthPage(pathname) && IsAdminUser(user)
    ensures LoginLink in items <==> !IsAuthPage(pathname) && user.None?
    ensures LogoutButton in items <==> !IsAuthPage(pathname) && user.Some?
    ensures forall i, j :: 0 <= i < j < |items| ==> items[i] != items[j]
  {
    if IsAuthPage(pathname) then []
    else match user
      case Some(u) =>
        (if IsAdmin(u)
         then [HomeLink, ProfileLink, DashboardLink]
         else [HomeLink, AboutLink, MatchesLink, ProfileLink])
        + [LogoutButton]
      case None => [HomeLink, AboutLink, LoginLink]
  }

  /** `handleLogout`: the session is cleared first, then the router goes to "/login". */
  function HandleLogout(): (effects: seq<Effect>)
    ensures |effects| == 2 && effects[0] == CallLogout && effects[1].Navigate?
    ensures forall e :: e in effects && e.Navigate? ==> e.to == "/login"
  {
    [CallLogout, Navigate("/login", None)]
  }

  /** `handleAboutClick`: scroll in place on "/", otherwise go to "/" asking it to scroll. */
  function HandleAboutClick(pathname: string): (effects: seq<Effect>)
    ensures pathname == "/" ==> effects == [ScrollToAbout]
    ensures pathname != "/" ==> effects == [Navigate("/", Some(NavState(Some(true))))]
  {
    if pathname == "/" then [ScrollToAbout]
    else [Navigate("/", Some(NavState(Some(true))))]
  }

  /** From any page, clicking "About" ends in a scroll to the about section: directly, or by the landing page's effect. */
  lemma AboutClickScrolls(pathname: string)
    ensures var e := HandleAboutClick(pathname);
            e == [ScrollToAbout]
            || (e[0].Navigate? && e[0].to == "/" && Home.MountEffects(e[0].state) == [ScrollToAbout])
  {
  }

  /**
   * Every link the bar offers leads to a page the router shows for the same
   * settled session: no link is a dead end or an immediate redirect.
   */
  lemma {:induction false} MenuLinksAreAdmitted(pathname: string, user: Option<User>, i: Item)
    requires i in Menu(pathname, user) && Target(i).Some?
    ensures App.Render(Target(i).value, App.Session(user, false)).Show?
  {
    match i
    case HomeLink =>
    case LoginLink =>
    case MatchesLink =>
      assert user.Some?;
    case ProfileLink =>
      assert user.Some?;
    case DashboardLink =>
      assert IsAdminUser(user);
  }

  /** The same holds for the landing page's call to action. */
  lemma {:induction false} CtaIsAdmitted(user: Option<User>)
    ensures App.Render(Home.CtaTarget(user), App.Session(user, false)).Show?
  {
  }
}
