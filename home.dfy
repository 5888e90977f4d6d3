/** The landing page: which call to action the hero offers, and when the "about" scroll is scheduled. */
module Home {
  import opened Wrappers
  import opened Users
  import opened Outcomes

  /** The target of the hero's call to action. */
  function CtaTarget(user: Option<User>): (to: string)
    ensures user.None? ==> to == "/register"
    ensures user.Some? && IsAdmin(user.value) ==> to == "/admin"
    ensures user.Some? && !IsAdmin(user.value) ==> to == "/matches"
  {
    match user
    case None => "/register"
    case Some(u) => if IsAdmin(u) then "/admin" else "/matches"
  }

  /** The mount effect scrolls to the about section only when the navigation state asks for it. */
  function MountEffects(state: Option<NavState>): (effects: seq<Effect>)
    ensures effects == [ScrollToAbout] <==> state.Some? && state.value.scrollToAbout == Some(true)
    ensures effects != [ScrollToAbout] ==> effects == []
  {
    if state.Some? && state.value.scrollToAbout == Some(true) then [ScrollToAbout] else []
  }
}
