/**
 * The matches page: when it fetches, when it asks the user to complete
 * their profile, which view it shows, and how one match card is filled in.
 */
module Dashboard {
  import opened Wrappers
  import opened Js
  import opened Users
  import opened Outcomes

  /** The page's effect asks for matches only when there is a user whose location is set. */
  predicate ShouldFetch(user: Option<User>)
  {
    user.Some? && Truthy(user.value.location)
  }

  /** The "complete your profile" prompt replaces the page unless the user has a location and a complete profile. */
  predicate NeedsCompletion(user: Option<User>)
  {
    !(user.Some? && Truthy(user.value.location)) || !(user.Some? && TruthyFlag(user.value.isProfileComplete))
  }

  /** The fetch gate is weaker than the render gate: whenever cards can be shown, the effect fetched. */
  lemma CompleteProfileWasFetched(user: Option<User>)
    ensures !NeedsCompletion(user) ==> ShouldFetch(user)
    ensures ShouldFetch(user) && user.value.isProfileComplete != Some(true) ==> NeedsCompletion(user)
  {
  }

  /** A user with a location but an incomplete profile triggers a fetch and still sees the prompt. */
  lemma FetchWithoutCards(u: User)
    requires Truthy(u.location) && !TruthyFlag(u.isProfileComplete)
    ensures ShouldFetch(Some(u)) && NeedsCompletion(Some(u))
  {
  }

  datatype Avatar = Photo(url: string) | Initial(letter: string)

  /** One match card. Plain text properties are rendered as they are. */
  datatype Card = Card(
    avatar: Avatar,
    name: string,
    gender: string,
    apartmentBadge: bool,
    lookingBadge: bool,
    location: string,
    budget: string,
    nonSmokerStyle: bool,
    smoking: string,
    cleanliness: string,
    foodPreference: string,
    sleepSchedule: string,
    bio: string)

  const UploadsPrefix: string := "http://localhost:5000/uploads/"

  function CardOf(m: User): (c: Card)
    ensures Truthy(m.profileImage) ==> c.avatar == Photo(UploadsPrefix + m.profileImage.value)
    ensures !Truthy(m.profileImage) && Truthy(m.name) ==> c.avatar == Initial([m.name.value[0]])
    ensures !Truthy(m.profileImage) && !Truthy(m.name) ==> c.avatar == Initial("?")
    ensures c.avatar.Initial? ==> |c.avatar.letter| == 1
    ensures c.apartmentBadge <==> m.hasApartment == Some("yes")
    ensures c.lookingBadge <==> m.isLookingForRoommate == Some("yes")
    ensures c.nonSmokerStyle <==> m.smoking == Some("non-smoker")
    ensures c.bio == (if Truthy(m.bio) then m.bio.value else "No bio provided.")
    ensures c.name == Shown(m.name) && c.gender == Shown(m.gender)
    ensures c.location == Shown(m.location) && c.budget == Shown(m.budget)
    ensures c.smoking == Shown(m.smoking) && c.cleanliness == Shown(m.cleanliness)
    ensures c.foodPreference == Shown(m.foodPreference) && c.sleepSchedule == Shown(m.sleepSchedule)
  {
    Card(
      if Truthy(m.profileImage) then Photo(UploadsPrefix + m.profileImage.value)
      else Initial(if Truthy(m.name) then [m.name.value[0]] else "?"),
      Shown(m.name),
      Shown(m.gender),
      m.hasApartment == Some("yes"),
      m.isLookingForRoommate == Some("yes"),
      Shown(m.location),
      Shown(m.budget),
      m.smoking == Some("non-smoker"),
      Shown(m.smoking),
      Shown(m.cleanliness),
      Shown(m.foodPreference),
      Shown(m.sleepSchedule),
      Or(m.bio, "No bio provided."))
  }

  datatype View = CompleteProfilePrompt | Spinner | NoMatches | Cards(cards: seq<Card>)

  function ViewOf(user: Option<User>, loading: bool, matches: seq<User>): (v: View)
    ensures v == CompleteProfilePrompt <==> NeedsCompletion(user)
    ensures v == Spinner <==> !NeedsCompletion(user) && loading
    ensures v == NoMatches <==> !NeedsCompletion(user) && !loading && matches == []
    ensures v.Cards? <==> !NeedsCompletion(user) && !loading && matches != []
    ensures v.Cards? ==> |v.cards| == |matches|
    ensures v.Cards? ==> forall i :: 0 <= i < |matches| ==> v.cards[i] == CardOf(matches[i])
  {
    if NeedsCompletion(user) then CompleteProfilePrompt
    else if loading then Spinner
    else if |matches| == 0 then NoMatches
    else Cards(seq(|matches|, i requires 0 <= i < |matches| => CardOf(matches[i])))
  }

  /** The `matches` and `loading` cells of the page. */
  class MatchesState {
    var matches: seq<User>
    var loading: bool

    constructor ()
      ensures matches == [] && loading
    {
      matches := [];
      loading := true;
    }

    /**
     * The effect run for `user`. It returns whether `getMatches` was called;
     * `reply` is what that call gives and is ignored when no call is made.
     */
    method Refresh(user: Option<User>, reply: Reply<Envelope<seq<User>>>) returns (fetched: bool)
      modifies this
      ensures fetched == ShouldFetch(user)
      ensures !loading
      ensures matches == if fetched && reply.Ok? then Unwrap(reply.body) else old(matches)
    {
      if user.Some? && Truthy(user.value.location) {
        fetched := true;
        if reply.Ok? {
          matches := Unwrap(reply.body);
        }
        loading := false;
      } else {
        fetched := false;
        loading := false;
      }
    }
  }
}
