/** The read-only profile page: what it shows for the session's user. */
module Profile {
  import opened Wrappers
  import opened Js
  import opened Users

  const UploadsPrefix: string := "http://localhost:5000/uploads/"

  /** The uploaded picture's address, when the user has one. */
  function ImageUrl(u: User): (url: Option<string>)
    ensures url.Some? <==> Truthy(u.profileImage)
    ensures url.Some? ==> url.value == UploadsPrefix + u.profileImage.value
  {
    if Truthy(u.profileImage) then Some(UploadsPrefix + u.profileImage.value) else None
  }

  /** The sleep schedule with its first hyphen turned into a space, or "Flexible" when there is none. */
  function SleepLabel(sleep: Option<string>): (text: string)
    ensures !Truthy(sleep) ==> text == "Flexible"
    ensures Truthy(sleep) ==> text == ReplaceFirst(sleep.value, '-', ' ')
    ensures text != ""
  {
    match sleep
    case None => "Flexible"
    case Some(s) => var r := ReplaceFirst(s, '-', ' '); if r != "" then r else "Flexible"
  }

  /** A hyphenated value such as "early-bird" reads with a space in place of its first hyphen. */
  lemma {:induction false} SleepLabelReplacesFirstHyphen(w1: string, w2: string)
    requires '-' !in w1
    ensures SleepLabel(Some(w1 + "-" + w2)) == w1 + " " + w2
  {
    var s := w1 + "-" + w2;
    IndexOfAfterPrefix(w1, '-', w2);
    ReplaceFirstSplits(s, '-', ' ');
    assert s[..|w1|] == w1 && s[|w1| + 1..] == w2;
  }

  /** Only the first hyphen is replaced; an empty value reads "Flexible". */
  lemma SleepLabelExamples()
    ensures SleepLabel(Some("a-b-c")) == "a b-c"
    ensures SleepLabel(Some("")) == "Flexible"
  {
    assert ReplaceFirst("a-b-c", '-', ' ') == "a b-c";
  }

  /** The preferences and lifestyle section, shown to non-admin users only. */
  datatype Preferences = Preferences(
    lookingBadge: bool,
    apartmentBadge: bool,
    location: string,
    budget: string,
    food: string,
    sleep: string,
    smoking: string,
    cleanliness: string,
    gender: string,
    bio: string)

  datatype ProfileView =
    | LoadingPlaceholder
    | Details(imageUrl: Option<string>, letter: Option<string>, displayName: string, email: string,
            adminBadge: bool, preferences: Option<Preferences>)

  function PreferencesOf(u: User): (p: Preferences)
    ensures p.lookingBadge <==> u.isLookingForRoommate == Some("yes")
    ensures p.apartmentBadge <==> u.hasApartment == Some("yes")
    ensures p.location == (if Truthy(u.location) then u.location.value else "N/A")
    ensures p.budget == (if Truthy(u.budget) then u.budget.value else "N/A")
    ensures p.food == (if Truthy(u.foodPreference) then u.foodPreference.value else "Any")
    ensures p.sleep == SleepLabel(u.sleepSchedule)
    ensures p.bio == (if Truthy(u.bio) then u.bio.value else "No bio added yet.")
    ensures p.smoking == (if Truthy(u.smoking) then u.smoking.value else "N/A")
    ensures p.cleanliness == (if Truthy(u.cleanliness) then u.cleanliness.value else "N/A")
    ensures p.gender == (if Truthy(u.gender) then u.gender.value else "N/A")
  {
    Preferences(
      u.isLookingForRoommate == Some("yes"),
      u.hasApartment == Some("yes"),
      Or(u.location, "N/A"),
      Or(u.budget, "N/A"),
      Or(u.foodPreference, "Any"),
      SleepLabel(u.sleepSchedule),
      Or(u.smoking, "N/A"),
      Or(u.cleanliness, "N/A"),
      Or(u.gender, "N/A"),
      Or(u.bio, "No bio added yet."))
  }

  function View(user: Option<User>): (v: ProfileView)
    ensures v == LoadingPlaceholder <==> user.None?
    ensures v.Details? ==> v.imageUrl == ImageUrl(user.value)
    ensures v.Details? ==> (v.letter.Some? <==> v.imageUrl.None?)
    ensures v.Details? && v.letter.Some? ==> v.letter.value == UpperInitial(user.value.username)
    ensures v.Details? ==> v.email == Js.Shown(user.value.email)
    ensures v.Details? ==> v.displayName == (if Truthy(user.value.name) then user.value.name.value else Js.Shown(user.value.username))
    ensures v.Details? ==> (v.adminBadge <==> IsAdmin(user.value))
    ensures v.Details? ==> (v.preferences.None? <==> IsAdmin(user.value))
    ensures v.Details? && v.preferences.Some? ==> v.preferences.value == PreferencesOf(user.value)
  {
    match user
    case None => LoadingPlaceholder
    case Some(u) =>
      Details(ImageUrl(u),
            if ImageUrl(u).None? then Some(UpperInitial(u.username)) else None,
            if Truthy(u.name) then u.name.value else Js.Shown(u.username),
            Js.Shown(u.email),
            IsAdmin(u),
            if !IsAdmin(u) then Some(PreferencesOf(u)) else None)
  }
}
