/** The admin's user table: loading it, removing a user from it, and rendering one row. */
module AdminDashboard {
  import opened Wrappers
  import opened Js
  import opened Users
  import opened Outcomes

  const BaseUrl: string := "https://sharespace-backend-xh5c.onrender.com"

  /** The list without the entries whose id is `userId`. */
  function Without(users: seq<User>, userId: Option<string>): (r: seq<User>)
    ensures |r| <= |users|
  {
    if users == [] then []
    else (if users[0].id != userId then [users[0]] else []) + Without(users[1..], userId)
  }

  /** `a` is `b` with some entries dropped and the rest in their original order. */
  ghost predicate IsSubsequence(a: seq<User>, b: seq<User>)
    decreases |b|
  {
    if a == [] then true
    else if b == [] then false
    else (a[0] == b[0] && IsSubsequence(a[1..], b[1..])) || IsSubsequence(a, b[1..])
  }

  /** No entry with the deleted id is left. */
  lemma {:induction false} WithoutRemovesId(users: seq<User>, userId: Option<string>)
    ensures forall u :: u in Without(users, userId) ==> u.id != userId
  {
    if users != [] {
      WithoutRemovesId(users[1..], userId);
    }
  }

  /** Every other entry stays, as often as it was there. */
  lemma {:induction false} WithoutKeepsOthers(users: seq<User>, userId: Option<string>)
    ensures forall u :: multiset(Without(users, userId))[u] == if u.id == userId then 0 else multiset(users)[u]
  {
    if users != [] {
      WithoutKeepsOthers(users[1..], userId);
      assert users == [users[0]] + users[1..];
    }
  }

  /** The survivors keep their relative order. */
  lemma {:induction false} WithoutKeepsOrder(users: seq<User>, userId: Option<string>)
    ensures IsSubsequence(Without(users, userId), users)
  {
    if users != [] {
      WithoutKeepsOrder(users[1..], userId);
      var rest := Without(users[1..], userId);
      if users[0].id != userId {
        assert Without(users, userId) == [users[0]] + rest;
        assert ([users[0]] + rest)[1..] == rest;
      } else {
        assert Without(users, userId) == rest;
      }
    }
  }

  /** Deleting an id nobody has changes nothing. */
  lemma {:induction false} WithoutAbsentId(users: seq<User>, userId: Option<string>)
    requires forall u :: u in users ==> u.id != userId
    ensures Without(users, userId) == users
  {
    if users != [] {
      assert users[0] in users;
      assert forall u :: u in users[1..] ==> u in users;
      WithoutAbsentId(users[1..], userId);
      assert users == [users[0]] + users[1..];
    }
  }

  /** Deleting the same id twice is the same as deleting it once. */
  lemma {:induction false} WithoutIdempotent(users: seq<User>, userId: Option<string>)
    ensures Without(Without(users, userId), userId) == Without(users, userId)
  {
    WithoutRemovesId(users, userId);
    WithoutAbsentId(Without(users, userId), userId);
  }

  /** The avatar cell: the picture, the upper-cased first letter of the name, or a render that throws. */
  datatype Avatar = Photo(url: string) | Initial(letter: string) | Throws

  datatype Row = Row(avatar: Avatar, name: string, email: string, adminBadge: bool, location: string, active: bool)

  /**
   * One table row. Without a picture the avatar cell takes the first letter of
   * the name, which throws a TypeError when the user has no name at all.
   */
  function RowOf(u: User): (r: Row)
    ensures r.adminBadge <==> IsAdmin(u)
    ensures r.active <==> TruthyFlag(u.isProfileComplete)
    ensures r.location == (if Truthy(u.location) then u.location.value else "N/A")
    ensures r.name == Shown(u.name) && r.email == Shown(u.email)
    ensures r.avatar.Photo? <==> Truthy(u.profileImage)
    ensures Truthy(u.profileImage) ==> r.avatar == Photo(BaseUrl + "/uploads/" + u.profileImage.value)
    ensures !Truthy(u.profileImage) && u.name.Some? ==>
              r.avatar == Initial(if u.name.value == "" then "" else [AsciiUpper(u.name.value[0])])
    ensures r.avatar == Throws <==> !Truthy(u.profileImage) && u.name.None?
    ensures r.avatar.Initial? ==> |r.avatar.letter| <= 1
  {
    Row(
      if Truthy(u.profileImage) then Photo(BaseUrl + "/uploads/" + u.profileImage.value)
      else if u.name.None? then Throws
      else Initial(UpperInitial(u.name)),
      Shown(u.name),
      Shown(u.email),
      IsAdmin(u),
      Or(u.location, "N/A"),
      u.isProfileComplete == Some(true))
  }

  datatype View = LoadingDashboard | Table(rows: seq<Row>)

  /**
   * The page body. A row whose avatar is `Throws` stands for a render that
   * fails: React then shows none of the table, so such a table is never
   * actually on screen.
   */
  function ViewOf(loading: bool, users: seq<User>): (v: View)
    ensures v == LoadingDashboard <==> loading
    ensures v.Table? ==> |v.rows| == |users| && forall i :: 0 <= i < |users| ==> v.rows[i] == RowOf(users[i])
  {
    if loading then LoadingDashboard
    else Table(seq(|users|, i requires 0 <= i < |users| => RowOf(users[i])))
  }

  /** The `users` and `loading` cells of the page. */
  class AdminState {
    var users: seq<User>
    var loading: bool

    constructor ()
      ensures users == [] && loading
    {
      users := [];
      loading := true;
    }

    /** The mount effect, once `GET /api/admin/users` has answered with `reply`. */
    method OnUsersFetched(reply: Reply<seq<User>>) returns (effects: seq<Effect>)
      modifies this
      ensures !loading
      ensures users == if reply.Ok? then reply.body else old(users)
      ensures effects == if reply.Ok? then [] else [Toast(Error, "Failed to load users")]
    {
      if reply.Ok? {
        users := reply.body;
        effects := [];
      } else {
        effects := [Toast(Error, "Failed to load users")];
      }
      loading := false;
    }

    /** `handleDelete`: `confirmed` is the answer to `window.confirm`. */
    method HandleDelete(userId: Option<string>, confirmed: bool) returns (effects: seq<Effect>)
      modifies this
      ensures !confirmed ==> users == old(users) && effects == []
      ensures confirmed ==> users == Without(old(users), userId) && effects == [Toast(Success, "User removed")]
      ensures loading == old(loading)
    {
      if !confirmed {
        return [];
      }
      users := Without(users, userId);
      effects := [Toast(Success, "User removed")];
    }
  }
}
