/**
 * The profile editor: its title, the form it hydrates from the server,
 * its image controls, and what it submits and then tells the session.
 */
module ProfileSetup {
  import opened Wrappers
  import opened Js
  import opened Users
  import opened Outcomes

  const BaseUrl: string := "https://sharespace-backend-xh5c.onrender.com"

  /** First-time setup: there is no session user, or it has no location yet. */
  predicate IsInitialSetup(user: Option<User>)
  {
    !(user.Some? && Truthy(user.value.location))
  }

  function PageTitle(user: Option<User>): (title: string)
    ensures title == "Setup Your Profile" <==> IsInitialSetup(user)
    ensures title != "Setup Your Profile" ==> title == "Edit Profile"
  {
    if IsInitialSetup(user) then "Setup Your Profile" else "Edit Profile"
  }

  /**
   * The avatar letter beside the picture controls: shown only while there is
   * no preview, and then the username's upper-cased first character, or
   * nothing when there is no user or no username.
   */
  function PreviewLetter(previewUrl: Option<string>, user: Option<User>): (letter: Option<string>)
    ensures letter.Some? <==> previewUrl.None?
    ensures previewUrl.None? && user.None? ==> letter == Some("")
    ensures previewUrl.None? && user.Some? ==> letter == Some(UpperInitial(user.value.username))
  {
    if previewUrl.Some? then None
    else Some(UpperInitial(if user.Some? then user.value.username else None))
  }

  /** The living-preference fields are offered to everyone but an admin. */
  function ShowsPreferences(user: Option<User>): (shown: bool)
    ensures shown <==> user.None? || user.value.role != Some("admin")
  {
    !IsAdminUser(user)
  }

  // ----- the form -----

  /** The keys of `formData`, in the order `Object.keys` lists them. */
  datatype Key =
    | NameKey | EmailKey | PasswordKey | LocationKey | BudgetKey | GenderKey | SmokingKey
    | CleanlinessKey | BioKey | LookingKey | ApartmentKey | FoodKey | SleepKey

  const Keys: seq<Key> := [
    NameKey, EmailKey, PasswordKey, LocationKey, BudgetKey, GenderKey, SmokingKey,
    CleanlinessKey, BioKey, LookingKey, ApartmentKey, FoodKey, SleepKey
  ]

  function KeyName(k: Key): string
  {
    match k
    case NameKey => "name"
    case EmailKey => "email"
    case PasswordKey => "password"
    case LocationKey => "location"
    case BudgetKey => "budget"
    case GenderKey => "gender"
    case SmokingKey => "smoking"
    case CleanlinessKey => "cleanliness"
    case BioKey => "bio"
    case LookingKey => "isLookingForRoommate"
    case ApartmentKey => "hasApartment"
    case FoodKey => "foodPreference"
    case SleepKey => "sleepSchedule"
  }

  /** The key a field name denotes, if any. */
  function KeyNamed(n: string): (k: Option<Key>)
    ensures k.Some? ==> KeyName(k.value) == n
  {
    if n == "name" then Some(NameKey)
    else if n == "email" then Some(EmailKey)
    else if n == "password" then Some(PasswordKey)
    else if n == "location" then Some(LocationKey)
    else if n == "budget" then Some(BudgetKey)
    else if n == "gender" then Some(GenderKey)
    else if n == "smoking" then Some(SmokingKey)
    else if n == "cleanliness" then Some(CleanlinessKey)
    else if n == "bio" then Some(BioKey)
    else if n == "isLookingForRoommate" then Some(LookingKey)
    else if n == "hasApartment" then Some(ApartmentKey)
    else if n == "foodPreference" then Some(FoodKey)
    else if n == "sleepSchedule" then Some(SleepKey)
    else None
  }

  /** Field names are distinct, so a name denotes exactly one key. */
  lemma KeyNamedInverts(k: Key)
    ensures KeyNamed(KeyName(k)) == Some(k)
  {
  }

  /** The two extra entry names are not field names. */
  lemma NoFieldIsNamedLikeTheImageEntries(k: Key)
    ensures KeyName(k) != "profileImage" && KeyName(k) != "removeImage"
  {
    assert |"profileImage"| == 12 && |"removeImage"| == 11;
    match k
    case LookingKey => assert KeyName(k)[0] == 'i';
    case ApartmentKey => assert KeyName(k)[0] == 'h';
    case FoodKey => assert KeyName(k)[0] == 'f';
    case SleepKey => assert KeyName(k)[0] == 's';
    case CleanlinessKey => assert KeyName(k)[0] == 'c';
    case _ => assert |KeyName(k)| < 11;
  }

  datatype Form = Form(
    name: string, email: string, password: string, location: string, budget: string,
    gender: string, smoking: string, cleanliness: string, bio: string,
    isLookingForRoommate: string, hasApartment: string, foodPreference: string,
    sleepSchedule: string)

  function Value(f: Form, k: Key): string
  {
    match k
    case NameKey => f.name
    case EmailKey => f.email
    case PasswordKey => f.password
    case LocationKey => f.location
    case BudgetKey => f.budget
    case GenderKey => f.gender
    case SmokingKey => f.smoking
    case CleanlinessKey => f.cleanliness
    case BioKey => f.bio
    case LookingKey => f.isLookingForRoommate
    case ApartmentKey => f.hasApartment
    case FoodKey => f.foodPreference
    case SleepKey => f.sleepSchedule
  }

  /** The form with key `k` set to `v`. */
  function WithValue(f: Form, k: Key, v: string): (r: Form)
    ensures Value(r, k) == v
    ensures forall j :: j != k ==> Value(r, j) == Value(f, j)
  {
    match k
    case NameKey => f.(name := v)
    case EmailKey => f.(email := v)
    case PasswordKey => f.(password := v)
    case LocationKey => f.(location := v)
    case BudgetKey => f.(budget := v)
    case GenderKey => f.(gender := v)
    case SmokingKey => f.(smoking := v)
    case CleanlinessKey => f.(cleanliness := v)
    case BioKey => f.(bio := v)
    case LookingKey => f.(isLookingForRoommate := v)
    case ApartmentKey => f.(hasApartment := v)
    case FoodKey => f.(foodPreference := v)
    case SleepKey => f.(sleepSchedule := v)
  }

  /** Two forms that agree on every key are the same form. */
  lemma FormExtensionality(f: Form, g: Form)
    requires forall k :: Value(f, k) == Value(g, k)
    ensures f == g
  {
    assert Value(f, NameKey) == Value(g, NameKey) && Value(f, EmailKey) == Value(g, EmailKey);
    assert Value(f, PasswordKey) == Value(g, PasswordKey) && Value(f, LocationKey) == Value(g, LocationKey);
    assert Value(f, BudgetKey) == Value(g, BudgetKey) && Value(f, GenderKey) == Value(g, GenderKey);
    assert Value(f, SmokingKey) == Value(g, SmokingKey) && Value(f, CleanlinessKey) == Value(g, CleanlinessKey);
    assert Value(f, BioKey) == Value(g, BioKey) && Value(f, LookingKey) == Value(g, LookingKey);
    assert Value(f, ApartmentKey) == Value(g, ApartmentKey) && Value(f, FoodKey) == Value(g, FoodKey);
    assert Value(f, SleepKey) == Value(g, SleepKey);
  }

  /** The `useState` initial value of `formData`. */
  const InitialForm: Form := Form(
    "", "", "", "", "", "Male", "non-smoker", "standard", "", "yes", "no", "any", "flexible")

  predicate Distinct(keys: seq<Key>)
  {
    forall i, j :: 0 <= i < j < |keys| ==> keys[i] != keys[j]
  }

  /** The position of a key in `Keys`. */
  function Position(k: Key): nat
  {
    match k
    case NameKey => 0
    case EmailKey => 1
    case PasswordKey => 2
    case LocationKey => 3
    case BudgetKey => 4
    case GenderKey => 5
    case SmokingKey => 6
    case CleanlinessKey => 7
    case BioKey => 8
    case LookingKey => 9
    case ApartmentKey => 10
    case FoodKey => 11
    case SleepKey => 12
  }

  /** `Object.keys(formData)` lists each key once. */
  lemma {:induction false} KeysAreDistinct()
    ensures Distinct(Keys)
  {
    forall i | 0 <= i < |Keys|
      ensures Position(Keys[i]) == i
    {
    }
  }

  /** `Object.keys(formData)` lists every key. */
  lemma EveryKeyListed(k: Key)
    ensures k in Keys
  {
    match k
    case NameKey => assert Keys[0] == k;
    case EmailKey => assert Keys[1] == k;
    case PasswordKey => assert Keys[2] == k;
    case LocationKey => assert Keys[3] == k;
    case BudgetKey => assert Keys[4] == k;
    case GenderKey => assert Keys[5] == k;
    case SmokingKey => assert Keys[6] == k;
    case CleanlinessKey => assert Keys[7] == k;
    case BioKey => assert Keys[8] == k;
    case LookingKey => assert Keys[9] == k;
    case ApartmentKey => assert Keys[10] == k;
    case FoodKey => assert Keys[11] == k;
    case SleepKey => assert Keys[12] == k;
  }

  /** The user property each form key is filled from after a fetch; the password has none. */
  function Source(k: Key): Attr
    requires k != PasswordKey
  {
    match k
    case NameKey => Name
    case EmailKey => Email
    case LocationKey => Location
    case BudgetKey => Budget
    case GenderKey => Gender
    case SmokingKey => Smoking
    case CleanlinessKey => Cleanliness
    case BioKey => Bio
    case LookingKey => IsLookingForRoommate
    case ApartmentKey => HasApartment
    case FoodKey => FoodPreference
    case SleepKey => SleepSchedule
  }

  /** The `|| default` of each key in the fetch handler. */
  function Fallback(k: Key): string
  {
    match k
    case NameKey => ""
    case EmailKey => ""
    case PasswordKey => ""
    case LocationKey => ""
    case BudgetKey => ""
    case GenderKey => "Male"
    case SmokingKey => "non-smoker"
    case CleanlinessKey => "standard"
    case BioKey => ""
    case LookingKey => "yes"
    case ApartmentKey => "no"
    case FoodKey => "any"
    case SleepKey => "flexible"
  }

  /** The form after a successful fetch of `latest`: each key takes the user's value, or its fallback, and the password is cleared. */
  function Hydrate(prev: Form, latest: User): (r: Form)
    ensures Value(r, PasswordKey) == ""
  {
    prev.(
      name := Or(latest.name, ""),
      email := Or(latest.email, ""),
      password := "",
      location := Or(latest.location, ""),
      budget := Or(latest.budget, ""),
      gender := Or(latest.gender, "Male"),
      smoking := Or(latest.smoking, "non-smoker"),
      cleanliness := Or(latest.cleanliness, "standard"),
      bio := Or(latest.bio, ""),
      isLookingForRoommate := Or(latest.isLookingForRoommate, "yes"),
      hasApartment := Or(latest.hasApartment, "no"),
      foodPreference := Or(latest.foodPreference, "any"),
      sleepSchedule := Or(latest.sleepSchedule, "flexible"))
  }

  /**
   * After a successful fetch each key holds the user's value when it is
   * truthy and that key's own default otherwise.
   */
  lemma {:induction false} HydrateTakesFetchedValues(prev: Form, latest: User)
    ensures forall k :: k != PasswordKey ==> Value(Hydrate(prev, latest), k) == Or(Get(latest, Source(k)), Fallback(k))
  {
    var r := Hydrate(prev, latest);
    forall k | k != PasswordKey
      ensures Value(r, k) == Or(Get(latest, Source(k)), Fallback(k))
    {
      match k
      case NameKey => assert r.name == Or(latest.name, "");
      case EmailKey => assert r.email == Or(latest.email, "");
      case LocationKey => assert r.location == Or(latest.location, "");
      case BudgetKey => assert r.budget == Or(latest.budget, "");
      case GenderKey => assert r.gender == Or(latest.gender, "Male");
      case SmokingKey => assert r.smoking == Or(latest.smoking, "non-smoker");
      case CleanlinessKey => assert r.cleanliness == Or(latest.cleanliness, "standard");
      case BioKey => assert r.bio == Or(latest.bio, "");
      case LookingKey => assert r.isLookingForRoommate == Or(latest.isLookingForRoommate, "yes");
      case ApartmentKey => assert r.hasApartment == Or(latest.hasApartment, "no");
      case FoodKey => assert r.foodPreference == Or(latest.foodPreference, "any");
      case SleepKey => assert r.sleepSchedule == Or(latest.sleepSchedule, "flexible");
    }
  }

  /** Every key is overwritten, so the previous form has no influence on the hydrated one. */
  lemma {:induction false} HydrateForgetsPrevious(p: Form, q: Form, latest: User)
    ensures Hydrate(p, latest) == Hydrate(q, latest)
  {
    HydrateTakesFetchedValues(p, latest);
    HydrateTakesFetchedValues(q, latest);
    forall k ensures Value(Hydrate(p, latest), k) == Value(Hydrate(q, latest), k) {
    }
    FormExtensionality(Hydrate(p, latest), Hydrate(q, latest));
  }

  /** The fetch handler's defaults are the form's initial values: hydrating from `{}` gives the initial form. */
  lemma {:induction false} HydrateFromNothingIsInitial(prev: Form)
    ensures Hydrate(prev, NoProperties) == InitialForm
  {
    HydrateTakesFetchedValues(prev, NoProperties);
    forall k ensures Value(Hydrate(prev, NoProperties), k) == Value(InitialForm, k) {
    }
    FormExtensionality(Hydrate(prev, NoProperties), InitialForm);
  }

  /** The form after a failed fetch: with a session user only its email is copied in. */
  function KeepOnFailure(prev: Form, ctx: Option<User>): (r: Form)
    ensures forall k :: k != EmailKey ==> Value(r, k) == Value(prev, k)
    ensures ctx.Some? ==> r.email == Or(ctx.value.email, "")
    ensures ctx.None? ==> r == prev
  {
    if ctx.Some? then prev.(email := Or(ctx.value.email, "")) else prev
  }

  // ----- the submitted multipart body -----

  datatype File = File(name: string)

  /** A `FormData` value: a string, or a file. */
  datatype Part = Text(s: string) | Upload(file: File)

  datatype Entry = Entry(name: string, value: Part)

  /** A `FormData` buffer: its entries in the order they were appended. */
  class FormDataBuffer {
    var entries: seq<Entry>

    constructor ()
      ensures entries == []
    {
      entries := [];
    }

    method Append(name: string, value: Part)
      modifies this
      ensures entries == old(entries) + [Entry(name, value)]
    {
      entries := entries + [Entry(name, value)];
    }
  }

  /** The values appended under `n`, in order (what `FormData.getAll` returns). */
  function GetAll(entries: seq<Entry>, n: string): seq<Part>
  {
    if entries == [] then []
    else (if entries[0].name == n then [entries[0].value] else []) + GetAll(entries[1..], n)
  }

  lemma {:induction false} GetAllAppend(a: seq<Entry>, b: seq<Entry>, n: string)
    ensures GetAll(a + b, n) == GetAll(a, n) + GetAll(b, n)
  {
    if a == [] {
      assert a + b == b;
    } else {
      var ab := a + b;
      assert ab[0] == a[0];
      assert ab[1..] == a[1..] + b;
      GetAllAppend(a[1..], b, n);
      assert GetAll(ab, n) == (if a[0].name == n then [a[0].value] else []) + GetAll(ab[1..], n);
    }
  }

  /** A key is sent unless it is the password and the password is empty. */
  predicate Included(f: Form, k: Key)
  {
    k != PasswordKey || Value(f, PasswordKey) != ""
  }

  function EntriesFor(f: Form, k: Key): seq<Entry>
  {
    if Included(f, k) then [Entry(KeyName(k), Text(Value(f, k)))] else []
  }

  /** What the `forEach` over `keys` appends, in order. */
  function FieldEntries(f: Form, keys: seq<Key>): seq<Entry>
  {
    if keys == [] then []
    else FieldEntries(f, keys[..|keys| - 1]) + EntriesFor(f, keys[|keys| - 1])
  }

  /**
   * The `forEach` over the form's keys: each key is appended with its value,
   * except an empty password, which is skipped.
   */
  method AppendFields(data: FormDataBuffer, f: Form, keys: seq<Key>)
    modifies data
    ensures data.entries == old(data.entries) + FieldEntries(f, keys)
  {
    var i := 0;
    while i < |keys|
      invariant 0 <= i <= |keys|
      invariant data.entries == old(data.entries) + FieldEntries(f, keys[..i])
    {
      var key := keys[i];
      assert keys[..i + 1][..i] == keys[..i];
      if key == PasswordKey {
        if Value(f, key) != "" {
          data.Append(KeyName(key), Text(Value(f, key)));
        }
      } else {
        data.Append(KeyName(key), Text(Value(f, key)));
      }
      i := i + 1;
    }
    assert keys[..|keys|] == keys;
  }

  /** The entry for a newly picked picture, if any. */
  function ImageEntries(imageFile: Option<File>): seq<Entry>
  {
    if imageFile.Some? then [Entry("profileImage", Upload(imageFile.value))] else []
  }

  /** The entry asking the server to drop the stored picture, if asked for. */
  function RemoveEntries(removeImage: bool): seq<Entry>
  {
    if removeImage then [Entry("removeImage", Text("true"))] else []
  }

  /** The whole body `handleSubmit` sends. */
  function Payload(f: Form, imageFile: Option<File>, removeImage: bool): seq<Entry>
  {
    FieldEntries(f, Keys) + ImageEntries(imageFile) + RemoveEntries(removeImage)
  }

  /** What one key contributes under the name `n`: its value, if the key has that name and is sent. */
  lemma EntriesForGetAll(f: Form, k: Key, n: string)
    ensures GetAll(EntriesFor(f, k), n)
            == if KeyName(k) == n && Included(f, k) then [Text(Value(f, k))] else []
  {
    assert EntriesFor(f, k) == [] || EntriesFor(f, k)[1..] == [];
  }

  lemma {:induction false} FieldEntriesGetAll(f: Form, keys: seq<Key>, n: string)
    requires Distinct(keys)
    ensures GetAll(FieldEntries(f, keys), n)
            == if KeyNamed(n).Some? && KeyNamed(n).value in keys && Included(f, KeyNamed(n).value)
               then [Text(Value(f, KeyNamed(n).value))] else []
  {
    if keys != [] {
      var init, last := keys[..|keys| - 1], keys[|keys| - 1];
      assert keys == init + [last];
      assert Distinct(init);
      assert last !in init;
      FieldEntriesGetAll(f, init, n);
      GetAllAppend(FieldEntries(f, init), EntriesFor(f, last), n);
      EntriesForGetAll(f, last, n);
      KeyNamedInverts(last);
      var k := KeyNamed(n);
      if k == Some(last) {
        assert KeyName(last) == n;
        assert GetAll(FieldEntries(f, init), n) == [];
      } else {
        assert KeyName(last) != n;
        assert k.Some? ==> (k.value in keys <==> k.value in init);
      }
    }
  }

  /** The picture entry is found only under "profileImage", the removal entry only under "removeImage". */
  lemma ExtraEntriesGetAll(imageFile: Option<File>, removeImage: bool, n: string)
    ensures GetAll(ImageEntries(imageFile), n)
            == if n == "profileImage" && imageFile.Some? then [Upload(imageFile.value)] else []
    ensures GetAll(RemoveEntries(removeImage), n)
            == if n == "removeImage" && removeImage then [Text("true")] else []
  {
    assert ImageEntries(imageFile) == [] || ImageEntries(imageFile)[1..] == [];
    assert RemoveEntries(removeImage) == [] || RemoveEntries(removeImage)[1..] == [];
  }

  /** `PayloadContents` for any list of distinct keys that lists every key. */
  lemma {:induction false} BodyContents(f: Form, keys: seq<Key>, imageFile: Option<File>, removeImage: bool, n: string)
    requires Distinct(keys)
    requires forall k :: k in keys
    ensures GetAll(FieldEntries(f, keys) + ImageEntries(imageFile) + RemoveEntries(removeImage), n)
            == if KeyNamed(n).Some? then
                 (if Included(f, KeyNamed(n).value) then [Text(Value(f, KeyNamed(n).value))] else [])
               else if n == "profileImage" then
                 (if imageFile.Some? then [Upload(imageFile.value)] else [])
               else if n == "removeImage" then
                 (if removeImage then [Text("true")] else [])
               else []
  {
    var fields, img, rm := FieldEntries(f, keys), ImageEntries(imageFile), RemoveEntries(removeImage);
    GetAllAppend(fields, img, n);
    GetAllAppend(fields + img, rm, n);
    FieldEntriesGetAll(f, keys, n);
    ExtraEntriesGetAll(imageFile, removeImage, n);
    var k := KeyNamed(n);
    if k.Some? {
      assert k.value in keys;
      NoFieldIsNamedLikeTheImageEntries(k.value);
      assert GetAll(img, n) == [] && GetAll(rm, n) == [];
    } else {
      assert GetAll(fields, n) == [];
    }
  }

  /**
   * What the server receives under each name: every form field once with its
   * current value, except the password, which is sent only when it is not
   * empty; the picked file under "profileImage" only when there is one;
   * "true" under "removeImage" only when removal was asked for; nothing else.
   */
  lemma {:induction false} PayloadContents(f: Form, imageFile: Option<File>, removeImage: bool, n: string)
    ensures GetAll(Payload(f, imageFile, removeImage), n)
            == if KeyNamed(n).Some? then
                 (if Included(f, KeyNamed(n).value) then [Text(Value(f, KeyNamed(n).value))] else [])
               else if n == "profileImage" then
                 (if imageFile.Some? then [Upload(imageFile.value)] else [])
               else if n == "removeImage" then
                 (if removeImage then [Text("true")] else [])
               else []
  {
    KeysAreDistinct();
    forall k ensures k in Keys {
      EveryKeyListed(k);
    }
    BodyContents(f, Keys, imageFile, removeImage, n);
  }

  /** The password goes out iff the user typed one. */
  lemma {:induction false} PasswordSentIffTyped(f: Form, imageFile: Option<File>, removeImage: bool)
    ensures GetAll(Payload(f, imageFile, removeImage), "password") != [] <==> f.password != ""
    ensures f.password != "" ==> GetAll(Payload(f, imageFile, removeImage), "password") == [Text(f.password)]
  {
    PayloadContents(f, imageFile, removeImage, "password");
  }

  // ----- the session update after a save -----

  function Pick<T>(base: Option<T>, over: Option<T>): Option<T>
  {
    if over.Some? then over else base
  }

  /** The session user overlaid with the saved user: the server's properties win, the session's others survive. */
  function Merge(ctx: Option<User>, upd: User): (r: User)
    ensures forall a :: Get(r, a) == if Get(upd, a).Some? then Get(upd, a)
                                     else if ctx.Some? then Get(ctx.value, a) else None
    ensures r.isProfileComplete == if upd.isProfileComplete.Some? then upd.isProfileComplete
                                   else if ctx.Some? then ctx.value.isProfileComplete else None
  {
    var c := ctx.GetOr(NoProperties);
    User(
      Pick(c.id, upd.id), Pick(c.name, upd.name), Pick(c.username, upd.username),
      Pick(c.email, upd.email), Pick(c.role, upd.role), Pick(c.location, upd.location),
      Pick(c.budget, upd.budget), Pick(c.gender, upd.gender), Pick(c.smoking, upd.smoking),
      Pick(c.cleanliness, upd.cleanliness), Pick(c.bio, upd.bio),
      Pick(c.isLookingForRoommate, upd.isLookingForRoommate), Pick(c.hasApartment, upd.hasApartment),
      Pick(c.foodPreference, upd.foodPreference), Pick(c.sleepSchedule, upd.sleepSchedule),
      Pick(c.profileImage, upd.profileImage), Pick(c.isProfileComplete, upd.isProfileComplete))
  }

  /** Two users that agree on every property are the same user. */
  lemma UserExtensionality(u: User, v: User)
    requires forall a :: Get(u, a) == Get(v, a)
    requires u.isProfileComplete == v.isProfileComplete
    ensures u == v
  {
    assert Get(u, Id) == Get(v, Id) && Get(u, Name) == Get(v, Name) && Get(u, Username) == Get(v, Username);
    assert Get(u, Email) == Get(v, Email) && Get(u, Role) == Get(v, Role) && Get(u, Location) == Get(v, Location);
    assert Get(u, Budget) == Get(v, Budget) && Get(u, Gender) == Get(v, Gender) && Get(u, Smoking) == Get(v, Smoking);
    assert Get(u, Cleanliness) == Get(v, Cleanliness) && Get(u, Bio) == Get(v, Bio);
    assert Get(u, IsLookingForRoommate) == Get(v, IsLookingForRoommate) && Get(u, HasApartment) == Get(v, HasApartment);
    assert Get(u, FoodPreference) == Get(v, FoodPreference) && Get(u, SleepSchedule) == Get(v, SleepSchedule);
    assert Get(u, ProfileImage) == Get(v, ProfileImage);
  }

  /** Without a session user the merge is the server's user; an empty reply keeps the session user. */
  lemma {:induction false} MergeUnits(c: User, u: User)
    ensures Merge(None, u) == u
    ensures Merge(Some(c), NoProperties) == c
  {
    UserExtensionality(Merge(None, u), u);
    UserExtensionality(Merge(Some(c), NoProperties), c);
  }

  /** Saving twice in a row is the same as merging both replies at once, the later one winning. */
  lemma {:induction false} MergeTwice(c: Option<User>, u1: User, u2: User)
    ensures Merge(Some(Merge(c, u1)), u2) == Merge(c, Merge(Some(u1), u2))
    ensures Merge(Some(Merge(c, u1)), u1) == Merge(c, u1)
  {
  }

  // ----- the page's state cells -----

  /** `formData`, `imageFile`, `previewUrl`, `removeImage` and `loading`. */
  class SetupState {
    var formData: Form
    var imageFile: Option<File>
    var previewUrl: Option<string>
    var removeImage: bool
    var loading: bool

    constructor ()
      ensures formData == InitialForm && imageFile == None && previewUrl == None
      ensures !removeImage && loading
    {
      formData := InitialForm;
      imageFile := None;
      previewUrl := None;
      removeImage := false;
      loading := true;
    }

    /** The mount effect, once `GET /api/auth/me` has answered with `reply`. */
    method OnProfileFetched(ctxUser: Option<User>, reply: Reply<User>)
      modifies this
      ensures !loading
      ensures imageFile == old(imageFile) && removeImage == old(removeImage)
      ensures reply.Ok? ==> formData == Hydrate(old(formData), reply.body)
      ensures reply.Ok? ==> previewUrl == if Truthy(reply.body.profileImage)
                                          then Some(BaseUrl + "/uploads/" + reply.body.profileImage.value)
                                          else old(previewUrl)
      ensures reply.Failed? ==> formData == KeepOnFailure(old(formData), ctxUser) && previewUrl == old(previewUrl)
    {
      match reply
      case Ok(latest) =>
        formData := Hydrate(formData, latest);
        if Truthy(latest.profileImage) {
          previewUrl := Some(BaseUrl + "/uploads/" + latest.profileImage.value);
        }
        loading := false;
      case Failed(_) =>
        if ctxUser.Some? {
          formData := formData.(email := Or(ctxUser.value.email, ""));
        }
        loading := false;
    }

    /** `handleChange`: exactly the named key takes the new value. */
    method HandleChange(k: Key, v: string)
      modifies this
      ensures formData == WithValue(old(formData), k, v)
      ensures imageFile == old(imageFile) && previewUrl == old(previewUrl)
      ensures removeImage == old(removeImage) && loading == old(loading)
    {
      formData := WithValue(formData, k, v);
    }

    /** `handleFileChange`: `file` is `e.target.files[0]`, `objectUrl` what `URL.createObjectURL` gives for it. */
    method HandleFileChange(file: Option<File>, objectUrl: string)
      modifies this
      ensures file.Some? ==> imageFile == file && previewUrl == Some(objectUrl) && !removeImage
      ensures file.None? ==> imageFile == old(imageFile) && previewUrl == old(previewUrl) && removeImage == old(removeImage)
      ensures formData == old(formData) && loading == old(loading)
    {
      if file.Some? {
        imageFile := file;
        previewUrl := Some(objectUrl);
        removeImage := false;
      }
    }

    /** `handleRemoveImage`. */
    method HandleRemoveImage()
      modifies this
      ensures imageFile == None && previewUrl == None && removeImage
      ensures formData == old(formData) && loading == old(loading)
    {
      imageFile := None;
      previewUrl := None;
      removeImage := true;
    }

    /**
     * `handleSubmit`: builds the multipart body, and once `PUT /user/profile`
     * has answered with `reply`, hands the merged user and the token already
     * in storage to `login`, then goes to "/profile". A failed save leaves the
     * session alone.
     */
    method HandleSubmit(ctxUser: Option<User>, storedToken: Option<string>, reply: Reply<Envelope<User>>)
      returns (payload: seq<Entry>, effects: seq<Effect>)
      ensures payload == Payload(formData, imageFile, removeImage)
      ensures reply.Ok? ==> effects == [CallLogin(Some(Merge(ctxUser, Unwrap(reply.body))), storedToken),
                                        Toast(Success, "Profile Updated!"), Navigate("/profile", None)]
      ensures reply.Failed? ==> effects == [Toast(Error, "Error updating profile")]
    {
      var data := new FormDataBuffer();
      var fields := FieldEntries(formData, Keys);
      AppendFields(data, formData, Keys);
      assert data.entries == fields;
      if imageFile.Some? {
        data.Append("profileImage", Upload(imageFile.value));
      }
      assert data.entries == fields + ImageEntries(imageFile);
      if removeImage {
        data.Append("removeImage", Text("true"));
      }
      payload := data.entries;
      match reply
      case Ok(res) =>
        var updatedUser := Unwrap(res);
        effects := [CallLogin(Some(Merge(ctxUser, updatedUser)), storedToken),
                    Toast(Success, "Profile Updated!"), Navigate("/profile", None)];
      case Failed(_) =>
        effects := [Toast(Error, "Error updating profile")];
    }
  }
}
