# ShareSpace front end: session-driven decisions, in Dafny

This project models the decision and transformation rules of the ShareSpace
roommate-matching front end (a React application) that depend on who is
signed in. It covers:

- the two route guards, `PrivateRoute` and `AdminRoute`, and the route table;
- the navigation bar's link set, its logout handler and its "About" handler;
- the landing page's call to action and its scroll-to-about check;
- the matches page's fetch gate, its profile-completeness gate, its view
  selection and its match cards;
- the profile page's derived values and fallbacks;
- the profile editor's form state: hydration from the server, the image
  controls, the multipart body it submits and the user it hands back to
  the session;
- the admin table's delete and its cells;
- the sign-in and sign-up forms.

Each source file is one module (`App`, `Navbar`, `Home`, `Dashboard`,
`Profile`, `ProfileSetup`, `AdminDashboard`, `Login`, `Register`). Four
helper modules support them. `Wrappers` holds `Option`. `Js` holds the
JavaScript value rules the pages rely on: truthiness, the `||` fallback,
`replace` with a one-character pattern, and ASCII upper-casing. `Users`
holds the user record. `Outcomes` holds request outcomes and the calls a
handler makes.

Modelling conventions:

- Every user property is an `Option<string>`. `isProfileComplete` is an
  `Option<bool>`. `_id` is called `id`.
- A string property is truthy when it is present and not empty. `a || d`
  is "`a` if truthy, else `d`". A user is an admin exactly when its role is
  the string "admin".
- The session store's code (`AuthContext`, `useAuth`) is not modelled.
  A guard sees a `Session(user, loading)` snapshot. `login`, `logout` and
  `navigate` appear only as entries of the `Effect` list a handler returns,
  in the order the handler makes the calls.
- Each awaited request is a parameter `Reply<T>`: `Ok(body)` or
  `Failed(error)`, applied in full. `window.confirm` and
  `URL.createObjectURL` are parameters too.
- A page's `useState` cells are the fields of a class: `MatchesState`,
  `SetupState`, `AdminState`, `LoginForm` and `RegisterForm`. The
  profile editor builds its `FormData` body in a `FormDataBuffer` object
  with a loop, as the source does.

The admin guard sends a signed-out visitor to "/", not to the sign-in page
(`App.AdminRoute`, `App.AnonymousRedirects`). None of the pages and nothing
in `src/services/api.js` logs the session out on a 401 response, so that is
not modelled.

The profile page and the match cards build image addresses on
`http://localhost:5000/uploads/`. The profile editor and the admin table use
the deployed backend's address. The model keeps each page's own prefix.

## Model

| member | source | states |
|---|---|---|
| App.PrivateRoute | src/App.jsx:18-22 | while loading: the placeholder; once settled: the children iff there is a user, otherwise a redirect to "/login" |
| App.AdminRoute | src/App.jsx:24-28 | while loading: the placeholder; once settled: the children iff the user's role is exactly "admin", otherwise a redirect to "/" |
| App.GuardsWaitWhileLoading | src/App.jsx:18-28 | whatever the user, both guards render the placeholder while loading |
| App.AdminImpliesPrivate | src/App.jsx:18-28 | whenever the admin guard renders its children, the private guard does too; both wait in exactly the same states |
| App.NoPrivilegeByDefault | src/App.jsx:27 | a missing role or any role other than "admin" is redirected to "/" by the admin guard, yet admitted by the private guard |
| App.AnonymousRedirects | src/App.jsx:21-27 | a settled anonymous session goes to "/" at an admin route and to "/login" at a private route |
| App.GuardOf | src/App.jsx:37-45 | "/setup", "/matches" and "/profile" are private; "/admin" is admin-only; "/", "/login" and "/register" are public; no other path has a route |
| App.Lookup | src/App.jsx:37-45 | the route table: a route found for a path is the one declared for exactly that path, and the page it shows is the one mounted at that path (`PathOf` of the page is the path, so "/matches" shows the dashboard and "/profile" the profile); which paths have a route: `GuardOf` and `Render` |
| App.PathOf | src/App.jsx:37-45 | the address each page is mounted at; `Lookup` is checked against it |
| App.Render | src/App.jsx:35-46 | nothing matches exactly the paths without a route; a page is shown only at its own path; the spinner appears only while loading; a public path always shows its page; a guarded path shows the spinner while loading; once settled, a private path shows its page iff there is a user and otherwise goes to "/login", and "/admin" shows its page iff the user is an admin and otherwise goes to "/" |
| App.Guarded | src/App.jsx:42-45 | the wrapping of a route's element in its guard: the guard's placeholder, children or redirect become the spinner, the page or a redirect (covered by `Render`'s contract) |
| App.AnonymousSeesOnlyPublicPages | src/App.jsx:37-45 | a settled anonymous session sees a page iff the path is public |
| Navbar.Menu | src/components/Navbar.jsx:35-97 | on "/login" and "/register" no menu; otherwise each item's visibility: About for non-admins, Matches for regular users, Dashboard for admins, Login for visitors, Profile and Logout for any user; no item twice |
| Navbar.IsAuthPage | src/components/Navbar.jsx:35 | exactly "/login" and "/register" are sign-in pages |
| Navbar.Target | src/components/Navbar.jsx:57-94 | the `to` of each link: "/" for Home, "/matches", "/profile", "/admin" and "/login"; About and Logout have none (used by `MenuLinksAreAdmitted`) |
| Navbar.HandleLogout | src/components/Navbar.jsx:12-15 | `logout` is called first, then the only navigation goes to "/login" |
| Navbar.HandleAboutClick | src/components/Navbar.jsx:22-33 | on "/" it scrolls in place; elsewhere it navigates to "/" with `scrollToAbout` set to true |
| Navbar.AboutClickScrolls | src/components/Navbar.jsx:25-32 | from any page "About" ends in a scroll: directly, or because the landing page's mount effect sees the flag the click passed |
| Navbar.MenuLinksAreAdmitted | src/components/Navbar.jsx:55-94 | every link the bar shows leads, for the same settled session, to a page the router shows rather than to a redirect |
| Navbar.CtaIsAdmitted | src/pages/Home.jsx:49-61 | the landing page's call to action likewise leads to a page the router shows |
| Home.CtaTarget | src/pages/Home.jsx:49-61 | a visitor is offered "/register", an admin "/admin", any other user "/matches" |
| Home.MountEffects | src/pages/Home.jsx:15-25 | the scroll is scheduled iff a navigation state exists and its `scrollToAbout` is true; otherwise nothing happens |
| Dashboard.CompleteProfileWasFetched | src/pages/Dashboard.jsx:25-33 | whenever the page gets past the completion prompt, its effect fetched; a user who fetched without a complete profile still sees the prompt |
| Dashboard.FetchWithoutCards | src/pages/Dashboard.jsx:25-33 | a user with a location and an incomplete profile both triggers the fetch and sees the prompt |
| Dashboard.ShouldFetch | src/pages/Dashboard.jsx:25-29 | the effect's gate: the matches are requested exactly when there is a user with a truthy location |
| Dashboard.NeedsCompletion | src/pages/Dashboard.jsx:33 | the render gate: the prompt replaces the page unless there is a user with a truthy location and a truthy `isProfileComplete` |
| Dashboard.MatchesState.constructor | src/pages/Dashboard.jsx:9-10 | no matches yet, and loading |
| Dashboard.MatchesState.Refresh | src/pages/Dashboard.jsx:12-30 | fetches iff the user has a location; afterwards `loading` is false on every path; matches become the unwrapped reply on success and are unchanged otherwise |
| Dashboard.ViewOf | src/pages/Dashboard.jsx:33-65 | the prompt iff location or completeness is missing; otherwise the spinner iff loading, "no matches" iff settled with an empty list, and cards iff settled with a non-empty list, one card per match in order |
| Dashboard.CardOf | src/pages/Dashboard.jsx:75-124 | picture iff an image is set; else the name's first character, or "?" without a name; the initial is exactly one character; each badge iff the property is exactly "yes"; the non-smoker style iff "non-smoker"; bio falls back to "No bio provided."; the title is the name (not the username), and gender, location, budget, smoking, cleanliness, food and sleep show the user's values as they are |
| Profile.View | src/pages/Profile.jsx:9-50 | no user: only the loading placeholder; otherwise the image address, the avatar letter iff there is no image (the username's upper-cased first character, or nothing), the name or else the username, the email as it is, the admin badge iff admin, and the preferences iff not admin |
| Js.UpperInitial | src/pages/Profile.jsx:31 | an ASCII-only, first-code-point reading of `charAt(0).toUpperCase()` on an optional string, limited to one character: nothing iff the string is missing or empty, else its first character with ASCII letters upper-cased |
| Profile.ImageUrl | src/pages/Profile.jsx:11-13 | defined iff the user has an image, and then the uploads prefix followed by the file name |
| Profile.PreferencesOf | src/pages/Profile.jsx:53-88 | location, budget, smoking, cleanliness and gender fall back to "N/A", food to "Any", bio to "No bio added yet."; each shows the user's value when truthy; badges iff "yes"; the sleep label as `SleepLabel` |
| Profile.SleepLabel | src/pages/Profile.jsx:77 | "Flexible" when the schedule is missing or empty; otherwise the schedule with its first hyphen replaced; never empty |
| Profile.SleepLabelReplacesFirstHyphen | src/pages/Profile.jsx:77 | a schedule made of a hyphen-free word, a hyphen and any rest, such as "early-bird", reads with a space in place of that hyphen |
| Profile.SleepLabelExamples | src/pages/Profile.jsx:77 | "a-b-c" reads "a b-c" (only the first hyphen goes); "" reads "Flexible" |
| Js.ReplaceFirstChangesFirstOnly | src/pages/Profile.jsx:77 | a string without the character is unchanged; otherwise exactly its first occurrence is replaced |
| Js.ReplaceFirst | src/pages/Profile.jsx:77 | `replace` with a one-character pattern keeps the length (what it changes: `ReplaceFirstChangesFirstOnly`) |
| Js.ReplaceFirstSplits | src/pages/Profile.jsx:77 | the text before the first occurrence is kept, that occurrence becomes the replacement, and the rest is kept |
| Js.IndexOf | src/pages/Profile.jsx:77 | the position found holds the character and no earlier position does; "not found" only when the string lacks it |
| Js.IndexOfAfterPrefix | src/pages/Profile.jsx:77 | in a prefix without the character followed by that character, the first occurrence is right after the prefix |
| ProfileSetup.PageTitle | src/pages/ProfileSetup.jsx:16-17 | "Setup Your Profile" iff there is no user or it has no location, else "Edit Profile" |
| ProfileSetup.PreviewLetter | src/pages/ProfileSetup.jsx:143-147 | a letter is shown iff there is no preview; then it is the username's upper-cased first character, or nothing without a user or username |
| ProfileSetup.IsInitialSetup | src/pages/ProfileSetup.jsx:16 | first-time setup exactly when there is no user or its location is falsy |
| ProfileSetup.ShowsPreferences | src/pages/ProfileSetup.jsx:177 | preferences are offered iff the user is not an admin |
| ProfileSetup.WithValue | src/pages/ProfileSetup.jsx:81 | the named key takes the new value and every other key keeps its value |
| ProfileSetup.KeyNamedInverts | src/pages/ProfileSetup.jsx:19-24 | each form key has its own field name, so the name leads back to the key |
| ProfileSetup.NoFieldIsNamedLikeTheImageEntries | src/pages/ProfileSetup.jsx:102-112 | no form key is named "profileImage" or "removeImage" |
| ProfileSetup.KeysAreDistinct | src/pages/ProfileSetup.jsx:19-24 | the form lists each of its keys once |
| ProfileSetup.Hydrate | src/pages/ProfileSetup.jsx:44-59 | the password is always cleared |
| ProfileSetup.HydrateTakesFetchedValues | src/pages/ProfileSetup.jsx:44-59 | every other key takes the fetched property when truthy, else that key's own default |
| ProfileSetup.HydrateForgetsPrevious | src/pages/ProfileSetup.jsx:44-59 | the hydrated form does not depend on the form it replaces |
| ProfileSetup.HydrateFromNothingIsInitial | src/pages/ProfileSetup.jsx:19-59 | the fetch's defaults are the form's initial values: hydrating from an empty user gives the initial form |
| ProfileSetup.KeepOnFailure | src/pages/ProfileSetup.jsx:67-73 | with a session user only the email is overwritten (its email or ""); without one nothing changes |
| ProfileSetup.FieldEntriesGetAll | src/pages/ProfileSetup.jsx:103-109 | over distinct keys, the values appended under a name are that key's value once, if the key is listed and included, and nothing otherwise |
| ProfileSetup.AppendFields | src/pages/ProfileSetup.jsx:103-109 | the loop appends, in key order, each key's value, skipping only an empty password |
| ProfileSetup.FormDataBuffer.Append | src/pages/ProfileSetup.jsx:102-112 | `data.append` adds one entry at the end and keeps the earlier ones |
| ProfileSetup.FieldEntries | src/pages/ProfileSetup.jsx:103-109 | the entries the `forEach` appends, key by key in order (what they hold: `FieldEntriesGetAll`) |
| ProfileSetup.EntriesFor | src/pages/ProfileSetup.jsx:104-108 | one key's entry: its name and value, or nothing for an empty password |
| ProfileSetup.Included | src/pages/ProfileSetup.jsx:104-105 | a key is sent unless it is the password and the password is empty |
| ProfileSetup.EntriesForGetAll | src/pages/ProfileSetup.jsx:104-108 | one key's entry is found under its own name only, and only when the key is sent |
| ProfileSetup.Payload | src/pages/ProfileSetup.jsx:102-112 | the whole body: the field entries, then the picture if any, then the removal flag if asked (what it holds: `PayloadContents`) |
| ProfileSetup.ImageEntries | src/pages/ProfileSetup.jsx:111 | the picked file under "profileImage", or nothing without one |
| ProfileSetup.RemoveEntries | src/pages/ProfileSetup.jsx:112 | "true" under "removeImage" when removal was asked, else nothing |
| ProfileSetup.ExtraEntriesGetAll | src/pages/ProfileSetup.jsx:111-112 | the picture is found only under "profileImage" and only when picked; "true" only under "removeImage" and only when asked |
| ProfileSetup.BodyContents | src/pages/ProfileSetup.jsx:102-112 | over any list of distinct keys that names every key, the body holds under each name what `PayloadContents` states |
| ProfileSetup.PayloadContents | src/pages/ProfileSetup.jsx:102-112 | every form field is sent once with its value, the password only when not empty; the file under "profileImage" iff one is picked; "true" under "removeImage" iff removal was asked; no other name |
| ProfileSetup.PasswordSentIffTyped | src/pages/ProfileSetup.jsx:104-105 | the password is sent iff it is not empty, and then with its value |
| ProfileSetup.Merge | src/pages/ProfileSetup.jsx:116-120 | every property is the server's when the server sent it, and else the session user's |
| ProfileSetup.MergeUnits | src/pages/ProfileSetup.jsx:120 | without a session user the result is the server's user; an empty server user keeps the session user |
| ProfileSetup.MergeTwice | src/pages/ProfileSetup.jsx:120 | two saves in a row equal one merge of both replies, the later winning; repeating a save changes nothing |
| ProfileSetup.SetupState.constructor | src/pages/ProfileSetup.jsx:19-29 | the initial form, no file, no preview, no removal, loading |
| ProfileSetup.SetupState.OnProfileFetched | src/pages/ProfileSetup.jsx:32-78 | success: the hydrated form, and the preview from the fetched image when there is one; failure: only the email is taken from the session user; loading ends on both paths; the image flags are untouched |
| ProfileSetup.SetupState.HandleChange | src/pages/ProfileSetup.jsx:80-82 | only the named key changes; no other cell changes |
| ProfileSetup.SetupState.HandleFileChange | src/pages/ProfileSetup.jsx:84-91 | with a file: it becomes the image, the preview is its object address, removal is cleared; without one nothing changes |
| ProfileSetup.SetupState.HandleRemoveImage | src/pages/ProfileSetup.jsx:93-97 | no file, no preview, removal requested; the form is untouched |
| ProfileSetup.SetupState.HandleSubmit | src/pages/ProfileSetup.jsx:99-128 | the body sent is the payload of the current cells; on success `login` gets the merged user and the stored token unchanged, then the router goes to "/profile"; on failure `login` is not called |
| AdminDashboard.WithoutRemovesId | src/pages/AdminDashboard.jsx:41 | no remaining entry has the deleted id |
| AdminDashboard.Without | src/pages/AdminDashboard.jsx:41 | the `filter` never lengthens the list (which entries it keeps: the `Without…` lemmas) |
| AdminDashboard.WithoutKeepsOthers | src/pages/AdminDashboard.jsx:41 | every entry with another id remains, with its multiplicity |
| AdminDashboard.WithoutKeepsOrder | src/pages/AdminDashboard.jsx:41 | the remaining entries keep their relative order |
| AdminDashboard.WithoutAbsentId | src/pages/AdminDashboard.jsx:41 | deleting an id no entry has changes nothing |
| AdminDashboard.WithoutIdempotent | src/pages/AdminDashboard.jsx:41 | deleting the same id twice equals deleting it once |
| AdminDashboard.AdminState.HandleDelete | src/pages/AdminDashboard.jsx:35-46 | declined: the list is unchanged and nothing is shown; confirmed: the list without that id and the success toast |
| AdminDashboard.AdminState.OnUsersFetched | src/pages/AdminDashboard.jsx:13-32 | the users become the reply on success and stay otherwise, with an error toast; loading ends on both paths |
| AdminDashboard.AdminState.constructor | src/pages/AdminDashboard.jsx:7-8 | no users yet, and loading |
| AdminDashboard.ViewOf | src/pages/AdminDashboard.jsx:48-69 | the loading text iff loading; otherwise one row per user in order; a row whose avatar is `Throws` means the whole page fails to render |
| AdminDashboard.RowOf | src/pages/AdminDashboard.jsx:73-101 | Admin badge iff role is "admin"; Active iff the profile is complete; location falls back to "N/A"; a picture iff an image is set, at the backend's uploads address; without one, the upper-cased first character of the name, or nothing for an empty name; a missing name without a picture makes the render throw; the name and email cells show the user's values as they are |
| Login.WithField | src/pages/Login.jsx:12-14 | the named field takes the value and the other field keeps its value |
| Login.LoginForm.constructor | src/pages/Login.jsx:8 | both fields start empty |
| Login.LoginForm.HandleChange | src/pages/Login.jsx:12-14 | the form becomes the old form with only the named field replaced |
| Login.LoginForm.HandleSubmit | src/pages/Login.jsx:16-32 | success: `login` with exactly the reply's user and token, then navigation to "/"; failure: no `login`, no navigation, the server's message or "Login failed" |
| Login.SignedInLandsOnHome | src/pages/Login.jsx:26 | the page a sign-in goes to is shown whoever the session holds |
| Outcomes.ServerMessageOr | src/pages/Login.jsx:30 | the server's non-empty message when the response carries one, else the fallback |
| Outcomes.Unwrap | src/pages/Dashboard.jsx:17 | `res.data ? res.data : res`: the `data` field when the reply carries one, else the reply itself |
| Register.WithField | src/pages/Register.jsx:13 | the named field takes the value and the others keep theirs |
| Register.RegisterForm.constructor | src/pages/Register.jsx:9 | all three fields start empty |
| Register.RegisterForm.HandleChange | src/pages/Register.jsx:13 | the form becomes the old form with only the named field replaced |
| Register.RegisterForm.HandleSubmit | src/pages/Register.jsx:15-29 | success: `login` with the reply's user and token, then navigation to "/setup"; failure: no `login`, no navigation, the server's message or "Registration failed" |
| Register.RegisteredUserReachesSetup | src/pages/Register.jsx:22-25 | once the session holds the returned user, "/setup" is shown; when the reply had no user the private guard sends the browser on to "/login" |

## Left out
- Js.UpperInitial: upper-cases ASCII letters only, takes the first code point rather than the first UTF-16 unit, and gives one character where JavaScript's `toUpperCase` can give two (for example "ß" becomes "SS").

- The session store's code (`src/context/AuthContext`, `src/hooks/useAuth`) is not modelled: its token persistence, hydration and logout are outside the pages, so `login` and `logout` are only recorded as calls, and `loading` is an input.
- Logout on a 401 response: none of the pages and nothing in `src/services/api.js` does it.
- `src/services/api.js`: HTTP calls, URLs, `Authorization` headers and `localStorage` reads are transport. Their results are parameters.
- `src/components/Footer.jsx` and `src/layouts/MainLayout.jsx` are markup only.
- JSX markup, class names, colours and icons. The banner colour and the edit-button text of the profile page are styling.
- Browser and DOM effects: `scrollIntoView`, `window.scrollTo` (the Home link's scroll to top), the `setTimeout` delay, the lookup of the "about" element, `preventDefault`, `window.confirm` and `URL.createObjectURL`. The last two are parameters.
- Console logging: the `console.error` calls on failed requests (src/pages/Dashboard.jsx:19, src/pages/ProfileSetup.jsx:68 and 125, src/pages/AdminDashboard.jsx:25, src/pages/Login.jsx:29) have no effect on what is shown, so they are left out.
- The joined date in the admin table, because it depends on the clock and the locale.
- Asynchronous timing. Each request is applied in full on completion, with no interleaving and no unmounting before it answers.
- React Router matching: paths are compared exactly. The router's case-insensitive, trailing-slash-tolerant matching is not modelled.
- AdminDashboard.RowOf: upper-cases ASCII letters only. JavaScript's `toUpperCase` maps every Unicode letter, and `charAt` counts UTF-16 units where Dafny counts code points.
- Profile.View: the avatar letter upper-cases ASCII letters only and takes the username's first code point, where `charAt(0).toUpperCase()` maps every Unicode letter and takes the first UTF-16 unit.
- ProfileSetup.PreviewLetter: the same ASCII-only, code-point reading of `charAt(0).toUpperCase()` as `Profile.View`.
- Dashboard.CardOf: the initial is the name's first code point. The source's `name[0]` is the first UTF-16 unit, which for a name starting outside the Basic Multilingual Plane (an emoji, say) is a lone surrogate.
- ProfileSetup.Merge: the server can send `null` for a property, and the model treats that as absent. So a `null` from the server keeps the session's value, where the spread would copy the `null`.
- A reply whose `data` is present but `null`, where the unwrapping falls back to the response object, is not modelled.
- Non-string property values, such as a numeric budget, are modelled as strings.
- A change event whose field name is not one of the form's keys cannot come from the rendered forms, and is not modelled.
- The `catch` around the admin delete cannot be reached, because nothing in its `try` rejects.
- A profile reply without a body, which would make the fetch handler throw into its own failure path, is not modelled.
