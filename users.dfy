/**
 * The user record the server returns and the session holds. Every string
 * property may be missing, so each is optional; `isProfileComplete` is a
 * boolean property. `createdAt` is not modelled.
 */
module Users {
  import opened Wrappers

  datatype User = User(
    id: Option<string>,            // `_id`
    name: Option<string>,
    username: Option<string>,
    email: Option<string>,
    role: Option<string>,
    location: Option<string>,
    budget: Option<string>,
    gender: Option<string>,
    smoking: Option<string>,
    cleanliness: Option<string>,
    bio: Option<string>,
    isLookingForRoommate: Option<string>,
    hasApartment: Option<string>,
    foodPreference: Option<string>,
    sleepSchedule: Option<string>,
    profileImage: Option<string>,
    isProfileComplete: Option<bool>)

  /** The string-valued properties of a user, for stating things about all of them at once. */
  datatype Attr =
    | Id | Name | Username | Email | Role | Location | Budget | Gender | Smoking
    | Cleanliness | Bio | IsLookingForRoommate | HasApartment | FoodPreference
    | SleepSchedule | ProfileImage

  function Get(u: User, a: Attr): Option<string>
  {
    match a
    case Id => u.id
    case Name => u.name
    case Username => u.username
    case Email => u.email
    case Role => u.role
    case Location => u.location
    case Budget => u.budget
    case Gender => u.gender
    case Smoking => u.smoking
    case Cleanliness => u.cleanliness
    case Bio => u.bio
    case IsLookingForRoommate => u.isLookingForRoommate
    case HasApartment => u.hasApartment
    case FoodPreference => u.foodPreference
    case SleepSchedule => u.sleepSchedule
    case ProfileImage => u.profileImage
  }

  /** A user object with no properties at all (`{}`). */
  const NoProperties: User :=
    User(None, None, None, None, None, None, None, None, None, None, None, None, None, None, None, None, None)

  /** `user.role === 'admin'`: only the exact string grants admin rights. */
  predicate IsAdmin(u: User)
  {
    u.role == Some("admin")
  }

  /** `u && u.role === 'admin'` for a possibly absent user. */
  predicate IsAdminUser(u: Option<User>)
  {
    u.Some? && IsAdmin(u.value)
  }
}
