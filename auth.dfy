/**
 * The request's user as the rules see it: the authentication flags of the
 * framework's user, an optional premium subscription, and the optional
 * related `UserProfile` (`hasattr(user, 'profile')`).
 */
module Auth {
  import opened Wrappers
  import Profiles

  type UserId = nat

  datatype User = User(
    id: UserId,
    isAuthenticated: bool,
    isStaff: bool,
    isSuperuser: bool,
    hasPremiumSubscription: bool,
    profile: Option<Profiles.UserProfile>)

  /** `hasattr(user, 'profile') and user.profile.user_level == UserLevel.WRITER`. */
  predicate IsWriterUser(u: User) {
    u.profile.Some? && Profiles.IsWriter(u.profile.value)
  }
}
