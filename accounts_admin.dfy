/**
 * The two display helpers of `accounts/admin.py`: the shortened biography
 * in the profile list and the access level shown in the user list.
 */
module AccountsAdmin {
  import opened Wrappers
  import opened PyText
  import opened Auth
  import Profiles
  import PageFilters

  const BioPreviewLength: nat := 50

  /** Shown when the user has no profile. */
  const UndefinedLevel: string := "تعریف نشده"

  /**
   * `bio_preview` (the later definition, which is the one in force): a
   * biography of at most 50 characters as it is, a longer one cut to its
   * first 50 characters followed by "...", 53 characters in all.
   */
  function BioPreview(bio: string): (preview: string)
    ensures |bio| <= BioPreviewLength ==> preview == bio
    ensures |bio| > BioPreviewLength ==> preview == bio[..BioPreviewLength] + "..." && |preview| == 53
    ensures |preview| <= if |bio| > 53 then |bio| else 53
    ensures var head := SlicePrefix(bio, BioPreviewLength); |head| <= |preview| && preview[..|head|] == head
  {
    if |bio| > BioPreviewLength then bio[..BioPreviewLength] + "..." else bio
  }

  /** The preview is the pages' `truncate_smart` filter at length 50. */
  lemma BioPreviewIsTruncation(bio: string)
    ensures BioPreview(bio) == PageFilters.TruncateSmart(bio, BioPreviewLength)
  {
  }

  /** `get_user_level`: the profile's level label, or the fixed "undefined" text without a profile. */
  function GetUserLevel(u: User): (shown: string)
    ensures u.profile.None? ==> shown == UndefinedLevel
    ensures u.profile.Some? ==> shown == Profiles.LevelLabel(u.profile.value.userLevel)
  {
    if u.profile.Some? then Profiles.LevelLabel(u.profile.value.userLevel) else UndefinedLevel
  }

  /** A user with a profile of one of the three known levels is never shown as undefined. */
  lemma KnownLevelNeverUndefined(u: User)
    requires u.profile.Some?
    requires u.profile.value.userLevel in {Profiles.Normal, Profiles.Writer, Profiles.Admin}
    ensures GetUserLevel(u) != UndefinedLevel
  {
  }
}
