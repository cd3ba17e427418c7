/**
 * The role-to-permission table of accounts/permissions.py: three fixed
 * codename groups, and the levels that receive them.
 */
module Permissions {
  import opened Wrappers
  import opened Auth

  /** `CustomPermissions.SUPER_ADMIN_PERMISSIONS`. */
  const SuperAdminPermissions: seq<(string, string)> := [
    ("can_manage_users", "می‌تواند کاربران را مدیریت کند"),
    ("can_manage_system", "می‌تواند سیستم را مدیریت کند"),
    ("can_view_all_data", "می‌تواند تمام داده‌ها را مشاهده کند"),
    ("can_export_data", "می‌تواند داده‌ها را export کند")
  ]

  /** `CustomPermissions.TOUR_ADMIN_PERMISSIONS`. */
  const TourAdminPermissions: seq<(string, string)> := [
    ("can_manage_tours", "می‌تواند تورها را مدیریت کند"),
    ("can_manage_bookings", "می‌تواند رزروها را مدیریت کند"),
    ("can_manage_categories", "می‌تواند دسته‌بندی‌ها را مدیریت کند"),
    ("can_manage_transportation", "می‌تواند وسایل نقلیه را مدیریت کند"),
    ("can_view_financial_reports", "می‌تواند گزارشات مالی را مشاهده کند")
  ]

  /** `CustomPermissions.CONTENT_ADMIN_PERMISSIONS`. */
  const ContentAdminPermissions: seq<(string, string)> := [
    ("can_manage_blog", "می‌تواند وبلاگ را مدیریت کند"),
    ("can_manage_destinations", "می‌تواند مقاصد را مدیریت کند"),
    ("can_manage_testimonials", "می‌تواند نظرات را مدیریت کند"),
    ("can_manage_pages", "می‌تواند صفحات را مدیریت کند"),
    ("can_manage_media", "می‌تواند رسانه‌ها را مدیریت کند")
  ]

  /** `[perm[0] for perm in perms]`. */
  function Codenames(perms: seq<(string, string)>): (r: seq<string>)
    ensures |r| == |perms| && forall k :: 0 <= k < |r| ==> r[k] == perms[k].0
  {
    seq(|perms|, k requires 0 <= k < |perms| => perms[k].0)
  }

  const SuperAdminCodenames: seq<string> := Codenames(SuperAdminPermissions)
  const TourAdminCodenames: seq<string> := Codenames(TourAdminPermissions)
  const ContentAdminCodenames: seq<string> := Codenames(ContentAdminPermissions)

  /**
   * The codenames a stored `user_level` receives: every role gets the
   * content permissions, and a level that is not a role gets nothing.
   */
  function LevelPermissions(level: string): (codes: seq<string>)
    ensures level !in {"super_admin", "admin", "writer"} ==> codes == []
    ensures level in {"super_admin", "admin", "writer"} ==> forall c :: c in ContentAdminCodenames ==> c in codes
  {
    if level == "super_admin" then SuperAdminCodenames + TourAdminCodenames + ContentAdminCodenames
    else if level == "admin" then TourAdminCodenames + ContentAdminCodenames
    else if level == "writer" then ContentAdminCodenames
    else []
  }

  /** `get_user_permissions(user)`: nothing without a profile, otherwise the level's codenames. */
  function GetUserPermissions(u: User): (r: seq<string>)
    ensures u.profile.None? ==> r == []
    ensures u.profile.Some? ==> r == LevelPermissions(u.profile.value.userLevel)
  {
    if u.profile.None? then [] else LevelPermissions(u.profile.value.userLevel)
  }

  /** `user_has_permission(user, codename)`: only a profile with one of the three roles holds anything. */
  function UserHasPermission(u: User, codename: string): (has: bool)
    ensures u.profile.None? ==> !has
    ensures has ==> u.profile.Some? && u.profile.value.userLevel in {"super_admin", "admin", "writer"}
  {
    codename in GetUserPermissions(u)
  }

  predicate NoDuplicates(s: seq<string>) {
    forall i, j :: 0 <= i < j < |s| ==> s[i] != s[j]
  }

  /** Each group has no repeated codename, and no codename is in two groups. */
  lemma GroupsDistinct()
    ensures NoDuplicates(SuperAdminCodenames + TourAdminCodenames + ContentAdminCodenames)
  {
  }

  /**
   * The list sizes: 14 codenames for `super_admin`, 10 for `admin`, 5 for
   * `writer`, none for any other level, never one twice.
   */
  lemma PermissionCounts(level: string)
    ensures |LevelPermissions(level)| == (
      if level == "super_admin" then 14
      else if level == "admin" then 10
      else if level == "writer" then 5
      else 0)
    ensures NoDuplicates(LevelPermissions(level))
  {
    GroupsDistinct();
    var all := SuperAdminCodenames + TourAdminCodenames + ContentAdminCodenames;
    assert TourAdminCodenames + ContentAdminCodenames == all[4..];
    assert ContentAdminCodenames == all[9..];
  }

  /** Which group a codename comes from decides which levels receive it. */
  lemma LevelPermissionsMembers(level: string, c: string)
    ensures c in LevelPermissions(level) <==>
      || (level == "super_admin" && (c in SuperAdminCodenames || c in TourAdminCodenames || c in ContentAdminCodenames))
      || (level == "admin" && (c in TourAdminCodenames || c in ContentAdminCodenames))
      || (level == "writer" && c in ContentAdminCodenames)
  {
  }

  /** An `admin` never receives a super-admin codename. */
  lemma AdminLacksSuperAdminCodenames(u: User, c: string)
    requires u.profile.Some? && u.profile.value.userLevel == "admin"
    requires c in SuperAdminCodenames
    ensures !UserHasPermission(u, c)
  {
    GroupsDistinct();
    var all := SuperAdminCodenames + TourAdminCodenames + ContentAdminCodenames;
    var i :| 0 <= i < 4 && SuperAdminCodenames[i] == c;
    assert all[i] == c;
    forall j | 4 <= j < 14 ensures all[j] != c {
      assert i < j;
    }
    assert TourAdminCodenames + ContentAdminCodenames == all[4..];
  }

  /** The rank of a level in the superset chain writer < admin < super_admin (0 for any other). */
  function LevelRank(level: string): (rank: nat)
    ensures rank <= 3
    ensures rank > 0 <==> level in {"super_admin", "admin", "writer"}
  {
    if level == "super_admin" then 3
    else if level == "admin" then 2
    else if level == "writer" then 1
    else 0
  }

  /** Permissions are nested: a higher-ranked level has every codename of a lower one. */
  lemma PermissionsNested(lower: string, higher: string, c: string)
    requires LevelRank(lower) <= LevelRank(higher)
    requires c in LevelPermissions(lower)
    ensures c in LevelPermissions(higher)
  {
  }

  /** Without a profile, or with a level outside the three roles, a user has no permission. */
  lemma NoPermissionWithoutRole(u: User, c: string)
    requires u.profile.None? || LevelRank(u.profile.value.userLevel) == 0
    ensures !UserHasPermission(u, c)
  {
  }

  /**
   * `user_has_permission` by group: a user holds a codename exactly when
   * they have a profile whose level receives the group it belongs to.
   */
  lemma UserHasPermissionByGroup(u: User, c: string)
    ensures UserHasPermission(u, c) <==>
      && u.profile.Some?
      && (|| (u.profile.value.userLevel == "super_admin" && (c in SuperAdminCodenames || c in TourAdminCodenames || c in ContentAdminCodenames))
          || (u.profile.value.userLevel == "admin" && (c in TourAdminCodenames || c in ContentAdminCodenames))
          || (u.profile.value.userLevel == "writer" && c in ContentAdminCodenames))
  {
    if u.profile.Some? {
      LevelPermissionsMembers(u.profile.value.userLevel, c);
    }
  }
}
