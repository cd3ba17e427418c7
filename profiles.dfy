/**
 * The user profile of accounts/models.py: validation, age, social links,
 * completeness metrics, role flags and the "complete profiles" query.
 */
module Profiles {
  import opened Wrappers
  import opened Dates
  import PyText

  /** Stored values of the `UserLevel` choices. */
  const Normal: string := "normal"
  const Writer: string := "writer"
  const Admin: string := "admin"

  /** `get_user_level_display()`: the label of a known level, the stored value itself otherwise. */
  function LevelLabel(level: string): (shown: string)
    ensures level == Normal ==> shown == "کاربر معمولی"
    ensures level == Writer ==> shown == "نویسنده"
    ensures level == Admin ==> shown == "ادمین سایت"
    ensures level !in {Normal, Writer, Admin} ==> shown == level
  {
    if level == Normal then "کاربر معمولی"
    else if level == Writer then "نویسنده"
    else if level == Admin then "ادمین سایت"
    else level
  }

  /**
   * A `UserProfile` row. Nullable text fields are `Option<string>`; the
   * profile image is its stored file name (`None` or `""` when unset).
   */
  datatype UserProfile = UserProfile(
    bio: string,
    userLevel: string,
    profileImage: Option<string>,
    birthDate: Option<Date>,
    phoneNumber: Option<string>,
    jobTitle: Option<string>,
    company: Option<string>,
    educationLevel: Option<string>,
    fieldOfStudy: Option<string>,
    website: Option<string>,
    github: Option<string>,
    linkedin: Option<string>,
    twitter: Option<string>,
    instagram: Option<string>)

  /** Python truthiness of a nullable text field: present and not empty. */
  predicate Filled(f: Option<string>) {
    f.Some? && f.value != ""
  }

  // ---------------------------------------------------------------- clean()

  const PhoneNumberMessage: string := "شماره تلفن باید فقط شامل اعداد باشد"
  const BirthDateMessage: string := "تاریخ تولد نمی‌تواند در آینده باشد"

  /** The phone check: a non-empty phone number that is not all digits. */
  predicate PhoneNumberInvalid(p: UserProfile) {
    Filled(p.phoneNumber) && !PyText.IsDigits(p.phoneNumber.value)
  }

  /** The birth-date check: a birth date after today. */
  predicate BirthDateInFuture(p: UserProfile, today: Date) {
    p.birthDate.Some? && Before(today, p.birthDate.value)
  }

  /** What `clean()` does: return normally, or raise `ValidationError` carrying the errors dict. */
  datatype CleanOutcome = Passed | Rejected(errors: map<string, string>)

  /**
   * `clean()`: collects one message per failing field and raises only when
   * at least one was collected.
   */
  method Clean(p: UserProfile, today: Date) returns (outcome: CleanOutcome)
    ensures outcome.Passed? <==> !PhoneNumberInvalid(p) && !BirthDateInFuture(p, today)
    ensures outcome.Rejected? ==>
      && outcome.errors.Keys <= {"phone_number", "birth_date"}
      && ("phone_number" in outcome.errors <==> PhoneNumberInvalid(p))
      && ("birth_date" in outcome.errors <==> BirthDateInFuture(p, today))
      && ("phone_number" in outcome.errors ==> outcome.errors["phone_number"] == PhoneNumberMessage)
      && ("birth_date" in outcome.errors ==> outcome.errors["birth_date"] == BirthDateMessage)
  {
    var errors: map<string, string> := map[];
    if p.phoneNumber.Some? && p.phoneNumber.value != "" && !PyText.IsDigits(p.phoneNumber.value) {
      errors := errors["phone_number" := PhoneNumberMessage];
    }
    if p.birthDate.Some? && Before(today, p.birthDate.value) {
      errors := errors["birth_date" := BirthDateMessage];
    }
    assert "phone_number" in errors <==> PhoneNumberInvalid(p);
    assert "birth_date" in errors <==> BirthDateInFuture(p, today);
    assert errors.Keys <= {"phone_number", "birth_date"};
    if errors != map[] {
      outcome := Rejected(errors);
    } else {
      outcome := Passed;
    }
  }

  /** A missing or empty phone number is never a phone error. */
  lemma EmptyPhoneNeverInvalid(p: UserProfile)
    requires p.phoneNumber == None || p.phoneNumber == Some("")
    ensures !PhoneNumberInvalid(p)
  {
  }

  // ---------------------------------------------------------------- get_age()

  /** The `n`-th birthday: the birth date moved `n` years on. */
  function Anniversary(birth: Date, n: int): (day: Date)
    ensures day.year - birth.year == n
    ensures !EarlierInYear(day, birth) && !EarlierInYear(birth, day)
  {
    Date(birth.year + n, birth.month, birth.day)
  }

  /**
   * `get_age()`: `None` without a birth date; otherwise the number of whole
   * years from the birth date to today, that is the `age` whose anniversary
   * is on or before today while the next one is still to come.
   */
  function Age(p: UserProfile, today: Date): (age: Option<int>)
    ensures age.None? <==> p.birthDate.None?
    ensures age.Some? ==>
      && OnOrBefore(Anniversary(p.birthDate.value, age.value), today)
      && Before(today, Anniversary(p.birthDate.value, age.value + 1))
  {
    match p.birthDate
    case None => None
    case Some(b) =>
      var years := today.year - b.year;
      Some(if EarlierInYear(today, b) then years - 1 else years)
  }

  /** Nobody born on or before today has a negative age. */
  lemma AgeNonNegative(p: UserProfile, today: Date)
    requires p.birthDate.Some? && OnOrBefore(p.birthDate.value, today)
    ensures Age(p, today).Some? && Age(p, today).value >= 0
  {
    var b := p.birthDate.value;
    if b.year == today.year {
      assert !EarlierInYear(today, b);
    }
  }

  /** The age is the only count of years with the anniversary property. */
  lemma {:induction false} AgeUnique(p: UserProfile, today: Date, n: int)
    requires p.birthDate.Some?
    requires OnOrBefore(Anniversary(p.birthDate.value, n), today)
    requires Before(today, Anniversary(p.birthDate.value, n + 1))
    ensures Age(p, today) == Some(n)
  {
  }

  // ---------------------------------------------------------------- social links

  /** The social-link fields, in the order `get_social_links` inserts them. */
  const SocialNetworks: seq<string> := ["website", "github", "linkedin", "twitter", "instagram"]

  /** The value of the i-th social-link field. */
  function SocialField(p: UserProfile, i: nat): (field: Option<string>)
    requires i < 5
  {
    [p.website, p.github, p.linkedin, p.twitter, p.instagram][i]
  }

  /**
   * `get_social_links()`: the dict built key by key. A network is a key
   * exactly when its field is filled, and it maps to that field's value.
   */
  method GetSocialLinks(p: UserProfile) returns (links: map<string, string>)
    ensures forall key :: key in links ==> key in SocialNetworks
    ensures forall i :: 0 <= i < 5 ==> (SocialNetworks[i] in links <==> Filled(SocialField(p, i)))
    ensures forall i :: 0 <= i < 5 && Filled(SocialField(p, i)) ==> links[SocialNetworks[i]] == SocialField(p, i).value
  {
    links := map[];
    var before0 := links;
    links := AddIfFilled(links, "website", p.website);
    assert SocialNetworks[0] == "website" && SocialField(p, 0) == p.website;
    LinksStep(p, before0, links, 0);
    var before1 := links;
    links := AddIfFilled(links, "github", p.github);
    assert SocialNetworks[1] == "github" && SocialField(p, 1) == p.github;
    LinksStep(p, before1, links, 1);
    var before2 := links;
    links := AddIfFilled(links, "linkedin", p.linkedin);
    assert SocialNetworks[2] == "linkedin" && SocialField(p, 2) == p.linkedin;
    LinksStep(p, before2, links, 2);
    var before3 := links;
    links := AddIfFilled(links, "twitter", p.twitter);
    assert SocialNetworks[3] == "twitter" && SocialField(p, 3) == p.twitter;
    LinksStep(p, before3, links, 3);
    var before4 := links;
    links := AddIfFilled(links, "instagram", p.instagram);
    assert SocialNetworks[4] == "instagram" && SocialField(p, 4) == p.instagram;
    LinksStep(p, before4, links, 4);
    assert SocialNetworks[..5] == SocialNetworks;
  }

  /** One step of `get_social_links`: the network is added, with its value, when its field is filled. */
  method AddIfFilled(links: map<string, string>, key: string, value: Option<string>) returns (r: map<string, string>)
    ensures Filled(value) ==> r == links[key := value.value]
    ensures !Filled(value) ==> r == links
  {
    r := links;
    if value.Some? && value.value != "" {
      r := r[key := value.value];
    }
  }

  /** The dict after the first `j` networks were considered. */
  predicate LinksUpTo(p: UserProfile, links: map<string, string>, j: nat)
    requires j <= 5
  {
    && (forall key :: key in links ==> key in SocialNetworks[..j])
    && (forall i :: 0 <= i < j ==> (SocialNetworks[i] in links <==> Filled(SocialField(p, i))))
    && (forall i :: 0 <= i < j && Filled(SocialField(p, i)) ==> links[SocialNetworks[i]] == SocialField(p, i).value)
  }

  /** The five network names are pairwise different. */
  lemma SocialNetworksDistinct()
    ensures forall i, k :: 0 <= i < k < 5 ==> SocialNetworks[i] != SocialNetworks[k]
  {
    assert SocialNetworks[0][0] != SocialNetworks[3][0];
  }

  /** Considering network `j` extends the dict's invariant by one position. */
  lemma LinksStep(p: UserProfile, before: map<string, string>, after: map<string, string>, j: nat)
    requires j < 5 && LinksUpTo(p, before, j)
    requires Filled(SocialField(p, j)) ==> after == before[SocialNetworks[j] := SocialField(p, j).value]
    requires !Filled(SocialField(p, j)) ==> after == before
    ensures LinksUpTo(p, after, j + 1)
  {
    SocialNetworksDistinct();
    assert SocialNetworks[..j + 1] == SocialNetworks[..j] + [SocialNetworks[j]];
    forall i | 0 <= i < j ensures SocialNetworks[i] in SocialNetworks[..j] {
      assert SocialNetworks[..j][i] == SocialNetworks[i];
    }
    forall key | key in SocialNetworks[..j] ensures key != SocialNetworks[j] {
      var i :| 0 <= i < j && SocialNetworks[..j][i] == key;
    }
  }

  // ---------------------------------------------------------------- completeness

  /**
   * `has_complete_profile()`: bio, profile image and job title are all
   * filled, which are the first three of the fields the completion
   * percentage counts.
   */
  function HasCompleteProfile(p: UserProfile): (complete: bool)
    ensures complete <==> CheckedFields(p)[0] && CheckedFields(p)[1] && CheckedFields(p)[2]
  {
    p.bio != "" && Filled(p.profileImage) && Filled(p.jobTitle)
  }

  /** Truthiness of the seven fields the completion percentage checks, in the source's order. */
  function CheckedFields(p: UserProfile): (fs: seq<bool>)
    ensures |fs| == 7
  {
    [ p.bio != "", Filled(p.profileImage), Filled(p.jobTitle), Filled(p.company),
      Filled(p.educationLevel), Filled(p.fieldOfStudy), Filled(p.phoneNumber) ]
  }

  function CountTrue(bs: seq<bool>): (n: nat)
    ensures n <= |bs|
  {
    if bs == [] then 0 else CountTrue(bs[..|bs| - 1]) + (if bs[|bs| - 1] then 1 else 0)
  }

  /** `int(c / 7 * 100)` where `c` of the 7 checked fields are filled. */
  function CompletionPercent(p: UserProfile): (percent: int)
    ensures 0 <= percent <= 100
  {
    100 * CountTrue(CheckedFields(p)) / 7
  }

  /** `get_profile_completion_percentage()`: counts the filled fields one by one. */
  method GetProfileCompletionPercentage(p: UserProfile) returns (percent: int)
    ensures percent == CompletionPercent(p)
  {
    var fields := CheckedFields(p);
    var completed := 0;
    for i := 0 to |fields|
      invariant completed == CountTrue(fields[..i])
    {
      assert fields[..i + 1][..i] == fields[..i];
      if fields[i] {
        completed := completed + 1;
      }
    }
    assert fields[..|fields|] == fields;
    percent := 100 * completed / 7;
  }

  /** Every count is true exactly when every entry is. */
  lemma {:induction false} CountTrueAll(bs: seq<bool>)
    ensures CountTrue(bs) == |bs| <==> forall i :: 0 <= i < |bs| ==> bs[i]
  {
    if bs != [] {
      var init := bs[..|bs| - 1];
      CountTrueAll(init);
      assert forall i :: 0 <= i < |init| ==> init[i] == bs[i];
    }
  }

  /** The percentage lies in 0..100 and is 100 exactly when all seven fields are filled. */
  lemma CompletionPercentRange(p: UserProfile)
    ensures 0 <= CompletionPercent(p) <= 100
    ensures CompletionPercent(p) == 100 <==> forall i :: 0 <= i < 7 ==> CheckedFields(p)[i]
  {
    CountTrueAll(CheckedFields(p));
  }

  /** A sequence whose first `i` entries are true counts at least `i`. */
  lemma {:induction false} CountTrueLowerBound(bs: seq<bool>, i: nat)
    requires i <= |bs| && forall j :: 0 <= j < i ==> bs[j]
    ensures CountTrue(bs) >= i
  {
    if |bs| == i {
      CountTrueAll(bs);
    } else {
      var init := bs[..|bs| - 1];
      CountTrueLowerBound(init, i);
    }
  }

  /** A complete profile (three of the seven fields) is at least 42 percent complete. */
  lemma CompleteProfileAtLeast42(p: UserProfile)
    requires HasCompleteProfile(p)
    ensures CompletionPercent(p) >= 42
  {
    CountTrueLowerBound(CheckedFields(p), 3);
  }

  /** A fully complete profile is a complete profile. */
  lemma FullPercentIsComplete(p: UserProfile)
    requires CompletionPercent(p) == 100
    ensures HasCompleteProfile(p)
  {
    CompletionPercentRange(p);
    assert CheckedFields(p)[0] && CheckedFields(p)[1] && CheckedFields(p)[2];
  }

  // ---------------------------------------------------------------- roles

  /** `is_writer`: the profile's level is the one shown as the writer label. */
  function IsWriter(p: UserProfile): (writer: bool)
    ensures writer ==> LevelLabel(p.userLevel) == "نویسنده"
    ensures LevelLabel(p.userLevel) == "نویسنده" && p.userLevel in {Normal, Writer, Admin} ==> writer
  {
    p.userLevel == Writer
  }

  /** `is_admin`: the profile's level is the one shown as the site-admin label. */
  function IsAdmin(p: UserProfile): (admin: bool)
    ensures admin ==> LevelLabel(p.userLevel) == "ادمین سایت"
    ensures LevelLabel(p.userLevel) == "ادمین سایت" && p.userLevel in {Normal, Writer, Admin} ==> admin
  {
    p.userLevel == Admin
  }

  /** No profile is both a writer and an admin. */
  lemma WriterAndAdminExclusive(p: UserProfile)
    ensures !(IsWriter(p) && IsAdmin(p))
  {
  }

  // ---------------------------------------------------------------- manager query

  /** The default `threshold` of `get_complete_profiles`. */
  const DefaultCompletionThreshold: int := 70

  /**
   * Under the default threshold a profile qualifies exactly when at least
   * five of the seven counted fields are filled (4/7 is 57%, 5/7 is 71%).
   */
  lemma DefaultThresholdMeansFiveFields(p: UserProfile)
    ensures CompletionPercent(p) >= DefaultCompletionThreshold <==> CountTrue(CheckedFields(p)) >= 5
  {
    var c := CountTrue(CheckedFields(p));
    assert c <= 7;
    if c >= 5 {
      assert 100 * c >= 500;
    } else {
      assert 100 * c <= 400;
    }
  }

  /** The profiles whose completion percentage reaches `threshold`, in their original order. */
  function CompleteProfiles(profiles: seq<UserProfile>, threshold: int): (r: seq<UserProfile>)
    ensures |r| <= |profiles|
  {
    if profiles == [] then []
    else
      var last := profiles[|profiles| - 1];
      CompleteProfiles(profiles[..|profiles| - 1], threshold)
        + (if CompletionPercent(last) >= threshold then [last] else [])
  }

  /** A profile is kept exactly when it is one of the input and reaches the threshold. */
  lemma {:induction false} CompleteProfilesMembers(profiles: seq<UserProfile>, threshold: int, p: UserProfile)
    ensures p in CompleteProfiles(profiles, threshold) <==> p in profiles && CompletionPercent(p) >= threshold
  {
    if profiles != [] {
      var init := profiles[..|profiles| - 1];
      CompleteProfilesMembers(init, threshold, p);
      assert profiles == init + [profiles[|profiles| - 1]];
    }
  }

  /** `get_complete_profiles(threshold)`: appends each qualifying profile in turn. */
  method GetCompleteProfiles(profiles: seq<UserProfile>, threshold: int) returns (complete: seq<UserProfile>)
    ensures complete == CompleteProfiles(profiles, threshold)
  {
    complete := [];
    for i := 0 to |profiles|
      invariant complete == CompleteProfiles(profiles[..i], threshold)
    {
      assert profiles[..i + 1][..i] == profiles[..i];
      var percent := GetProfileCompletionPercentage(profiles[i]);
      if percent >= threshold {
        complete := complete + [profiles[i]];
      }
    }
    assert profiles[..|profiles|] == profiles;
  }
}
