# Travel agency business rules, modelled in Dafny

This project models the business rules of a Django travel-agency site and
proves properties about them:

- the promo-code engine: validity, amount, scope, and use counter;
- the tour helpers: availability, current price, and service lists;
- the defaults a tour booking receives when saved: reference code and 24-hour expiry;
- the role → permission table;
- user-profile validation and metrics;
- reservation pricing and its code format;
- page publication and access rules, and the page → blog-post link;
- the admin hooks for posts and pages;
- the small string helpers behind the templates.

Each source file has its own module:

| module | source |
|---|---|
| `Tours` | `tours/models.py` |
| `Permissions` | `accounts/permissions.py` |
| `Profiles` | `accounts/models.py` |
| `Reservations` | `reservation/models.py` |
| `Pages` | `pages/models.py` |
| `BlogAdmin` | `blog/admin.py` |
| `PagesAdmin` | `pages/admin.py` |
| `AccountsAdmin` | `accounts/admin.py` |
| `PageFilters` | `pages/templatetags/page_filters.py` |
| `Services` | `services/models.py` |
| `Testimonials` | `testimonials/models.py` |

Five helper modules support them:

- `Wrappers` holds the Option type.
- `Dates` holds Python `date` ordering and instants as whole seconds.
- `PyText` states the Python string builtins the rules use on `seq<char>`: `strip`, `split('\n')`, `isdigit`, `str(n)`, `c * n`, `s[:k]`.
- `Auth` holds the request user.
- `BlogModels` holds the blog `Post`.

**Representations:**

- Money fields are `Decimal` and are modelled as exact `real`s.
- Nullable fields are `Option`.
- Python truthiness is written out. A text counts as set when present and non-empty; a Decimal when present and non-zero; a model instance when not null.

**Classes and values:**

- Objects the code changes in place are Dafny classes whose methods state the new state:
  - `Discount.use_discount`;
  - `TourBooking.save`;
  - `Reservation.save`;
  - the effective `Page.save`;
  - the admin `save_model` hooks, which update a `Post` or a `Page`.
- The loops of `UserProfile.get_profile_completion_percentage` and `UserProfileManager.get_complete_profiles` become methods with loop invariants, each proved equal to a specification function.
- Everything else is a function of values.

**Parameters standing in for I/O:**

- "Today" and "now" are parameters.
- The random draws are parameters: the 4-digit booking suffix, and the reservation code's digit and letter picks.
- Many-to-many relations are sets of primary keys.
- Querysets are sequences.

The model follows these behaviours of the code:

- `used_count` can exceed `max_uses`: `use_discount` does not check the limit.
- A `max_discount` of 0 means no cap.
- The scope check of `calculate_discount_amount` is skipped when no tour or category is passed.
- `valid_from <= valid_to` is not enforced.
- Booking references are not guaranteed unique. No uniqueness is claimed.

## Model

| member | source | states |
|---|---|---|
| PyText.Strip | services/models.py:38 | `strip()` returns a middle slice of the string whose removed prefix and suffix are all whitespace and which neither starts nor ends with whitespace |
| PyText.StripBlank | services/models.py:38 | a line is dropped by `strip()` exactly when every character is whitespace |
| PyText.StripIdempotent | services/models.py:38 | stripping an already stripped line changes nothing |
| PyText.SplitLines | services/models.py:38 | `split('\n')` gives at least one segment and no segment contains a newline |
| PyText.JoinSplitLines | services/models.py:38 | joining the segments with newlines gives back the text |
| PyText.SplitJoinLines | services/models.py:38 | splitting newline-free parts joined by newlines gives back the parts |
| PyText.KeepNonEmpty | services/models.py:38 | the filter `if x` keeps no empty string and never lengthens the list |
| PyText.KeptPositions | services/models.py:38 | the kept positions are in range and strictly increasing |
| PyText.KeepNonEmptyAt | services/models.py:38 | the k-th kept string is the input string at the k-th kept position (order is preserved) |
| PyText.KeptPositionsExact | services/models.py:38 | a position is kept exactly when its string is non-empty |
| PyText.KeepNonEmptyKeepsAll | services/models.py:38 | nothing is dropped exactly when no string is empty |
| PyText.NonBlankLinesItems | services/models.py:38 | one item per non-blank line, in line order, each that line stripped; at most as many items as lines, equal exactly when no line is blank |
| PyText.NatToString | testimonials/models.py:35 | `str(n)` is non-empty ASCII digits without a leading zero |
| PyText.ParseNatToString | testimonials/models.py:35 | reading the decimal digits of `str(n)` back gives `n` |
| PyText.NatToStringLength | tours/models.py:318 | a number with k digits is written with k characters |
| PyText.NatToStringLengthAtMost | tours/models.py:318 | a number below 10^k is written with at most k characters |
| PyText.RepeatChar | testimonials/models.py:38 | `c * n` has `max(n, 0)` characters, all equal to `c` |
| PyText.SlicePrefix | pages/templatetags/page_filters.py:10 | `s[:k]` is a prefix of `s`: of length k for 0 ≤ k ≤ len, the whole string for k ≥ len, and len+k characters for negative k |
| Profiles.LevelLabel | accounts/models.py:17-20 | the display label of each of the three levels, the stored value for any other |
| Profiles.Clean | accounts/models.py:169-181 | passes iff the phone is empty or all digits and the birth date is not after today; otherwise the error dict has exactly the failing fields with their messages |
| Profiles.EmptyPhoneNeverInvalid | accounts/models.py:173-174 | a missing or empty phone number is never an error |
| Profiles.Age | accounts/models.py:184-195 | `None` without a birth date; otherwise the age whose anniversary is on or before today while the next is after it |
| Profiles.AgeNonNegative | accounts/models.py:184-195 | a birth date on or before today gives an age ≥ 0 |
| Profiles.AgeUnique | accounts/models.py:184-195 | the age is the only year count with that anniversary property |
| Profiles.GetSocialLinks | accounts/models.py:202-217 | keys are among the five networks; a network is a key iff its field is non-empty, mapped to the field's value |
| Profiles.CountTrueAll | accounts/models.py:234-237 | the count of set fields equals their number iff every field is set |
| Profiles.GetProfileCompletionPercentage | accounts/models.py:228-240 | the counting loop returns `floor(100·c/7)` for the number `c` of the seven fields that are set |
| Profiles.CompletionPercentRange | accounts/models.py:228-240 | the percentage lies in 0..100 and is 100 exactly when all seven fields are set |
| Profiles.CompleteProfileAtLeast42 | accounts/models.py:219-240 | a profile with bio, image and job title is at least 42% complete |
| Profiles.HasCompleteProfile | accounts/models.py:219-226 | complete iff the first three counted fields (bio, image, job title) are all filled |
| Profiles.FullPercentIsComplete | accounts/models.py:219-240 | a 100% profile has a complete profile |
| Profiles.IsWriter | accounts/models.py:249-252 | a writer's level shows the writer label, and among the known levels only the writer level does |
| Profiles.IsAdmin | accounts/models.py:254-257 | an admin's level shows the site-admin label, and among the known levels only the admin level does |
| Profiles.WriterAndAdminExclusive | accounts/models.py:249-257 | no profile is both writer and admin |
| Profiles.DefaultThresholdMeansFiveFields | accounts/models.py:313 | under the default threshold of 70 a profile qualifies iff at least five of the seven counted fields are filled |
| Profiles.CompleteProfilesMembers | accounts/models.py:313-319 | a profile is returned iff it is in the input and reaches the threshold |
| Profiles.GetCompleteProfiles | accounts/models.py:313-319 | the loop returns the qualifying profiles in their original order |
| Permissions.Codenames | accounts/permissions.py:40-42 | the codename list has one entry per permission pair: its first component |
| Permissions.LevelPermissions | accounts/permissions.py:39-55 | a level outside the three roles gets nothing; every role gets all the content codenames |
| Permissions.GetUserPermissions | accounts/permissions.py:33-55 | no profile gives no codename; otherwise the level's codenames |
| Permissions.GroupsDistinct | accounts/permissions.py:8-31 | the 14 codenames of the three groups are pairwise distinct |
| Permissions.PermissionCounts | accounts/permissions.py:33-55 | super_admin gets 14, admin 10, writer 5, any other level 0 codenames, never one twice |
| Permissions.LevelPermissionsMembers | accounts/permissions.py:39-55 | which group a codename is in decides exactly which levels get it |
| Permissions.AdminLacksSuperAdminCodenames | accounts/permissions.py:46-49 | an admin never holds a super-admin codename |
| Permissions.PermissionsNested | accounts/permissions.py:39-53 | writer ⊆ admin ⊆ super_admin |
| Permissions.UserHasPermission | accounts/permissions.py:57-60 | no profile holds nothing; whoever holds a codename has a profile with one of the three roles |
| Permissions.NoPermissionWithoutRole | accounts/permissions.py:33-55 | without a profile, or with a level outside the three, a user has no permission |
| Permissions.UserHasPermissionByGroup | accounts/permissions.py:57-60 | a user holds a codename iff their level receives its group |
| Tours.FeaturesDisplay | tours/models.py:95-104 | one label per stored feature, in order, each the feature's translation or the feature itself |
| Tours.FeatureLabelKnown | tours/models.py:96-104 | a feature is translated iff it is one of the six known keys; known keys have distinct labels |
| Tours.IsAvailable | tours/models.py:227-228 | bookable iff active and at least one place left |
| Tours.CurrentPrice | tours/models.py:230-231 | the discount price when set and non-zero, the base price otherwise |
| Tours.IncludesList | tours/models.py:236-237 | the non-blank lines of `includes`, stripped, in order (as `PyText.NonBlankLinesItems`) |
| Tours.ExcludesList | tours/models.py:239-240 | the non-blank lines of `excludes`, stripped, in order |
| Tours.Discount.constructor | tours/models.py:397-421 | a new code has the column defaults: all tours, no cap, minimum 0, unlimited, unused, active |
| Tours.Discount.CalculateDiscountAmount | tours/models.py:444-469 | 0 when invalid, below the minimum or out of scope; otherwise a percentage of the amount or the flat value, limited by a non-zero cap |
| Tours.Discount.CanApplyToTour | tours/models.py:471-482 | false when invalid; all tours yes; specific tours iff the tour is listed; categories iff the tour's non-null category is listed; any other scope no |
| Tours.Discount.UseDiscount | tours/models.py:484-488 | the counter grows by one iff the code is limited, never past the limit from below it, but past it from an exhausted state |
| Tours.Discount.IsValid | tours/models.py:434-442 | valid exactly when the code is active, today lies in its window and it is not used up (no limit, or fewer uses than the limit) |
| Tours.ExhaustedNeverValid | tours/models.py:434-442 | a limited code used `max_uses` times is invalid and yields 0 for every amount, tour and category |
| Tours.ValidOnlyInWindow | tours/models.py:434-442 | invalid before `valid_from` and after `valid_to` |
| Tours.DiscountWithinCap | tours/models.py:465-467 | with a non-zero cap the reduction never exceeds it |
| Tours.PercentageWithinBooking | tours/models.py:460-461 | a 0–100 percentage of a non-negative amount stays within 0..amount |
| Tours.FixedNotClampedToBooking | tours/models.py:462-469 | an uncapped fixed reduction larger than the booking is returned as is |
| Tours.ScopeSkippedWithoutTour | tours/models.py:453-457 | with no tour and no category the result does not depend on the scope |
| Tours.TenPercentExample | tours/models.py:460-461 | 10% of 1,000,000 is 100,000 |
| Tours.CappedFixedExample | tours/models.py:462-467 | a fixed 50,000 capped at 30,000 gives 30,000 for any eligible amount |
| Tours.CanApplyMatchesCalculation | tours/models.py:444-482 | for a tour with a category and a known scope, `can_apply_to_tour` agrees with the calculation's eligibility |
| Tours.CanApplyStricterThanCalculation | tours/models.py:444-482 | for a category-less tour under the category scope, or an unknown scope, the calculation grants what `can_apply_to_tour` refuses |
| Tours.BookingReference | tours/models.py:314-318 | "TR", then the decimal digits of a non-negative timestamp, then the digits of the draw |
| Tours.BookingReferenceFormat | tours/models.py:314-318 | a reference starts with "TR", ends with the four digits of the draw, is all digits after "TR" and reads back to the timestamp for a non-negative one, and fits 20 characters for timestamps below 10^14 |
| Tours.BookingReferenceTimestamp | tours/models.py:314-318 | for a non-negative timestamp, the digits between "TR" and the draw parse back to the timestamp |
| Tours.TourBooking.constructor | tours/models.py:269-304 | a new booking has one adult, pending status, no reference and no deadline |
| Tours.TourBooking.Save | tours/models.py:314-324 | fills a missing reference and a missing pending deadline (now + 24h) only; afterwards both are present so a second save changes nothing; a fresh deadline means expired exactly after now + 24h |
| Tours.TourBooking.TotalPassengers | tours/models.py:326-327 | the passengers are the adults, children and infants together |
| Tours.TourBooking.IsExpired | tours/models.py:329-332 | no deadline never expires; with one, expired iff now is at least a second past it |
| Tours.ExpiryPersists | tours/models.py:329-332 | once expired, expired at every later instant |
| Tours.ExpiryBoundary | tours/models.py:329-332 | not expired at the deadline itself, expired one second later |
| Reservations.GenerateReservationCode | reservation/models.py:75-76 | "TRV", eight ASCII digits, four ASCII capitals: 15 characters, the column's `max_length` |
| Reservations.DecodeReservationCode | reservation/models.py:75-76 | a string decodes iff it has the generated shape, into valid draws |
| Reservations.DecodeGenerate | reservation/models.py:75-76 | decoding a generated code gives back its draws |
| Reservations.GenerateDecode | reservation/models.py:75-76 | every string of that shape is the code of the draws it decodes to |
| Reservations.SavedTotal | reservation/models.py:68-71 | succeeds iff the tour has a non-zero child price; with no children the total is adults at the current price |
| Reservations.SavedTotalPerTraveller | reservation/models.py:68-71 | with a child price, an empty reservation costs 0, each adult adds the current price and each child the child price |
| Reservations.IntendedChildPrice | reservation/models.py:69 | the child price, or 70% of the current price when unset or zero |
| Reservations.IntendedTotal | reservation/models.py:68-71 | agrees with the as-written total wherever that succeeds; without a child price it is (adults + 0.7·children)·current price |
| Reservations.ChildPriceFallbackFails | reservation/models.py:69 | a tour without a child price makes the as-written total fail even for a reservation with no children |
| Reservations.IntendedChildNotAboveAdult | reservation/models.py:69 | under the fallback a child never costs more than an adult |
| Reservations.Reservation.constructor | reservation/models.py:33-48 | a new reservation has one adult, nothing paid and no code |
| Reservations.Reservation.Save | reservation/models.py:63-73 | a missing code is generated and an existing one kept; the total is recomputed from the tour whatever it was; without a child price the save fails with the code already assigned |
| Reservations.Reservation.SaveIntended | reservation/models.py:63-73 | the same save with the 70% fallback: always succeeds with the intended total |
| Reservations.Reservation.TravelersCount | reservation/models.py:78-79 | adults, children and infants together |
| Reservations.Reservation.RemainingAmount | reservation/models.py:81-82 | paid plus remaining is the total; nothing remains iff the total is paid |
| BlogModels.Post.constructor | blog/models.py:14-25 | a post with the given author, title, content, boolean status and date |
| Pages.AccessAllowed | pages/models.py:129-137 | public: everyone; private: authenticated staff; premium: authenticated staff or subscribers; other levels: nobody |
| Pages.Page.IsAccessibleBy | pages/models.py:129-137 | a public page is open to all, and an anonymous visitor may read only public pages |
| Pages.AccessMonotone | pages/models.py:129-137 | private-accessible ⇒ premium-accessible ⇒ public-accessible |
| Pages.BlogPostCreateRejected | pages/models.py:168-176 | `Post` has no `excerpt` field, so the create call's keywords are rejected; without it they would be accepted |
| Pages.Page.constructor | pages/models.py:35-90 | a new page is a public draft without dates, editors or blog post |
| Pages.Page.Save | pages/models.py:157-179 | as written: raises exactly when a published page asks for a blog post and has none, and links nothing |
| Pages.Page.SaveIntended | pages/models.py:157-179 | creates and links a fresh published post with the page's title, content and author only when asked and none is linked; afterwards none is wanted, so a second save creates nothing |
| Pages.Page.IsPublished | pages/models.py:122-127 | published exactly when the status is published, a date is set, and there is no expiration date or it is still in the future |
| Pages.PublicationEndsAtExpiry | pages/models.py:122-127 | a page published now was published at every earlier instant and is not published from its expiration date on |
| BlogAdmin.OwnPosts | blog/admin.py:14-19 | the posts by one author, each from the input |
| BlogAdmin.GetQueryset | blog/admin.py:14-19 | a writer sees exactly the listed posts they wrote; anyone else sees every post |
| BlogAdmin.GetReadonlyFields | blog/admin.py:48-58 | non-writers get exactly the admin's three read-only fields; a writer gets those, then author, then status and published_date when editing an existing post, and nothing else |
| BlogAdmin.SavedPublishedDate | blog/admin.py:66-73 | the date is cleared unless the status equals the string 'published'; then a set date is kept and a missing one becomes now |
| BlogAdmin.IntendedPublishedDate | blog/admin.py:66-73 | a published post keeps its date or is dated now; an unpublished one has none |
| BlogAdmin.SaveModelClearsEveryDate | blog/admin.py:66-73 | a boolean status never equals 'published', so every date is cleared, unlike the intended rule for published posts |
| BlogAdmin.SaveModel | blog/admin.py:60-75 | a missing author becomes the requesting user and an existing one is kept; the publication date ends up cleared |
| BlogAdmin.SaveModelIntended | blog/admin.py:60-75 | the same author rule, with the intended publication-date rule on the boolean status |
| BlogAdmin.HasAddPermission | blog/admin.py:85-87 | always allowed |
| BlogAdmin.HasChangePermission | blog/admin.py:89-93 | a writer with a post: iff they wrote it; otherwise allowed |
| BlogAdmin.HasDeletePermission | blog/admin.py:95-99 | a writer with a post: iff they wrote it; otherwise allowed |
| BlogAdmin.WriterPermissionsMatchQueryset | blog/admin.py:14-99 | change equals delete permission, and both hold exactly for the posts the user's list shows |
| PagesAdmin.OwnedPages | pages/admin.py:59-64 | the pages the user authors or edits, each from the input |
| PagesAdmin.GetQueryset | pages/admin.py:59-64 | a superuser sees every page; anyone else exactly the listed pages they author or edit |
| PagesAdmin.GetReadonlyFields | pages/admin.py:66-70 | `blog_post` alone for superusers (the later class attribute at line 85); exactly `blog_post`, `author`, `access_level` in that order for everyone else |
| PagesAdmin.SaveModel | pages/admin.py:72-75 | a missing author becomes the requesting user, an existing one is kept |
| PagesAdmin.HasDeletePermission | pages/admin.py:86-91 | superusers always; others iff there is a page they author or edit |
| PagesAdmin.DeleteMatchesQueryset | pages/admin.py:59-91 | a listed page may be deleted iff the user's list shows it |
| PagesAdmin.SavedAuthorMayDelete | pages/admin.py:72-91 | the author a page was saved with may delete it |
| AccountsAdmin.BioPreview | accounts/admin.py:88-89 | a bio of at most 50 characters unchanged, a longer one its first 50 plus "..." (53 characters); always starts with `bio[:50]`, length ≤ max(len, 53) |
| AccountsAdmin.BioPreviewIsTruncation | accounts/admin.py:88-89 | the preview is `truncate_smart(bio, 50)` |
| AccountsAdmin.GetUserLevel | accounts/admin.py:35-38 | the profile's level label, or the fixed "undefined" text without a profile |
| AccountsAdmin.KnownLevelNeverUndefined | accounts/admin.py:35-38 | a user with one of the three known levels is never shown as undefined |
| PageFilters.TruncateSmart | pages/templatetags/page_filters.py:6-11 | unchanged when not longer than `arg`; otherwise `value[:arg]` plus "..." (arg + 3 characters for arg ≥ 0); always starts with `value[:arg]` |
| PageFilters.TruncateSmartIdempotent | pages/templatetags/page_filters.py:6-11 | for arg ≥ 0 truncating twice is truncating once |
| PageFilters.GetImageUrl | pages/templatetags/page_filters.py:13-18 | the image's URL when an image is set, the default otherwise |
| PageFilters.GetImageUrlPlaceholder | pages/templatetags/page_filters.py:14-18 | with no image and no explicit default the result is the placeholder picture |
| Services.FeaturesList | services/models.py:37-38 | the non-blank lines of `features`, stripped, in order; no item empty; as many items as lines iff no line is blank |
| Services.CleanLinesKept | services/models.py:37-38 | a text with no blank line yields one feature per line |
| Testimonials.RatingStars | testimonials/models.py:37-38 | exactly `rating` characters, all stars |
| Testimonials.RatingChoicesAreStars | testimonials/models.py:4-10 | the choices are 1..5 in order, each labelled with its own star string |
| Testimonials.StarsForChoice | testimonials/models.py:4-17 | a rating among the choices shows 1 to 5 stars; the default shows five |
| Testimonials.ToString | testimonials/models.py:34-35 | the name, " - ", the rating's digits and a star; the digits read back to the rating and have no leading zero |

## Left out

- Views, URL configurations, forms, feeds and context processors are not part of this model. They are HTTP, ORM and template plumbing.
- Persistence is not modelled: every `super().save()`, queryset filter and many-to-many `.all()`. Relations are sets of keys and querysets are sequences.
- `PagesAdmin.GetQueryset` returns each page once. The OR of two filters across the editors join can return a page several times in SQL; that duplication is not modelled.
- The clock and randomness are parameters. `TourBooking.save` reads the clock twice, for the timestamp and the deadline; the model uses one instant in whole seconds. Uniqueness of booking references and reservation codes is not claimed.
- Atomicity and concurrency of `use_discount`'s read-modify-write are not modelled.
- Decimal context rounding and `max_digits` limits are not modelled; money is exact.
- `Profiles.GetProfileCompletionPercentage`: the source computes `int((c / 7) * 100)` in floating point. The model uses `floor(100·c/7)`, which is the value the float expression takes for c = 0..7.
- `Profiles.Clean`: `str.isdigit` is modelled for ASCII, Arabic-Indic and Extended Arabic-Indic digits only. Other Unicode characters Python counts as digits, such as superscripts, are not modelled.
- `Profiles.GetSocialLinks` returns a map. The insertion order of the Python dict is not modelled.
- `tours/admin.py` and `PostAdmin.get_fieldsets` are not part of this model. Their role checks read `UserLevel.SUPER_ADMIN`, which `UserLevel` does not define. The hooks that test for a profile first (tours/admin.py:25-27, 40-42, 158-160, 170-172, 192-194, 207-209) raise for every user with a profile. The fieldset hooks that test `is_superuser` first (blog/admin.py:22-23, tours/admin.py:62-63) raise only for non-superusers with a profile.
- The first `Page.save` (pages/models.py:110-117) is not modelled. The second definition shadows it.
- The first `bio_preview` (accounts/admin.py:82-84) is not modelled. The later definition shadows it.
- The first pair of `has_add_permission`/`has_change_permission` (blog/admin.py:77-83) is not modelled. The identical later pair shadows it.
- `Pages.Page.Save`: the page row is stored before the failing blog-post step. That write is not modelled.
- `PageFilters.TruncateSmart` takes an integer `arg`. A template passing a string argument makes the comparison raise; that case is left out.
- `PageFilters.GetImageUrl`: the storage backend's URL computation is not modelled. The URL is given with the file.
- The file-system side effects of `UserProfile.save` and `delete`, and the upload path built from the clock, are not modelled.
- `Permissions.GetUserPermissions` accepts any stored level string. `super_admin` is not one of the `UserLevel` choices, so a profile reaches that branch only through a raw stored value.
- `Testimonials.RatingStars` takes any natural rating. The field's choices 1..5 are not enforced on assignment, so they appear only as the hypothesis of `Testimonials.StarsForChoice`.

## Findings

| source | as written | input that shows it | evidently intended | confidence | as-written member | corrected member |
|---|---|---|---|---|---|---|
| blog/admin.py:67-73 | compares `Post.status`, a `BooleanField` (blog/models.py:22), with the string `'published'`, which is never equal, so the date is always cleared | a post with `status=True` and a `published_date` loses its date on every admin save | a published post keeps its date, or gets the current time; an unpublished one has none | not executed | BlogAdmin.SaveModel, BlogAdmin.SaveModelClearsEveryDate | BlogAdmin.SaveModelIntended, BlogAdmin.IntendedPublishedDate |
| pages/models.py:168-176 | `Post.objects.create(..., excerpt=...)`: `Post` has no `excerpt` field, so the call raises `TypeError` | a page with `publish_to_blog=True`, status `published` and no `blog_post`: save raises and no post is linked | create a published post from the page and link it, once | not executed | Pages.Page.Save, Pages.BlogPostCreateRejected | Pages.Page.SaveIntended |
| reservation/models.py:69 | `adult_price * 0.7` multiplies a `Decimal` by a `float`, which raises `TypeError` | a reservation for a tour whose `child_price` is null, even with no children: save raises | children pay 70% of the adult price | not executed | Reservations.Reservation.Save, Reservations.ChildPriceFallbackFails | Reservations.Reservation.SaveIntended, Reservations.IntendedTotal |
