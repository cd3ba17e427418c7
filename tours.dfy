/**
 * The business rules of `tours/models.py`: seat feature labels, tour
 * availability and price, the one-item-per-line service lists, promo-code
 * discounts (`Discount`) and the defaults a tour booking receives when it is
 * first saved (`TourBooking`).
 *
 * Many-to-many relations are the sets of related primary keys; "today" and
 * "now" are parameters; the random booking suffix is a parameter too.
 */
module Tours {
  import opened Wrappers
  import opened Dates
  import opened PyText

  type TourId = nat
  type CategoryId = nat

  // ---------------------------------------------------------------------------
  // Seat
  // ---------------------------------------------------------------------------

  datatype Seat = Seat(seatNumber: string, features: seq<string>)

  /** The Persian display name of each known seat feature. */
  const FeatureNames: map<string, string> := map[
    "window" := "کنار پنجره",
    "aisle" := "کنار راهرو",
    "extra_legroom" := "فضای اضافی پا",
    "emergency_exit" := "کنار در خروج",
    "front" := "ردیف جلو",
    "back" := "ردیف عقب"
  ]

  /** `feature_names.get(feature, feature)`. */
  function FeatureLabel(feature: string): (shown: string) {
    if feature in FeatureNames then FeatureNames[feature] else feature
  }

  /** One label per stored feature, in the stored order. */
  function FeaturesDisplay(s: Seat): (shown: seq<string>)
    ensures |shown| == |s.features|
    ensures forall k :: 0 <= k < |shown| ==> shown[k] == FeatureLabel(s.features[k])
  {
    seq(|s.features|, k requires 0 <= k < |s.features| => FeatureLabel(s.features[k]))
  }

  /**
   * A feature is translated exactly when it is one of the six known keys;
   * any other value is shown as stored. Distinct known keys never share a label.
   */
  lemma FeatureLabelKnown(feature: string, other: string)
    ensures FeatureLabel(feature) != feature <==> feature in FeatureNames
    ensures feature in FeatureNames && other in FeatureNames && feature != other ==>
      FeatureLabel(feature) != FeatureLabel(other)
  {
  }

  // ---------------------------------------------------------------------------
  // Tour
  // ---------------------------------------------------------------------------

  datatype Tour = Tour(
    id: TourId,
    category: Option<CategoryId>,
    isActive: bool,
    availableCapacity: nat,
    basePrice: real,
    childPrice: Option<real>,
    discountPrice: Option<real>,
    includes: string,
    excludes: string)

  /** A nullable Decimal is truthy when it is set and not zero. */
  predicate PriceSet(price: Option<real>) {
    price.Some? && price.value != 0.0
  }

  /** Bookable: the tour is active and at least one place is left. */
  function IsAvailable(t: Tour): (available: bool)
    ensures !t.isActive ==> !available
    ensures t.availableCapacity == 0 ==> !available
    ensures t.isActive && t.availableCapacity >= 1 ==> available
  {
    t.isActive && t.availableCapacity > 0
  }

  /**
   * The price charged per adult: the discount price when one is set and not
   * zero, otherwise the base price (a discount price of 0 is ignored).
   */
  function CurrentPrice(t: Tour): (price: real)
    ensures PriceSet(t.discountPrice) ==> price == t.discountPrice.value
    ensures !PriceSet(t.discountPrice) ==> price == t.basePrice
  {
    if PriceSet(t.discountPrice) then t.discountPrice.value else t.basePrice
  }

  /** The included services: each non-blank line of `includes`, stripped. */
  function IncludesList(t: Tour): (items: seq<string>)
    ensures LineItemsOf(t.includes, items)
  {
    NonBlankLinesItems(t.includes);
    NonBlankLines(t.includes)
  }

  /** The excluded services: each non-blank line of `excludes`, stripped. */
  function ExcludesList(t: Tour): (items: seq<string>)
    ensures LineItemsOf(t.excludes, items)
  {
    NonBlankLinesItems(t.excludes);
    NonBlankLines(t.excludes)
  }

  // ---------------------------------------------------------------------------
  // Discount
  // ---------------------------------------------------------------------------

  const Percentage: string := "percentage"
  const Fixed: string := "fixed"

  const AllTours: string := "all_tours"
  const SpecificTours: string := "specific_tours"
  const TourCategories: string := "tour_categories"

  function Min(a: real, b: real): (m: real)
    ensures m <= a && m <= b && (m == a || m == b)
  {
    if a <= b then a else b
  }

  /** A promo code. Only `usedCount` is ever changed in place. */
  class Discount {
    var discountType: string
    var value: real
    var applyTo: string
    var maxDiscount: Option<real>
    var minBookingValue: real
    /** 0 means unlimited. */
    var maxUses: nat
    var usedCount: nat
    var validFrom: Date
    var validTo: Date
    var isActive: bool
    var tours: set<TourId>
    var categories: set<CategoryId>

    /** A new discount with the model defaults: never used, applying to every tour with no minimum and no use limit. */
    constructor (discountType: string, value: real, validFrom: Date, validTo: Date)
      ensures this.discountType == discountType && this.value == value
      ensures this.validFrom == validFrom && this.validTo == validTo
      ensures applyTo == AllTours && maxDiscount.None? && minBookingValue == 0.0
      ensures maxUses == 0 && usedCount == 0 && isActive
      ensures tours == {} && categories == {}
    {
      this.discountType := discountType;
      this.value := value;
      this.applyTo := AllTours;
      this.maxDiscount := None;
      this.minBookingValue := 0.0;
      this.maxUses := 0;
      this.usedCount := 0;
      this.validFrom := validFrom;
      this.validTo := validTo;
      this.isActive := true;
      this.tours := {};
      this.categories := {};
    }

    /**
     * `is_valid`: active, `valid_from <= today <= valid_to`, and not used
     * up. A valid code is active and has a non-empty window; a code used up,
     * or asked about outside its window, is not valid.
     */
    function IsValid(today: Date): (valid: bool)
      reads this
      ensures valid ==> isActive && OnOrBefore(validFrom, validTo)
      ensures Before(today, validFrom) || Before(validTo, today) ==> !valid
      ensures maxUses > 0 && usedCount >= maxUses ==> !valid
      ensures (isActive && OnOrBefore(validFrom, today) && OnOrBefore(today, validTo)
               && (maxUses == 0 || usedCount < maxUses)) ==> valid
    {
      && isActive
      && OnOrBefore(validFrom, today) && OnOrBefore(today, validTo)
      && (maxUses == 0 || usedCount < maxUses)
    }

    /**
     * The scope check of the amount calculation: a tour (category) outside
     * the selected ones excludes the booking, but only when one is passed.
     */
    predicate InScope(tour: Option<TourId>, category: Option<CategoryId>)
      reads this
    {
      && !(applyTo == SpecificTours && tour.Some? && tour.value !in tours)
      && !(applyTo == TourCategories && category.Some? && category.value !in categories)
    }

    /** The reduction before the cap: a percentage of the amount, or the value itself for any other type. */
    function RawAmount(bookingAmount: real): (amount: real)
      reads this
      ensures discountType != Percentage ==> amount == value
    {
      if discountType == Percentage then bookingAmount * value / 100.0 else value
    }

    /** A cap applies when `max_discount` is set and not zero. */
    predicate Capped()
      reads this
    {
      maxDiscount.Some? && maxDiscount.value != 0.0
    }

    /**
     * `calculate_discount_amount`: 0 when the code is not valid, the amount
     * is below the minimum or the passed tour/category is out of scope;
     * otherwise the raw reduction, limited by the cap when there is one.
     */
    function CalculateDiscountAmount(bookingAmount: real, tour: Option<TourId>, category: Option<CategoryId>, today: Date): (discount: real)
      reads this
      ensures !IsValid(today) ==> discount == 0.0
      ensures bookingAmount < minBookingValue ==> discount == 0.0
      ensures !InScope(tour, category) ==> discount == 0.0
      ensures IsValid(today) && bookingAmount >= minBookingValue && InScope(tour, category) ==>
        if Capped() then discount == Min(RawAmount(bookingAmount), maxDiscount.value)
        else discount == RawAmount(bookingAmount)
    {
      if !IsValid(today) then 0.0
      else if bookingAmount < minBookingValue then 0.0
      else if applyTo == SpecificTours && tour.Some? && tour.value !in tours then 0.0
      else if applyTo == TourCategories && category.Some? && category.value !in categories then 0.0
      else
        var discount := RawAmount(bookingAmount);
        if Capped() then Min(discount, maxDiscount.value) else discount
    }

    /**
     * `can_apply_to_tour`: never for an invalid code; for a valid one, every
     * tour, a listed tour, or a tour whose (non-null) category is listed,
     * according to the scope; never for an unknown scope.
     */
    function CanApplyToTour(t: Tour, today: Date): (ok: bool)
      reads this
      ensures ok ==> IsValid(today)
      ensures IsValid(today) && applyTo == AllTours ==> ok
      ensures IsValid(today) && applyTo == SpecificTours ==> (ok <==> t.id in tours)
      ensures IsValid(today) && applyTo == TourCategories ==> (ok <==> t.category.Some? && t.category.value in categories)
      ensures applyTo != AllTours && applyTo != SpecificTours && applyTo != TourCategories ==> !ok
    {
      if !IsValid(today) then false
      else if applyTo == AllTours then true
      else if applyTo == SpecificTours then t.id in tours
      else if applyTo == TourCategories then t.category.Some? && t.category.value in categories
      else false
    }

    /**
     * `use_discount`: one more use is counted, but only for a limited code.
     * The limit is not checked here: a code already used up goes past it.
     */
    method UseDiscount()
      modifies this`usedCount
      ensures usedCount == if maxUses > 0 then old(usedCount) + 1 else old(usedCount)
      ensures old(usedCount) < maxUses ==> usedCount <= maxUses
      ensures 0 < maxUses <= old(usedCount) ==> usedCount > maxUses
    {
      if maxUses > 0 {
        usedCount := usedCount + 1;
      }
    }
  }

  /** Once a limited code has been used `maxUses` times it is never valid again. */
  lemma ExhaustedNeverValid(d: Discount, today: Date, bookingAmount: real, tour: Option<TourId>, category: Option<CategoryId>)
    requires d.maxUses > 0 && d.usedCount >= d.maxUses
    ensures !d.IsValid(today)
    ensures d.CalculateDiscountAmount(bookingAmount, tour, category, today) == 0.0
  {
  }

  /** A code is never valid outside its window, and a valid code has a non-empty window. */
  lemma ValidOnlyInWindow(d: Discount, today: Date)
    ensures Before(today, d.validFrom) ==> !d.IsValid(today)
    ensures Before(d.validTo, today) ==> !d.IsValid(today)
    ensures d.IsValid(today) ==> OnOrBefore(d.validFrom, d.validTo)
  {
  }

  /** With a cap (set and not zero) the reduction never exceeds it. */
  lemma DiscountWithinCap(d: Discount, bookingAmount: real, tour: Option<TourId>, category: Option<CategoryId>, today: Date)
    requires d.Capped() && d.maxDiscount.value >= 0.0
    ensures d.CalculateDiscountAmount(bookingAmount, tour, category, today) <= d.maxDiscount.value
  {
  }

  /** A percentage between 0 and 100 of a non-negative amount stays between 0 and the amount. */
  lemma PercentageWithinBooking(d: Discount, bookingAmount: real, tour: Option<TourId>, category: Option<CategoryId>, today: Date)
    requires d.discountType == Percentage && 0.0 <= d.value <= 100.0 && bookingAmount >= 0.0
    requires !d.Capped() || d.maxDiscount.value >= 0.0
    ensures 0.0 <= d.CalculateDiscountAmount(bookingAmount, tour, category, today) <= bookingAmount
  {
    var raw := d.RawAmount(bookingAmount);
    assert 0.0 <= raw <= bookingAmount by {
      assert raw == bookingAmount * (d.value / 100.0);
    }
  }

  /**
   * A fixed reduction is not limited by the booking amount: without a cap,
   * a valid code worth more than the booking yields more than the booking.
   */
  lemma FixedNotClampedToBooking(d: Discount, bookingAmount: real, today: Date)
    requires d.discountType == Fixed && !d.Capped()
    requires d.IsValid(today) && d.minBookingValue <= bookingAmount < d.value
    ensures d.CalculateDiscountAmount(bookingAmount, None, None, today) > bookingAmount
  {
  }

  /**
   * When neither a tour nor a category is passed the scope is not checked:
   * the result is the same as for a code applying to all tours.
   */
  lemma ScopeSkippedWithoutTour(d: Discount, bookingAmount: real, today: Date)
    ensures d.CalculateDiscountAmount(bookingAmount, None, None, today) ==
      if d.IsValid(today) && bookingAmount >= d.minBookingValue then
        (if d.Capped() then Min(d.RawAmount(bookingAmount), d.maxDiscount.value) else d.RawAmount(bookingAmount))
      else 0.0
  {
  }

  /** 10% off a 1,000,000 booking is 100,000. */
  lemma TenPercentExample(d: Discount, today: Date)
    requires d.discountType == Percentage && d.value == 10.0 && !d.Capped()
    requires d.IsValid(today) && d.minBookingValue <= 1000000.0
    ensures d.CalculateDiscountAmount(1000000.0, None, None, today) == 100000.0
  {
  }

  /** A fixed 50,000 reduction capped at 30,000 gives 30,000. */
  lemma CappedFixedExample(d: Discount, bookingAmount: real, today: Date)
    requires d.discountType == Fixed && d.value == 50000.0
    requires d.maxDiscount == Some(30000.0)
    requires d.IsValid(today) && d.minBookingValue <= bookingAmount && d.InScope(None, None)
    ensures d.CalculateDiscountAmount(bookingAmount, None, None, today) == 30000.0
  {
  }

  /**
   * For a tour with a category, passing that tour and its category to the
   * calculation and asking `can_apply_to_tour` agree on eligibility for the
   * three known scopes.
   */
  lemma CanApplyMatchesCalculation(d: Discount, t: Tour, today: Date)
    requires t.category.Some?
    requires d.applyTo == AllTours || d.applyTo == SpecificTours || d.applyTo == TourCategories
    ensures d.CanApplyToTour(t, today) <==> d.IsValid(today) && d.InScope(Some(t.id), t.category)
  {
  }

  /**
   * The two checks part ways for a tour without a category under the
   * category scope, and for an unknown scope: the calculation still grants
   * the reduction while `can_apply_to_tour` refuses.
   */
  lemma CanApplyStricterThanCalculation(d: Discount, t: Tour, today: Date)
    requires d.IsValid(today)
    requires (d.applyTo == TourCategories && t.category.None?)
      || (d.applyTo != AllTours && d.applyTo != SpecificTours && d.applyTo != TourCategories)
    ensures !d.CanApplyToTour(t, today)
    ensures d.InScope(Some(t.id), t.category)
  {
  }

  // ---------------------------------------------------------------------------
  // TourBooking
  // ---------------------------------------------------------------------------

  const Pending: string := "pending"

  /** `f"TR{timestamp}{n}"`: "TR", then the timestamp, then the draw. */
  function BookingReference(timestamp: Instant, suffix: nat): (reference: string)
    ensures |reference| >= 3 + |NatToString(suffix)| && reference[..2] == "TR"
    ensures reference[|reference| - |NatToString(suffix)|..] == NatToString(suffix)
    ensures timestamp >= 0 ==> reference[2..|reference| - |NatToString(suffix)|] == NatToString(timestamp)
  {
    var reference := "TR" + IntToString(timestamp) + NatToString(suffix);
    assert reference[2..|reference| - |NatToString(suffix)|] == IntToString(timestamp);
    reference
  }

  /** After 1970 the digits between "TR" and the draw read back to the timestamp. */
  lemma BookingReferenceTimestamp(timestamp: Instant, suffix: nat)
    requires timestamp >= 0
    ensures var r := BookingReference(timestamp, suffix); var m := |NatToString(suffix)|;
      && AllAsciiDigits(r[2..|r| - m]) && ParseDigits(r[2..|r| - m]) == timestamp
  {
    ParseNatToString(timestamp);
  }

  /**
   * A generated reference starts with "TR", ends with the four digits of
   * the random draw and, for a timestamp of at most 14 digits, fits the
   * 20-character column; after 1970 everything after "TR" is digits and
   * the digits before the draw read back to the timestamp.
   */
  lemma BookingReferenceFormat(timestamp: Instant, suffix: nat)
    requires 1000 <= suffix <= 9999
    ensures var r := BookingReference(timestamp, suffix);
      && |r| >= 7 && r[..2] == "TR"
      && AllAsciiDigits(r[|r| - 4..]) && ParseDigits(r[|r| - 4..]) == suffix
      && (timestamp >= 0 ==> AllAsciiDigits(r[2..]))
      && (timestamp >= 0 ==> AllAsciiDigits(r[2..|r| - 4]) && ParseDigits(r[2..|r| - 4]) == timestamp)
      && (0 <= timestamp < Pow10(14) ==> |r| <= 20)
  {
    var r := BookingReference(timestamp, suffix);
    var n := NatToString(suffix);
    assert Pow10(3) == 1000 && Pow10(4) == 10000 by {
      assert Pow10(1) == 10;
      assert Pow10(2) == 100;
    }
    NatToStringLength(suffix, 4);
    ParseNatToString(suffix);
    assert r == ("TR" + IntToString(timestamp)) + n;
    assert r[|r| - 4..] == n;
    if timestamp >= 0 {
      assert r[2..] == NatToString(timestamp) + n;
      BookingReferenceTimestamp(timestamp, suffix);
    }
    if 0 <= timestamp < Pow10(14) {
      NatToStringLengthAtMost(timestamp, 14);
    }
  }

  class TourBooking {
    var bookingReference: string
    var status: string
    var expiresAt: Option<Instant>
    var adultCount: nat
    var childCount: nat
    var infantCount: nat

    /** A new booking with the column defaults: one adult, pending, no reference and no deadline yet. */
    constructor ()
      ensures bookingReference == "" && status == Pending && expiresAt.None?
      ensures adultCount == 1 && childCount == 0 && infantCount == 0
    {
      bookingReference := "";
      status := Pending;
      expiresAt := None;
      adultCount := 1;
      childCount := 0;
      infantCount := 0;
    }

    /** The two defaults `save` fills in are present. */
    predicate Saved()
      reads this
    {
      bookingReference != "" && (status == Pending ==> expiresAt.Some?)
    }

    /**
     * `save`: a missing reference becomes "TR" + the timestamp + the random
     * draw; a pending booking without a deadline expires 24 hours from now.
     * Afterwards both defaults are present, so saving again changes nothing.
     */
    method Save(now: Instant, suffix: nat)
      requires 1000 <= suffix <= 9999
      modifies this`bookingReference, this`expiresAt
      ensures bookingReference == if old(bookingReference) == "" then BookingReference(now, suffix) else old(bookingReference)
      ensures expiresAt == if old(expiresAt).None? && status == Pending then Some(now + SecondsPerDay) else old(expiresAt)
      ensures Saved()
      ensures old(Saved()) ==> bookingReference == old(bookingReference) && expiresAt == old(expiresAt)
      ensures old(expiresAt).None? && status == Pending ==> forall t :: IsExpired(t) <==> t > now + SecondsPerDay
    {
      if bookingReference == "" {
        bookingReference := BookingReference(now, suffix);
        assert bookingReference[..2] == "TR";
      }
      if expiresAt.None? && status == Pending {
        expiresAt := Some(now + SecondsPerDay);
      }
    }

    /** Adults, children and infants together. */
    function TotalPassengers(): (total: nat)
      reads this
      ensures total == adultCount + childCount + infantCount
    {
      adultCount + childCount + infantCount
    }

    /** `is_expired`: expired only strictly after a deadline; a booking without one never expires. */
    function IsExpired(now: Instant): (expired: bool)
      reads this
      ensures expiresAt.None? ==> !expired
      ensures expiresAt.Some? ==> (expired <==> now - expiresAt.value >= 1)
    {
      expiresAt.Some? && now > expiresAt.value
    }
  }

  /** Expiry is permanent: once expired at some instant, expired at every later one. */
  lemma ExpiryPersists(b: TourBooking, now: Instant, later: Instant)
    requires b.IsExpired(now) && now <= later
    ensures b.IsExpired(later)
  {
  }

  /** At the deadline itself the booking is still live; one second later it has expired. */
  lemma ExpiryBoundary(b: TourBooking)
    requires b.expiresAt.Some?
    ensures !b.IsExpired(b.expiresAt.value)
    ensures b.IsExpired(b.expiresAt.value + 1)
  {
  }
}
