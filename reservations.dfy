/**
 * `reservation/models.py`: the reservation code format and the total a
 * reservation is given when it is saved.
 *
 * The random draws behind the code are parameters: the eight digit picks
 * (each below 10) and the four letter picks (each below 26).
 */
module Reservations {
  import opened Wrappers
  import opened PyText
  import opened Tours

  /** `max_length` of the reservation code column. */
  const CodeLength: nat := 15

  predicate ValidPicks(digits: seq<nat>, letters: seq<nat>) {
    && |digits| == 8 && |letters| == 4
    && (forall i :: 0 <= i < 8 ==> digits[i] < 10)
    && (forall i :: 0 <= i < 4 ==> letters[i] < 26)
  }

  predicate IsUpperAscii(c: char) {
    'A' <= c <= 'Z'
  }

  function UpperLetter(n: nat): (c: char)
    requires n < 26
    ensures IsUpperAscii(c)
  {
    ('A' as int + n) as char
  }

  /** The shape of every generated code: "TRV", eight ASCII digits, four ASCII capitals. */
  predicate IsReservationCode(code: string) {
    && |code| == CodeLength
    && code[..3] == "TRV"
    && (forall i :: 3 <= i < 11 ==> IsAsciiDigit(code[i]))
    && (forall i :: 11 <= i < 15 ==> IsUpperAscii(code[i]))
  }

  /** `'TRV' + ''.join(choices(digits, k=8)) + ''.join(choices(ascii_uppercase, k=4))`. */
  function GenerateReservationCode(digits: seq<nat>, letters: seq<nat>): (code: string)
    requires ValidPicks(digits, letters)
    ensures IsReservationCode(code)
  {
    var ds := seq(8, i requires 0 <= i < 8 => DigitChar(digits[i]));
    var ls := seq(4, i requires 0 <= i < 4 => UpperLetter(letters[i]));
    var code := "TRV" + ds + ls;
    assert forall i :: 3 <= i < 11 ==> code[i] == ds[i - 3];
    assert forall i :: 11 <= i < 15 ==> code[i] == ls[i - 11];
    code
  }

  /** Reads the digit and letter picks back out of a code; `None` when it does not have the generated shape. */
  function DecodeReservationCode(code: string): (picks: Option<(seq<nat>, seq<nat>)>)
    ensures picks.Some? <==> IsReservationCode(code)
    ensures picks.Some? ==> ValidPicks(picks.value.0, picks.value.1)
  {
    if IsReservationCode(code) then
      Some((seq(8, i requires 0 <= i < 8 => DigitValue(code[3 + i])),
            seq(4, i requires 0 <= i < 4 => (code[11 + i] as int - 'A' as int) as nat)))
    else None
  }

  /** Decoding a generated code gives back the draws it was made from. */
  lemma DecodeGenerate(digits: seq<nat>, letters: seq<nat>)
    requires ValidPicks(digits, letters)
    ensures DecodeReservationCode(GenerateReservationCode(digits, letters)) == Some((digits, letters))
  {
    var code := GenerateReservationCode(digits, letters);
    var (ds, ls) := DecodeReservationCode(code).value;
    assert forall i :: 0 <= i < 8 ==> code[3 + i] == DigitChar(digits[i]);
    assert forall i :: 0 <= i < 4 ==> code[11 + i] == UpperLetter(letters[i]);
    assert ds == digits;
    assert ls == letters;
  }

  /** Every string of the generated shape is the code of exactly the draws it decodes to. */
  lemma GenerateDecode(code: string)
    requires IsReservationCode(code)
    ensures var picks := DecodeReservationCode(code).value;
      GenerateReservationCode(picks.0, picks.1) == code
  {
    var picks := DecodeReservationCode(code).value;
    var g := GenerateReservationCode(picks.0, picks.1);
    assert g[..3] == code[..3];
    forall i | 0 <= i < 15 ensures g[i] == code[i] {
      if i < 3 {
        assert g[i] == g[..3][i];
        assert code[i] == code[..3][i];
      }
    }
  }

  /**
   * The total as `save` computes it: adults pay the tour's current price,
   * children its child price, infants nothing. Without a (non-zero) child
   * price the fallback `adult_price * 0.7` multiplies a Decimal by a float
   * and raises `TypeError`: `None`.
   */
  function SavedTotal(t: Tour, adults: nat, children: nat): (total: Option<real>)
    ensures total.Some? <==> PriceSet(t.childPrice)
    ensures total.Some? && children == 0 ==> total.value == adults as real * CurrentPrice(t)
  {
    if PriceSet(t.childPrice) then
      Some(adults as real * CurrentPrice(t) + children as real * t.childPrice.value)
    else None
  }

  /**
   * With a child price, an empty reservation costs nothing, each further
   * adult adds the tour's current price and each further child its child price.
   */
  lemma SavedTotalPerTraveller(t: Tour, adults: nat, children: nat)
    requires PriceSet(t.childPrice)
    ensures SavedTotal(t, 0, 0) == Some(0.0)
    ensures SavedTotal(t, adults + 1, children).value == SavedTotal(t, adults, children).value + CurrentPrice(t)
    ensures SavedTotal(t, adults, children + 1).value == SavedTotal(t, adults, children).value + t.childPrice.value
  {
  }

  /** The evidently intended child price: the tour's, or 70% of the adult price when it has none. */
  function IntendedChildPrice(t: Tour): (price: real)
    ensures PriceSet(t.childPrice) ==> price == t.childPrice.value
    ensures !PriceSet(t.childPrice) ==> price == 0.7 * CurrentPrice(t)
  {
    if PriceSet(t.childPrice) then t.childPrice.value else CurrentPrice(t) * 0.7
  }

  /** The evidently intended total: adults at the current price, children at the intended child price. */
  function IntendedTotal(t: Tour, adults: nat, children: nat): (total: real)
    ensures SavedTotal(t, adults, children).Some? ==> total == SavedTotal(t, adults, children).value
    ensures !PriceSet(t.childPrice) ==> total == (adults as real + 0.7 * children as real) * CurrentPrice(t)
  {
    adults as real * CurrentPrice(t) + children as real * IntendedChildPrice(t)
  }

  /** A tour without a child price makes every reservation's save fail, even one with no children. */
  lemma ChildPriceFallbackFails()
    ensures var t := Tour(1, None, true, 10, 100.0, None, None, "", "");
      && SavedTotal(t, 1, 0).None?
      && IntendedTotal(t, 1, 0) == 100.0
      && IntendedTotal(t, 2, 1) == 270.0
  {
  }

  /** With non-negative prices a child never costs more than an adult under the intended fallback. */
  lemma IntendedChildNotAboveAdult(t: Tour)
    requires !PriceSet(t.childPrice) && CurrentPrice(t) >= 0.0
    ensures 0.0 <= IntendedChildPrice(t) <= CurrentPrice(t)
  {
  }

  class Reservation {
    var tour: Tour
    var adultCount: nat
    var childCount: nat
    var infantCount: nat
    var totalAmount: real
    var paidAmount: real
    var reservationCode: string

    /** A new reservation with the column defaults: one adult, nothing paid, no code yet. */
    constructor (tour: Tour, totalAmount: real)
      ensures this.tour == tour && this.totalAmount == totalAmount
      ensures adultCount == 1 && childCount == 0 && infantCount == 0
      ensures paidAmount == 0.0 && reservationCode == ""
    {
      this.tour := tour;
      this.adultCount := 1;
      this.childCount := 0;
      this.infantCount := 0;
      this.totalAmount := totalAmount;
      this.paidAmount := 0.0;
      this.reservationCode := "";
    }

    /**
     * `save` as written: a missing code is generated first, then the total
     * is recomputed from the tour's prices, whatever it was before. For a
     * tour without a child price the recomputation raises (`saved` is false)
     * after the code was already assigned, and the total is left as it was.
     */
    method Save(digits: seq<nat>, letters: seq<nat>) returns (saved: bool)
      requires ValidPicks(digits, letters)
      modifies this`reservationCode, this`totalAmount
      ensures reservationCode == if old(reservationCode) == "" then GenerateReservationCode(digits, letters) else old(reservationCode)
      ensures saved <==> SavedTotal(tour, adultCount, childCount).Some?
      ensures saved ==> totalAmount == SavedTotal(tour, adultCount, childCount).value
      ensures !saved ==> totalAmount == old(totalAmount)
    {
      if reservationCode == "" {
        reservationCode := GenerateReservationCode(digits, letters);
      }
      var adultPrice := CurrentPrice(tour);
      if PriceSet(tour.childPrice) {
        var childPrice := tour.childPrice.value;
        totalAmount := adultCount as real * adultPrice + childCount as real * childPrice;
        saved := true;
      } else {
        saved := false;
      }
    }

    /** `save` with the evidently intended 70% child fallback: it always succeeds. */
    method SaveIntended(digits: seq<nat>, letters: seq<nat>)
      requires ValidPicks(digits, letters)
      modifies this`reservationCode, this`totalAmount
      ensures reservationCode == if old(reservationCode) == "" then GenerateReservationCode(digits, letters) else old(reservationCode)
      ensures IsReservationCode(reservationCode) || reservationCode == old(reservationCode)
      ensures totalAmount == IntendedTotal(tour, adultCount, childCount)
    {
      if reservationCode == "" {
        reservationCode := GenerateReservationCode(digits, letters);
      }
      var adultPrice := CurrentPrice(tour);
      var childPrice := if PriceSet(tour.childPrice) then tour.childPrice.value else adultPrice * 0.7;
      totalAmount := adultCount as real * adultPrice + childCount as real * childPrice;
    }

    /** Adults, children and infants together. */
    function TravelersCount(): (count: nat)
      reads this
      ensures count == adultCount + childCount + infantCount
    {
      adultCount + childCount + infantCount
    }

    /** What is still owed: paying it on top of what was paid settles the total exactly. */
    function RemainingAmount(): (remaining: real)
      reads this
      ensures paidAmount + remaining == totalAmount
      ensures remaining == 0.0 <==> paidAmount == totalAmount
      ensures remaining < 0.0 <==> paidAmount > totalAmount
    {
      totalAmount - paidAmount
    }
  }
}
