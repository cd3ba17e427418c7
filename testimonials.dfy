/** `testimonials/models.py`: star ratings and the testimonial's display string. */
module Testimonials {
  import opened PyText

  const Star: char := '★'

  datatype Testimonial = Testimonial(fullName: string, rating: nat)

  /** The allowed ratings with their labels. */
  const RatingChoices: seq<(nat, string)> := [
    (1, "★"), (2, "★★"), (3, "★★★"), (4, "★★★★"), (5, "★★★★★")
  ]

  const DefaultRating: nat := 5

  /** `'★' * rating`: one star per rating point. */
  function RatingStars(t: Testimonial): (stars: string)
    ensures |stars| == t.rating
    ensures forall i :: 0 <= i < |stars| ==> stars[i] == Star
  {
    RepeatChar(Star, t.rating)
  }

  /** Each choice's label is exactly the star string of its value, and the values are 1 to 5 in order. */
  lemma RatingChoicesAreStars(fullName: string)
    ensures forall i :: 0 <= i < |RatingChoices| ==>
      RatingChoices[i].0 == i + 1 && RatingChoices[i].1 == RatingStars(Testimonial(fullName, RatingChoices[i].0))
  {
    forall i | 0 <= i < |RatingChoices|
      ensures RatingChoices[i].1 == RatingStars(Testimonial(fullName, RatingChoices[i].0))
    {
      var stars := RatingStars(Testimonial(fullName, RatingChoices[i].0));
      assert |stars| == |RatingChoices[i].1|;
    }
  }

  /** A rating among the choices shows one to five stars; the default shows five. */
  lemma StarsForChoice(t: Testimonial)
    requires exists i :: 0 <= i < |RatingChoices| && RatingChoices[i].0 == t.rating
    ensures 1 <= |RatingStars(t)| <= 5
    ensures t.rating == DefaultRating ==> RatingStars(t) == "★★★★★"
  {
    if t.rating == DefaultRating {
      assert |RatingStars(t)| == |"★★★★★"|;
    }
  }

  /**
   * `__str__`: the name, " - ", the rating in decimal and a star. The
   * rating can be read back from the digits between the separator and the star.
   */
  function ToString(t: Testimonial): (s: string)
    ensures |s| >= |t.fullName| + 5 && s[..|t.fullName|] == t.fullName
    ensures s[|t.fullName|..|t.fullName| + 3] == " - " && s[|s| - 1] == Star
    ensures AllAsciiDigits(s[|t.fullName| + 3..|s| - 1])
    ensures ParseDigits(s[|t.fullName| + 3..|s| - 1]) == t.rating
    ensures s[|t.fullName| + 3] == '0' ==> |s| == |t.fullName| + 5
  {
    var digits := NatToString(t.rating);
    var s := t.fullName + " - " + digits + [Star];
    assert s[|t.fullName| + 3..|s| - 1] == digits;
    ParseNatToString(t.rating);
    s
  }
}
