/**
 * The rating input: five stars, each split into a left half and a right half, a hover
 * preview, and a submit that does nothing until a rating is chosen.
 * Ratings are counted in half stars: 1 is 0.5 stars and 10 is 5.0 stars.
 */
module RatingInput {
  import opened Text

  /** How one star is drawn. */
  datatype Fill = Full | Half | Empty

  /** The value a half of star `i` (1 to 5) stands for: `i - 0.5` on the left, `i` on the right. */
  function HalfValue(i: int, left: bool): (v: int)
    requires 1 <= i <= 5
    ensures 1 <= v <= 10
    ensures left ==> v % 2 == 1 && (v + 1) / 2 == i
    ensures !left ==> v % 2 == 0 && v / 2 == i
  {
    if left then 2 * i - 1 else 2 * i
  }

  /** `hoverRating || rating`: the hover preview wins while it is set. */
  function ShownValue(hover: int, rating: int): (v: int)
    ensures hover != 0 ==> v == hover
    ensures hover == 0 ==> v == rating
  {
    if hover != 0 then hover else rating
  }

  /** Star `i` is full at or above `i`, half at or above `i - 0.5`, empty below. */
  function FillOf(i: int, shown: int): Fill
  {
    if shown >= 2 * i then Full else if shown >= 2 * i - 1 then Half else Empty
  }

  /** The five stars for a shown value of `v` half stars. */
  function Fills(v: int): seq<Fill>
  {
    seq(5, k => FillOf(k + 1, v))
  }

  /**
   * For a value from 0 to 10 half stars the stars read left to right as `v / 2` full stars,
   * one half star when `v` is odd, and empty stars for the rest.
   */
  lemma FillsShape(v: int)
    requires 0 <= v <= 10
    ensures forall k :: 0 <= k < 5 ==>
              Fills(v)[k] == (if k < v / 2 then Full else if k == v / 2 && v % 2 == 1 then Half else Empty)
  {
  }

  /** The stars never show more than one half star. */
  lemma AtMostOneHalf(v: int, j: int, k: int)
    requires 0 <= j < k < 5
    ensures !(Fills(v)[j] == Half && Fills(v)[k] == Half)
  {
  }

  /** What `handleSubmit` sends: the rating in half stars and the form's fields, numbers parsed. */
  datatype RatingData = RatingData(
    halfStars: int, title: string, description: string, budget: int, timeMinutes: int,
    texture: string, temperature: string, goodPoints: string, badPoints: string)

  datatype Effect = Submitted(data: RatingData) | Closed

  class RatingInputModal {
    var rating: int
    var hoverRating: int
    var title: string
    var description: string
    var budget: string
    var timeMinutes: string
    var texture: string
    var temperature: string
    var goodPoints: string
    var badPoints: string

    /** Both values are 0 (none) or a value one of the ten halves stands for. */
    ghost predicate Valid()
      reads this
    {
      0 <= rating <= 10 && 0 <= hoverRating <= 10
    }

    constructor ()
      ensures Valid() && rating == 0 && hoverRating == 0
      ensures title == description == budget == timeMinutes == ""
      ensures texture == temperature == goodPoints == badPoints == ""
    {
      rating := 0;
      hoverRating := 0;
      title := "";
      description := "";
      budget := "";
      timeMinutes := "";
      texture := "";
      temperature := "";
      goodPoints := "";
      badPoints := "";
    }

    /** `handleStarClick` on a half of star `i`: the rating becomes that half's value. */
    method StarClick(i: int, left: bool)
      requires Valid() && 1 <= i <= 5
      modifies this`rating
      ensures Valid() && rating == HalfValue(i, left) && !SubmitDisabled()
    {
      rating := HalfValue(i, left);
    }

    method HoverEnter(i: int, left: bool)
      requires Valid() && 1 <= i <= 5
      modifies this`hoverRating
      ensures Valid() && hoverRating == HalfValue(i, left)
    {
      hoverRating := HalfValue(i, left);
    }

    /** Leaving either half clears the preview, so the stored rating shows again. */
    method HoverLeave()
      requires Valid()
      modifies this`hoverRating
      ensures Valid() && hoverRating == 0 && ShownValue(hoverRating, rating) == rating
    {
      hoverRating := 0;
    }

    /** `renderStars`: one fill per star, for i from 1 to 5, from the shown value. */
    method RenderStars() returns (stars: seq<Fill>)
      ensures stars == Fills(ShownValue(hoverRating, rating))
    {
      var shown := if hoverRating != 0 then hoverRating else rating;
      stars := [];
      var i := 1;
      while i <= 5
        invariant 1 <= i <= 6 && |stars| == i - 1
        invariant forall k :: 0 <= k < i - 1 ==> stars[k] == FillOf(k + 1, shown)
      {
        var fill: Fill;
        if shown >= 2 * i {
          fill := Full;
        } else if shown >= 2 * i - 1 {
          fill := Half;
        } else {
          fill := Empty;
        }
        stars := stars + [fill];
        i := i + 1;
      }
    }

    /** The submit button is disabled while no rating is chosen. */
    predicate SubmitDisabled()
      reads this
    {
      rating == 0
    }

    /** The data `handleSubmit` sends: budget and time parsed, 0 when blank, the rest as typed. */
    function Data(): (d: RatingData)
      reads this
      ensures d.halfStars == rating && d.title == title && d.description == description
      ensures d.budget == NumberOr(budget, 0) && d.timeMinutes == NumberOr(timeMinutes, 0)
      ensures d.texture == texture && d.temperature == temperature
      ensures d.goodPoints == goodPoints && d.badPoints == badPoints
    {
      RatingData(rating, title, description, NumberOr(budget, 0), NumberOr(timeMinutes, 0),
                 texture, temperature, goodPoints, badPoints)
    }

    /**
     * `handleSubmit`: with a rating chosen, send the data and close; without one, nothing
     * happens, which is exactly when the button is disabled.
     */
    method Submit() returns (effects: seq<Effect>)
      requires Valid()
      ensures rating > 0 ==> effects == [Submitted(Data()), Closed]
      ensures rating == 0 ==> effects == []
      ensures |effects| == 0 <==> SubmitDisabled()
    {
      if rating > 0 {
        effects := [Submitted(Data()), Closed];
      } else {
        effects := [];
      }
    }
  }
}
