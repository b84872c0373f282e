/**
 * The post card: the star row for a rating, the type badge, the expert badge and the
 * save control. The same star formula is repeated in the rating list, the restaurant
 * detail page and the saved list; this module is its one model.
 */
module Card {
  import opened Optional
  import opened Types

  /** How many full, half and empty stars a rating draws. */
  datatype Stars = Stars(full: nat, half: nat, empty: nat)

  /**
   * `StarRating` for a rating of `r` hundredths: `floor(rating)` full stars, one half star
   * when `rating % 1 >= 0.5`, and the rest of five empty. JavaScript's `%` keeps the sign
   * of a negative rating, so such a rating never has a half star. `Array(n)` throws for a
   * negative `n`, so the row fails (`None`) below 0.00 and from 5.50 up.
   */
  function StarCounts(r: int): (s: Option<Stars>)
    ensures s.Some? <==> 0 <= r < 550
    ensures s.Some? ==> s.value.full + s.value.half + s.value.empty == 5 && s.value.half <= 1
    ensures s.Some? ==> 50 * (2 * s.value.full + s.value.half) <= r < 50 * (2 * s.value.full + s.value.half) + 50
  {
    var full := r / 100;
    var half := if r >= 0 && r % 100 >= 50 then 1 else 0;
    var empty := 5 - full - half;
    if full < 0 || empty < 0 then None else Some(Stars(full, half, empty))
  }

  /** Every documented rating draws a row; a rating of whole or half stars draws itself. */
  lemma DocumentedRatingsDraw(r: int, halves: int)
    requires 0 <= r <= 500
    ensures StarCounts(r).Some?
    ensures 0 <= halves <= 10 && r == 50 * halves ==>
              2 * StarCounts(r).value.full + StarCounts(r).value.half == halves
  {
  }

  /** A higher rating never draws fewer filled halves. */
  lemma StarsMonotone(r: int, t: int)
    requires 0 <= r <= t < 550
    ensures 2 * StarCounts(r).value.full + StarCounts(r).value.half <=
            2 * StarCounts(t).value.full + StarCounts(t).value.half
  {
  }

  /** The card's type badge knows only two kinds. */
  datatype CardBadge = RecipeBadge | EatingOutBadge

  function TypeBadge(t: PostType): (b: CardBadge)
    ensures b == RecipeBadge <==> t == Recipe
  {
    if t == Recipe then RecipeBadge else EatingOutBadge
  }

  /** So a food walk and a sightseeing post are badged as eating out. */
  lemma OtherTypesBadgedEatingOut()
    ensures TypeBadge(FoodWalk) == TypeBadge(Sightseeing) == TypeBadge(Restaurant) == EatingOutBadge
  {
  }

  /** The expert badge: shown for an expert, with `expertLevel || 1`. */
  function ExpertBadge(p: Post): (level: Option<int>)
    ensures level.Some? <==> p.isExpert == Some(true)
    ensures level.Some? ==> level.value != 0
    ensures level.Some? && p.expertLevel.Some? && p.expertLevel.value != 0 ==> level.value == p.expertLevel.value
    ensures level.Some? && (p.expertLevel.None? || p.expertLevel.value == 0) ==> level.value == 1
  {
    if p.isExpert == Some(true) then Some(OrDefault(p.expertLevel, 1)) else None
  }

  /** For a post in its documented ranges the badge shows the stored level. */
  lemma ExpertBadgeDocumented(p: Post)
    requires DocumentedRanges(p) && p.isExpert == Some(true) && p.expertLevel.Some?
    ensures ExpertBadge(p) == Some(p.expertLevel.value) && 1 <= ExpertBadge(p).value <= 10
  {
  }

  /** The save control: absent without a handler; otherwise labelled by whether the post is saved. */
  function SaveLabel(hasHandler: bool, isSaved: Option<bool>): (shown: Option<string>)
    ensures shown.Some? <==> hasHandler
    ensures hasHandler && isSaved == Some(true) ==> shown == Some("保存中")
    ensures hasHandler && isSaved != Some(true) ==> shown == Some("保存")
  {
    if !hasHandler then None
    else if isSaved == Some(true) then Some("保存中")
    else Some("保存")
  }
}
