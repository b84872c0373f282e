/**
 * The list of a post's ratings: per-rating good/bad feedback toggles and the
 * distribution of ratings over the five star buckets.
 */
module RatingList {
  import opened Optional
  import opened Lists

  /** One rating of a post; `rating` is in hundredths of a star (the list shows two decimals). */
  datatype Rating = Rating(id: string, userName: string, rating: int,
                           goodCount: Option<int>, badCount: Option<int>)

  /** The viewer's own good/bad marks on one rating. */
  datatype Feedback = Feedback(good: bool, bad: bool)

  /** `feedbackState[id]`, where a missing entry reads as neither mark. */
  function FeedbackOf(state: map<string, Feedback>, id: string): Feedback
  {
    if id in state then state[id] else Feedback(false, false)
  }

  /** At most one of the two marks is set on every rating. */
  ghost predicate Exclusive(state: map<string, Feedback>)
  {
    forall id :: id in state ==> !(state[id].good && state[id].bad)
  }

  /** `handleGoodClick`: flip the good mark and clear the bad one; other ratings are untouched. */
  function GoodClick(state: map<string, Feedback>, id: string): (r: map<string, Feedback>)
    ensures r.Keys == state.Keys + {id}
    ensures r[id] == Feedback(!FeedbackOf(state, id).good, false)
    ensures forall other :: other in state && other != id ==> r[other] == state[other]
  {
    state[id := Feedback(!FeedbackOf(state, id).good, false)]
  }

  /** `handleBadClick`: flip the bad mark and clear the good one. */
  function BadClick(state: map<string, Feedback>, id: string): (r: map<string, Feedback>)
    ensures r.Keys == state.Keys + {id}
    ensures r[id] == Feedback(false, !FeedbackOf(state, id).bad)
    ensures forall other :: other in state && other != id ==> r[other] == state[other]
  {
    state[id := Feedback(false, !FeedbackOf(state, id).bad)]
  }

  /** The two handlers keep the marks mutually exclusive. */
  lemma ClicksKeepExclusive(state: map<string, Feedback>, id: string)
    requires Exclusive(state)
    ensures Exclusive(GoodClick(state, id)) && Exclusive(BadClick(state, id))
  {
  }

  /** Two good clicks give back the good mark the rating had, with the bad mark cleared. */
  lemma GoodClickTwice(state: map<string, Feedback>, id: string)
    ensures FeedbackOf(GoodClick(GoodClick(state, id), id), id) == Feedback(FeedbackOf(state, id).good, false)
  {
  }

  lemma BadClickTwice(state: map<string, Feedback>, id: string)
    ensures FeedbackOf(BadClick(BadClick(state, id), id), id) == Feedback(false, FeedbackOf(state, id).bad)
  {
  }

  /** A good click after a bad one replaces it: the rating ends marked good. */
  lemma GoodOverridesBad(state: map<string, Feedback>, id: string)
    requires FeedbackOf(state, id).bad
    ensures FeedbackOf(GoodClick(state, id), id) == Feedback(!FeedbackOf(state, id).good, false)
    ensures Exclusive(state) ==> FeedbackOf(GoodClick(state, id), id) == Feedback(true, false)
  {
  }

  /** The count on the thumbs-up button: the stored count (0 when absent) plus the viewer's own mark. */
  function ShownGood(r: Rating, state: map<string, Feedback>): int
  {
    OrDefault(r.goodCount, 0) + (if FeedbackOf(state, r.id).good then 1 else 0)
  }

  function ShownBad(r: Rating, state: map<string, Feedback>): int
  {
    OrDefault(r.badCount, 0) + (if FeedbackOf(state, r.id).bad then 1 else 0)
  }

  /**
   * A good click moves the shown good count by one, up when the mark was off and down
   * when it was on, and brings the shown bad count back to the stored one.
   */
  lemma GoodClickCounts(r: Rating, state: map<string, Feedback>)
    ensures ShownGood(r, GoodClick(state, r.id)) ==
            ShownGood(r, state) + (if FeedbackOf(state, r.id).good then -1 else 1)
    ensures ShownBad(r, GoodClick(state, r.id)) == OrDefault(r.badCount, 0)
  {
  }

  lemma BadClickCounts(r: Rating, state: map<string, Feedback>)
    ensures ShownBad(r, BadClick(state, r.id)) ==
            ShownBad(r, state) + (if FeedbackOf(state, r.id).bad then -1 else 1)
    ensures ShownGood(r, BadClick(state, r.id)) == OrDefault(r.goodCount, 0)
  {
  }

  // ---------------------------------------------------------------- the distribution

  /** `Math.floor(r.rating) === star || (star === 5 && r.rating === 5)`, in hundredths. */
  predicate InBucket(rating: int, star: int)
  {
    rating / 100 == star || (star == 5 && rating == 500)
  }

  /** The extra test for 5.00 adds nothing: 5.00 already floors to 5. */
  lemma TopTestRedundant(rating: int)
    ensures InBucket(rating, 5) <==> 500 <= rating < 600
  {
  }

  /** How many ratings fall in the bucket of `star`. */
  function BucketCount(ratings: seq<Rating>, star: int): (n: nat)
    ensures n <= |ratings|
  {
    |Filter(ratings, (r: Rating) => InBucket(r.rating, star))|
  }

  datatype Bucket = Bucket(star: int, count: nat)

  /** The bars, from 5 stars down to 1. */
  function Distribution(ratings: seq<Rating>): (d: seq<Bucket>)
    ensures |d| == 5
    ensures forall k :: 0 <= k < 5 ==> d[k].star == 5 - k && d[k].count == BucketCount(ratings, 5 - k)
  {
    seq(5, k requires 0 <= k < 5 => Bucket(5 - k, BucketCount(ratings, 5 - k)))
  }

  function BucketSum(d: seq<Bucket>): nat
  {
    if |d| == 0 then 0 else d[0].count + BucketSum(d[1..])
  }

  /** A rating belongs to some bucket iff it is at least 1.00 and below 6.00. */
  predicate Bucketed(rating: int)
  {
    100 <= rating < 600
  }

  function BucketedCount(ratings: seq<Rating>): (n: nat)
    ensures n <= |ratings|
  {
    |Filter(ratings, (r: Rating) => Bucketed(r.rating))|
  }

  /** Summing the five buckets counts each rating from 1.00 to 5.99 once and every other rating not at all. */
  lemma {:induction false} BucketsPartition(ratings: seq<Rating>)
    ensures BucketCount(ratings, 5) + BucketCount(ratings, 4) + BucketCount(ratings, 3) +
            BucketCount(ratings, 2) + BucketCount(ratings, 1) == BucketedCount(ratings)
    decreases |ratings|
  {
    if |ratings| > 0 {
      BucketsPartition(ratings[1..]);
    }
  }

  /**
   * So the bars never count more ratings than there are, and count all of them exactly when
   * every rating is from 1.00 to 5.99: a 0.50 rating, which the rating input allows, is in no bar.
   */
  lemma DistributionTotal(ratings: seq<Rating>)
    ensures BucketSum(Distribution(ratings)) == BucketedCount(ratings) <= |ratings|
    ensures (forall i :: 0 <= i < |ratings| ==> Bucketed(ratings[i].rating)) ==>
              BucketSum(Distribution(ratings)) == |ratings|
  {
    var d := Distribution(ratings);
    var d1, d2, d3, d4 := d[1..], d[2..], d[3..], d[4..];
    assert d1[1..] == d2 && d2[1..] == d3 && d3[1..] == d4 && d4[1..] == [];
    assert BucketSum(d4) == d[4].count;
    assert BucketSum(d3) == d[3].count + d[4].count;
    assert d1[0] == d[1] && d2[0] == d[2] && d3[0] == d[3] && d4[0] == d[4];
    assert BucketSum(d2) == d[2].count + BucketSum(d3);
    assert BucketSum(d1) == d[1].count + BucketSum(d2);
    assert BucketSum(d) == d[0].count + BucketSum(d1);
    BucketsPartition(ratings);
    if forall i :: 0 <= i < |ratings| ==> Bucketed(ratings[i].rating) {
      FilterKeepsAll(ratings, (r: Rating) => Bucketed(r.rating));
    }
  }

  /** A single half-star rating appears in none of the bars. */
  lemma HalfStarUnbucketed(r: Rating)
    requires r.rating == 50
    ensures BucketSum(Distribution([r])) == 0
  {
    DistributionTotal([r]);
    assert [r][1..] == [];
  }

  // ---------------------------------------------------------------- the component

  class RatingListModal {
    const ratings: seq<Rating>
    var feedbackState: map<string, Feedback>
    var selectedRating: Option<Rating>

    ghost predicate Valid()
      reads this
    {
      Exclusive(feedbackState)
    }

    constructor (ratings: seq<Rating>)
      ensures Valid() && this.ratings == ratings
      ensures feedbackState == map[] && selectedRating == None
    {
      this.ratings := ratings;
      feedbackState := map[];
      selectedRating := None;
    }

    /** The thumbs-up button of a rating, in the list or in its detail modal. */
    method HandleGoodClick(id: string)
      requires Valid()
      modifies this`feedbackState
      ensures Valid() && feedbackState == GoodClick(old(feedbackState), id)
    {
      ClicksKeepExclusive(feedbackState, id);
      feedbackState := feedbackState[id := Feedback(!FeedbackOf(feedbackState, id).good, false)];
    }

    method HandleBadClick(id: string)
      requires Valid()
      modifies this`feedbackState
      ensures Valid() && feedbackState == BadClick(old(feedbackState), id)
    {
      ClicksKeepExclusive(feedbackState, id);
      feedbackState := feedbackState[id := Feedback(false, !FeedbackOf(feedbackState, id).bad)];
    }

    method SelectRating(r: Rating)
      modifies this`selectedRating
      ensures selectedRating == Some(r)
    {
      selectedRating := Some(r);
    }

    method CloseDetail()
      modifies this`selectedRating
      ensures selectedRating == None
    {
      selectedRating := None;
    }
  }
}
