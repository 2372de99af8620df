// Star ratings: the review record the rating form builds
// (features/reviews/components/ReviewModal.tsx), the mean a restaurant's
// rating is recomputed to (store/slices/restaurantSlice.ts), and the
// statistics panel (features/reviews/ReviewsSection.tsx).
module Reviews {
  import opened Types
  import opened Text
  import opened Lists

  function Rating(r: Review): int
  {
    r.rating
  }

  /** Every review carries between lo and hi stars. */
  predicate RatedBetween(rs: seq<Review>, lo: int, hi: int)
  {
    forall i :: 0 <= i < |rs| ==> lo <= rs[i].rating <= hi
  }

  /** `Number((sum / n).toFixed(1))`, and 0 for no reviews. */
  function MeanRating(rs: seq<Review>): real
  {
    if |rs| > 0 then RoundFixed(SumInt(rs, Rating) as real / |rs| as real, 1) else 0.0
  }

  lemma {:induction false} SumRatingsBetween(rs: seq<Review>, lo: int, hi: int)
    requires RatedBetween(rs, lo, hi)
    ensures |rs| * lo <= SumInt(rs, Rating) <= |rs| * hi
  {
    if rs != [] {
      SumRatingsBetween(rs[1..], lo, hi);
      assert |rs| * lo == (|rs| - 1) * lo + lo;
      assert |rs| * hi == (|rs| - 1) * hi + hi;
    }
  }

  lemma MeanBetween(total: real, n: real, lo: real, hi: real)
    requires 0.0 < n && n * lo <= total <= n * hi
    ensures lo <= total / n <= hi
  {
    var mean := total / n;
    assert mean * n == total;
    assert (mean - lo) * n == total - n * lo;
    assert (hi - mean) * n == n * hi - total;
  }

  /**
   * The rounded mean of ratings that all lie between lo and hi lies between
   * lo and hi too: in particular between the smallest and the largest.
   */
  lemma MeanRatingBetween(rs: seq<Review>, lo: int, hi: int)
    requires |rs| > 0 && RatedBetween(rs, lo, hi)
    ensures lo as real <= MeanRating(rs) <= hi as real
  {
    SumRatingsBetween(rs, lo, hi);
    var n, total := |rs| as real, SumInt(rs, Rating) as real;
    assert n * lo as real <= total <= n * hi as real;
    MeanBetween(total, n, lo as real, hi as real);
    RoundFixedMonotone(lo as real, total / n, 1);
    RoundFixedMonotone(total / n, hi as real, 1);
    RoundFixedInteger(lo, 1);
    RoundFixedInteger(hi, 1);
  }

  // ---- the statistics panel ----

  /** The rows of the distribution, from five stars down to one. */
  const Stars: seq<int> := [5, 4, 3, 2, 1]

  function RatedIs(star: int): Review -> bool
  {
    (r: Review) => r.rating == star
  }

  /** `average` is the number the panel's `toFixed(1)` text denotes. */
  datatype Stats = Stats(average: real, total: nat, distribution: seq<real>)

  /** `(count / total) * 100`. */
  function Percent(count: nat, total: nat): real
    requires total > 0
  {
    count as real / total as real * 100.0
  }

  /** Fractions over one total add up by their numerators. */
  lemma PercentAdd(a: nat, b: nat, total: nat)
    requires total > 0
    ensures Percent(a, total) + Percent(b, total) == Percent(a + b, total)
  {
    var t := total as real;
    assert a as real / t + b as real / t == (a + b) as real / t;
  }

  lemma PercentWhole(total: nat)
    requires total > 0
    ensures Percent(total, total) == 100.0
  {
  }

  /** The panel's figures: mean, number of reviews, and the percentage of each star row. */
  function ReviewStats(rs: seq<Review>): (s: Stats)
    ensures s.total == |rs| && |s.distribution| == |Stars|
    ensures rs == [] ==> s.average == 0.0 && forall k :: 0 <= k < |Stars| ==> s.distribution[k] == 0.0
    ensures rs != [] ==> forall k :: 0 <= k < |Stars| ==>
      s.distribution[k] == Percent(Count(rs, RatedIs(Stars[k])), |rs|)
  {
    if |rs| == 0 then Stats(0.0, 0, [0.0, 0.0, 0.0, 0.0, 0.0])
    else
      Stats(MeanRating(rs), |rs|,
        seq(|Stars|, k requires 0 <= k < |Stars| => Percent(Count(rs, RatedIs(Stars[k])), |rs|)))
  }

  /** Every 1-to-5 review falls in exactly one star row. */
  lemma {:induction false} StarCountsTotal(rs: seq<Review>)
    requires RatedBetween(rs, 1, 5)
    ensures Count(rs, RatedIs(5)) + Count(rs, RatedIs(4)) + Count(rs, RatedIs(3))
          + Count(rs, RatedIs(2)) + Count(rs, RatedIs(1)) == |rs|
  {
    if rs != [] {
      StarCountsTotal(rs[1..]);
    }
  }

  /** With 1-to-5 ratings the five percentages add up to 100. */
  lemma DistributionSums100(rs: seq<Review>)
    requires rs != [] && RatedBetween(rs, 1, 5)
    ensures var d := ReviewStats(rs).distribution;
      d[0] + d[1] + d[2] + d[3] + d[4] == 100.0
  {
    StarCountsTotal(rs);
    var t := |rs|;
    var c5, c4, c3 := Count(rs, RatedIs(5)), Count(rs, RatedIs(4)), Count(rs, RatedIs(3));
    var c2, c1 := Count(rs, RatedIs(2)), Count(rs, RatedIs(1));
    var d := ReviewStats(rs).distribution;
    assert d[0] == Percent(c5, t) && d[1] == Percent(c4, t) && d[2] == Percent(c3, t)
        && d[3] == Percent(c2, t) && d[4] == Percent(c1, t);
    PercentsSum100(c5, c4, c3, c2, c1, t);
  }

  /** Five counts that make up the total have percentages adding up to 100. */
  lemma PercentsSum100(c5: nat, c4: nat, c3: nat, c2: nat, c1: nat, t: nat)
    requires t > 0 && c5 + c4 + c3 + c2 + c1 == t
    ensures Percent(c5, t) + Percent(c4, t) + Percent(c3, t) + Percent(c2, t) + Percent(c1, t) == 100.0
  {
    PercentAdd(c5, c4, t);
    PercentAdd(c5 + c4, c3, t);
    PercentAdd(c5 + c4 + c3, c2, t);
    PercentAdd(c5 + c4 + c3 + c2, c1, t);
    PercentWhole(t);
  }

  /** `Math.round(Number(average))`: the number of filled stars. */
  function FilledStars(s: Stats): int
    requires s.average >= 0.0
  {
    HalfUp(s.average)
  }

  /** With 1-to-5 ratings between one and five stars are filled; none without reviews. */
  lemma FilledStarsBetween(rs: seq<Review>)
    requires RatedBetween(rs, 1, 5)
    ensures ReviewStats(rs).average >= 0.0
    ensures rs == [] ==> FilledStars(ReviewStats(rs)) == 0
    ensures rs != [] ==> 1 <= FilledStars(ReviewStats(rs)) <= 5
  {
    if rs != [] {
      MeanRatingBetween(rs, 1, 5);
      HalfUpMonotone(1.0, ReviewStats(rs).average);
      HalfUpMonotone(ReviewStats(rs).average, 5.0);
    }
  }

  // ---- the rating form ----

  /** The form's state: the chosen stars and the comment. */
  datatype ReviewForm = ReviewForm(rating: int, comment: string)

  /** The five star buttons. */
  const StarChoices: seq<int> := [1, 2, 3, 4, 5]

  /** A fresh form starts at five stars with no comment. */
  const NewForm := ReviewForm(5, "")

  /** Pressing the k-th star button. */
  function PickStar(f: ReviewForm, k: nat): ReviewForm
    requires k < |StarChoices|
  {
    f.(rating := StarChoices[k])
  }

  /** The form after a run of star presses from a fresh one. */
  function AfterPicks(presses: seq<nat>): ReviewForm
    requires forall i :: 0 <= i < |presses| ==> presses[i] < |StarChoices|
  {
    if presses == [] then NewForm
    else PickStar(AfterPicks(presses[..|presses| - 1]), presses[|presses| - 1])
  }

  /** Whatever the presses, the form holds between one and five stars. */
  lemma {:induction false} AfterPicksRated(presses: seq<nat>)
    requires forall i :: 0 <= i < |presses| ==> presses[i] < |StarChoices|
    ensures 1 <= AfterPicks(presses).rating <= 5
  {
    if presses != [] {
      AfterPicksRated(presses[..|presses| - 1]);
    }
  }

  /**
   * handleSubmit: nothing without a logged-in user; otherwise a review of
   * the order's restaurant ('unknown' when it has none) by that user, with
   * the form's stars and comment and no helpful votes.
   */
  function SubmitReview(user: Option<User>, order: Order, f: ReviewForm, id: string): (r: Option<Review>)
    ensures r.None? <==> user.None?
    ensures r.Some? ==> r.value.targetId == (if Falsy(order.restaurantId) then "unknown" else order.restaurantId.value)
    ensures r.Some? ==> r.value.userId == user.value.id && r.value.userName == user.value.name
                        && r.value.userAvatar == user.value.avatar
    ensures r.Some? ==> r.value.rating == f.rating && r.value.comment == f.comment && r.value.helpfulCount == 0
  {
    match user
    case None => None
    case Some(u) =>
      var target := if Falsy(order.restaurantId) then "unknown" else order.restaurantId.value;
      Some(Review(id, target, u.id, u.name, u.avatar, f.rating, "Just now", f.comment, 0))
  }
}
