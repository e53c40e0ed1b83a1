/**
 * The customer-satisfaction page: average star rating, five-star count and share over the
 * reviews on display, and the page state that the filter replaces.
 */
module Ctc {
  import opened Options
  import opened Seqs
  import opened Feedback

  /** `reviews.reduce((sum, review) => sum + review.rating, 0)`, folded from the left. */
  function SumRatings(reviews: seq<Rating>): int
  {
    if reviews == [] then 0 else SumRatings(reviews[..|reviews| - 1]) + reviews[|reviews| - 1].rating
  }

  /** `averageRating`; `None` is the NaN of 0 / 0 on an empty list. */
  function AverageRating(reviews: seq<Rating>): (r: Option<real>)
    ensures r.None? <==> reviews == []
  {
    if reviews == [] then None else Some(SumRatings(reviews) as real / |reviews| as real)
  }

  predicate IsFiveStar(r: Rating) { r.rating == 5 }

  /** `fiveStarCount` */
  function FiveStarCount(reviews: seq<Rating>): (n: nat)
    ensures n <= |reviews|
  {
    Count(IsFiveStar, reviews)
  }

  /** `fiveStarPercentage`; `None` is the NaN of 0 / 0 on an empty list. */
  function FiveStarPercentage(reviews: seq<Rating>): (r: Option<real>)
    ensures r.None? <==> reviews == []
  {
    if reviews == [] then None else Some(FiveStarCount(reviews) as real / |reviews| as real * 100.0)
  }

  /** If every rating lies in [lo, hi], the sum lies between n * lo and n * hi. */
  lemma {:induction false} SumBounds(reviews: seq<Rating>, lo: int, hi: int)
    requires forall x :: x in reviews ==> lo <= x.rating <= hi
    ensures |reviews| * lo <= SumRatings(reviews) <= |reviews| * hi
  {
    if reviews != [] {
      var n := |reviews|;
      var init := reviews[..n - 1];
      assert forall x :: x in init ==> x in reviews;
      assert reviews[n - 1] in reviews;
      SumBounds(init, lo, hi);
      assert (n - 1) * lo + lo == n * lo && (n - 1) * hi + hi == n * hi;
    }
  }

  lemma MeanBounds(sum: real, n: real, lo: real, hi: real)
    requires n > 0.0 && n * lo <= sum <= n * hi
    ensures lo <= sum / n <= hi
  {
  }

  /** The average of ratings that all lie in [lo, hi] lies in [lo, hi] too. */
  lemma AverageWithinBounds(reviews: seq<Rating>, lo: int, hi: int)
    requires reviews != []
    requires forall x :: x in reviews ==> lo <= x.rating <= hi
    ensures lo as real <= AverageRating(reviews).value <= hi as real
  {
    SumBounds(reviews, lo, hi);
    MeanBounds(SumRatings(reviews) as real, |reviews| as real, lo as real, hi as real);
  }

  /** The smallest and the largest rating of a non-empty list. */
  function MinRating(reviews: seq<Rating>): (m: int)
    requires reviews != []
    ensures exists x :: x in reviews && x.rating == m
    ensures forall x :: x in reviews ==> m <= x.rating
  {
    if |reviews| == 1 then reviews[0].rating
    else
      var rest := MinRating(reviews[1..]);
      assert forall x :: x in reviews ==> x == reviews[0] || x in reviews[1..];
      if reviews[0].rating <= rest then reviews[0].rating else rest
  }

  function MaxRating(reviews: seq<Rating>): (m: int)
    requires reviews != []
    ensures exists x :: x in reviews && x.rating == m
    ensures forall x :: x in reviews ==> x.rating <= m
  {
    if |reviews| == 1 then reviews[0].rating
    else
      var rest := MaxRating(reviews[1..]);
      assert forall x :: x in reviews ==> x == reviews[0] || x in reviews[1..];
      if reviews[0].rating >= rest then reviews[0].rating else rest
  }

  /** For a non-empty list the average lies between the lowest and the highest rating. */
  lemma AverageBetweenMinAndMax(reviews: seq<Rating>)
    requires reviews != []
    ensures MinRating(reviews) as real <= AverageRating(reviews).value <= MaxRating(reviews) as real
  {
    AverageWithinBounds(reviews, MinRating(reviews), MaxRating(reviews));
  }

  /** The five-star count is the length exactly when every review has five stars, and zero exactly when none has. */
  lemma FiveStarCountExtremes(reviews: seq<Rating>)
    ensures FiveStarCount(reviews) == |reviews| <==> forall x :: x in reviews ==> x.rating == 5
    ensures FiveStarCount(reviews) == 0 <==> forall x :: x in reviews ==> x.rating != 5
  {
    CountFull(IsFiveStar, reviews);
    if forall x :: x in reviews ==> x.rating != 5 {
      FilterDropsAll(IsFiveStar, reviews);
    }
  }

  /** For a non-empty list the five-star share lies in [0, 100] and is 100 exactly when every review has five stars. */
  lemma FiveStarPercentageBounds(reviews: seq<Rating>)
    requires reviews != []
    ensures 0.0 <= FiveStarPercentage(reviews).value <= 100.0
    ensures FiveStarPercentage(reviews).value == 100.0 <==> forall x :: x in reviews ==> x.rating == 5
  {
    var n := |reviews| as real;
    var k := FiveStarCount(reviews) as real;
    FiveStarCountExtremes(reviews);
    MeanBounds(k, n, 0.0, 1.0);
    ShareIsWholeIff(k, n);
  }

  lemma ShareIsWholeIff(k: real, n: real)
    requires n > 0.0
    ensures k / n * 100.0 == 100.0 <==> k == n
  {
  }

  /** The seed list loaded by the page. */
  function InitialReviews(): seq<Rating>
  {
    [ Rating(1, "Alice", 5, 19723, "VIP", "NEWYEAR"),
      Rating(2, "Bob", 4, 19724, "Regular", "SUMMER"),
      Rating(3, "Charlie", 5, 19725, "VIP", "NEWYEAR") ]
  }

  /** On the seed ratings 5, 4, 5: two five-star reviews and an average of 14 / 3. */
  lemma SeedStatistics()
    ensures FiveStarCount(InitialReviews()) == 2
    ensures AverageRating(InitialReviews()) == Some(14.0 / 3.0)
    ensures FiveStarPercentage(InitialReviews()) == Some(200.0 / 3.0)
  {
    var s := InitialReviews();
    assert Filter(IsFiveStar, s) == [s[0], s[2]];
    assert s[..2][..1] == [s[0]] && s[..2] == [s[0], s[1]] && s[..2][..1][..0] == [];
    assert SumRatings(s[..2][..1]) == 5;
    assert SumRatings(s[..2]) == 9;
    assert SumRatings(s) == 14;
  }

  /** The page: the reviews on display, the filter form and the loading flag. */
  class CtcPage {
    var reviews: seq<Rating>
    var dateRange: (Option<int>, Option<int>)
    var selectedSegment: string
    var selectedPromoCode: string
    var loading: bool

    constructor ()
      ensures reviews == InitialReviews()
      ensures dateRange == (None, None) && selectedSegment == "" && selectedPromoCode == ""
      ensures !loading
    {
      reviews := InitialReviews();
      dateRange := (None, None);
      selectedSegment := "";
      selectedPromoCode := "";
      loading := false;
    }

    function FilterCriteria(): Criteria
      reads this
    {
      Criteria(dateRange.0, dateRange.1, selectedSegment, selectedPromoCode)
    }

    /**
     * `handleFilter` once its timer fires: the reviews on display become the seed narrowed by
     * the form, whatever an earlier filter left on display; the form is kept.
     */
    method HandleFilter()
      modifies this
      ensures reviews == Select(InitialReviews(), old(FilterCriteria()))
      ensures dateRange == old(dateRange) && selectedSegment == old(selectedSegment)
      ensures selectedPromoCode == old(selectedPromoCode)
      ensures !loading
    {
      loading := true;
      var filtered := FilterChain(InitialReviews(), FilterCriteria());
      reviews := filtered;
      loading := false;
    }
  }
}
