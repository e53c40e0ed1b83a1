/**
 * The Net Promoter Score page: bucket counts, score and percentages over the ratings on
 * display, and the page state that the filter replaces.
 */
module Nps {
  import opened Options
  import opened Seqs
  import opened Feedback

  /** The three filters of `calculateNPS`. */
  predicate IsPromoter(r: Rating) { r.rating >= 9 }
  predicate IsPassive(r: Rating) { r.rating >= 7 && r.rating <= 8 }
  predicate IsDetractor(r: Rating) { r.rating <= 6 }

  datatype Bucket = Promoter | Passive | Detractor

  /** The classification the three filters stand for; any integer falls in exactly one bucket. */
  function Classify(rating: int): Bucket
  {
    if rating >= 9 then Promoter else if rating >= 7 then Passive else Detractor
  }

  /**
   * What `calculateNPS` returns, before `toFixed(2)` turns the reals into strings.
   * A `None` is the NaN the page shows when there are no ratings (0 / 0).
   */
  datatype NpsMetrics = NpsMetrics(
    npsScore: Option<real>,
    promoters: nat, passives: nat, detractors: nat,
    promoterPercentage: Option<real>, passivePercentage: Option<real>, detractorPercentage: Option<real>)

  /** `(part / total) * 100`, undefined when `total` is zero. */
  function Percentage(part: int, total: nat): (r: Option<real>)
    ensures r.None? <==> total == 0
  {
    if total == 0 then None else Some(part as real / total as real * 100.0)
  }

  function CalculateNps(ratings: seq<Rating>): (m: NpsMetrics)
    ensures m.promoters + m.passives + m.detractors == |ratings|
    ensures m.npsScore.None? <==> ratings == []
  {
    var promoters := Count(IsPromoter, ratings);
    var passives := Count(IsPassive, ratings);
    var detractors := Count(IsDetractor, ratings);
    var total := |ratings|;
    BucketsPartition(ratings);
    NpsMetrics(
      Percentage(promoters - detractors, total),
      promoters, passives, detractors,
      Percentage(promoters, total), Percentage(passives, total), Percentage(detractors, total))
  }

  /** Each integer rating passes exactly one of the three filters, the one `Classify` names. */
  lemma FiltersAgreeWithClassify(r: Rating)
    ensures IsPromoter(r) <==> Classify(r.rating) == Promoter
    ensures IsPassive(r) <==> Classify(r.rating) == Passive
    ensures IsDetractor(r) <==> Classify(r.rating) == Detractor
  {
  }

  /** Promoters, passives and detractors together are all the ratings. */
  lemma BucketsPartition(ratings: seq<Rating>)
    ensures Count(IsPromoter, ratings) + Count(IsPassive, ratings) + Count(IsDetractor, ratings) == |ratings|
  {
    CountPartition(IsPromoter, IsPassive, IsDetractor, ratings);
  }

  /** A share of a positive total, times 100, lies in [0, 100]. */
  lemma PercentageBounds(part: nat, total: nat)
    requires part <= total && total > 0
    ensures 0.0 <= Percentage(part, total).value <= 100.0
  {
    RatioBounds(part as real, total as real);
  }

  lemma RatioBounds(x: real, t: real)
    requires t > 0.0 && -t <= x <= t
    ensures -100.0 <= x / t * 100.0 <= 100.0
    ensures 0.0 <= x ==> 0.0 <= x / t * 100.0
  {
  }

  lemma SplitRatio(x: real, y: real, z: real, t: real)
    requires t > 0.0
    ensures (x - z) / t * 100.0 == x / t * 100.0 - z / t * 100.0
    ensures x / t * 100.0 + y / t * 100.0 + z / t * 100.0 == (x + y + z) / t * 100.0
  {
  }

  /** For a non-empty list the score lies between -100 (all detractors) and 100 (all promoters). */
  lemma ScoreBounds(ratings: seq<Rating>)
    requires ratings != []
    ensures -100.0 <= CalculateNps(ratings).npsScore.value <= 100.0
  {
    var m := CalculateNps(ratings);
    RatioBounds((m.promoters - m.detractors) as real, |ratings| as real);
  }

  /** The score is the promoter percentage minus the detractor percentage. */
  lemma ScoreIsPercentageDifference(ratings: seq<Rating>)
    requires ratings != []
    ensures CalculateNps(ratings).npsScore.value
         == CalculateNps(ratings).promoterPercentage.value - CalculateNps(ratings).detractorPercentage.value
  {
    var m := CalculateNps(ratings);
    SplitRatio(m.promoters as real, m.passives as real, m.detractors as real, |ratings| as real);
  }

  /** Each percentage lies in [0, 100] and, before rounding, the three add up to exactly 100. */
  lemma PercentagesSum(ratings: seq<Rating>)
    requires ratings != []
    ensures var m := CalculateNps(ratings);
      && 0.0 <= m.promoterPercentage.value <= 100.0
      && 0.0 <= m.passivePercentage.value <= 100.0
      && 0.0 <= m.detractorPercentage.value <= 100.0
      && m.promoterPercentage.value + m.passivePercentage.value + m.detractorPercentage.value == 100.0
  {
    var m := CalculateNps(ratings);
    PercentagesOfPartition(m.promoters, m.passives, m.detractors, |ratings|);
  }

  lemma PercentagesOfPartition(p: nat, q: nat, d: nat, n: nat)
    requires p + q + d == n && n > 0
    ensures && 0.0 <= Percentage(p, n).value <= 100.0
            && 0.0 <= Percentage(q, n).value <= 100.0
            && 0.0 <= Percentage(d, n).value <= 100.0
            && Percentage(p, n).value + Percentage(q, n).value + Percentage(d, n).value == 100.0
  {
    PercentageBounds(p, n);
    PercentageBounds(q, n);
    PercentageBounds(d, n);
    SplitRatio(p as real, q as real, d as real, n as real);
  }

  /** With nothing to count the page shows NaN for the score and every percentage, and zero counts. */
  lemma EmptyIsUndefined()
    ensures CalculateNps([]) == NpsMetrics(None, 0, 0, 0, None, None, None)
  {
  }

  /** The seed list loaded by the page. */
  function InitialNpsRatings(): seq<Rating>
  {
    [ Rating(1, "Alice", 9, 19723, "VIP", "NEWYEAR"),
      Rating(2, "Bob", 6, 19724, "Regular", "SUMMER"),
      Rating(3, "Charlie", 3, 19725, "VIP", "NEWYEAR") ]
  }

  /** On the seed ratings 9, 6, 3: one promoter, no passive, two detractors, score -33.33... */
  lemma SeedMetrics()
    ensures CalculateNps(InitialNpsRatings())
         == NpsMetrics(Some(-100.0 / 3.0), 1, 0, 2, Some(100.0 / 3.0), Some(0.0), Some(200.0 / 3.0))
  {
    var s := InitialNpsRatings();
    assert Filter(IsPromoter, s) == [s[0]];
    assert Filter(IsPassive, s) == [];
    assert Filter(IsDetractor, s) == [s[1], s[2]];
  }

  /** Ratings 9, 9, 7, 6: two promoters, one passive, one detractor, score 25. */
  lemma FourRatingsExample()
    ensures var s := [ Rating(1, "A", 9, 19723, "VIP", ""), Rating(2, "B", 9, 19723, "VIP", ""),
                       Rating(3, "C", 7, 19723, "VIP", ""), Rating(4, "D", 6, 19723, "VIP", "") ];
      CalculateNps(s) == NpsMetrics(Some(25.0), 2, 1, 1, Some(50.0), Some(25.0), Some(25.0))
  {
    var s := [ Rating(1, "A", 9, 19723, "VIP", ""), Rating(2, "B", 9, 19723, "VIP", ""),
               Rating(3, "C", 7, 19723, "VIP", ""), Rating(4, "D", 6, 19723, "VIP", "") ];
    assert Filter(IsPromoter, s) == [s[0], s[1]];
    assert Filter(IsPassive, s) == [s[2]];
    assert Filter(IsDetractor, s) == [s[3]];
  }

  /** The page: the ratings on display, the filter form and the loading flag. */
  class NpsPage {
    var ratings: seq<Rating>
    var dateRange: (Option<int>, Option<int>)
    var selectedSegment: string
    var selectedPromoCode: string
    var loading: bool

    constructor ()
      ensures ratings == InitialNpsRatings()
      ensures dateRange == (None, None) && selectedSegment == "" && selectedPromoCode == ""
      ensures !loading
    {
      ratings := InitialNpsRatings();
      dateRange := (None, None);
      selectedSegment := "";
      selectedPromoCode := "";
      loading := false;
    }

    function FilterCriteria(): Criteria
      reads this
    {
      Criteria(dateRange.0, dateRange.1, selectedSegment, selectedPromoCode)
    }

    /** `npsMetrics`: the metrics the cards show for the ratings on display. */
    function Metrics(): (m: NpsMetrics)
      reads this
      ensures m.promoters + m.passives + m.detractors == |ratings|
    {
      CalculateNps(ratings)
    }

    /**
     * `handleFilter` once its timer fires: the ratings on display become the seed narrowed by
     * the form, whatever an earlier filter left on display; the form is kept.
     */
    method HandleFilter()
      modifies this
      ensures ratings == Select(InitialNpsRatings(), old(FilterCriteria()))
      ensures dateRange == old(dateRange) && selectedSegment == old(selectedSegment)
      ensures selectedPromoCode == old(selectedPromoCode)
      ensures !loading
    {
      loading := true;
      var filtered := FilterChain(InitialNpsRatings(), FilterCriteria());
      ratings := filtered;
      loading := false;
    }
  }
}
