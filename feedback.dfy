/**
 * The feedback record shown by the NPS and the customer-satisfaction (CTC) pages, and the
 * filter both pages run when "Filter" is pressed. The two pages declare the same record
 * (`NPSRating`, `Review`) and the same filter chain; they differ only in their seed lists.
 * Dates are day numbers (days since 1970-01-01), so `2024-01-01` is 19723.
 */
module Feedback {
  import opened Options
  import opened Seqs

  datatype Rating = Rating(id: int, customer: string, rating: int, reviewDate: int, segment: string, promoCode: string)

  /**
   * The filter form: the two date-picker bounds (each may be unset), the selected segment and
   * the selected promo code (the empty string means "not selected").
   */
  datatype Criteria = Criteria(from: Option<int>, to: Option<int>, segment: string, promoCode: string)

  /** The date range constrains only when both bounds are set. */
  predicate DateRangeSet(c: Criteria)
  {
    c.from.Some? && c.to.Some?
  }

  predicate DateOk(c: Criteria, r: Rating)
  {
    DateRangeSet(c) ==> c.from.value <= r.reviewDate <= c.to.value
  }

  predicate SegmentOk(c: Criteria, r: Rating)
  {
    c.segment != "" ==> r.segment == c.segment
  }

  predicate PromoCodeOk(c: Criteria, r: Rating)
  {
    c.promoCode != "" ==> r.promoCode == c.promoCode
  }

  /**
   * A record passes the filter when it meets every criterion that is set: with nothing set
   * every record passes, and a set segment or promo code must match exactly.
   */
  predicate Matches(c: Criteria, r: Rating)
    ensures !DateRangeSet(c) && c.segment == "" && c.promoCode == "" ==> Matches(c, r)
    ensures Matches(c, r) && c.segment != "" ==> r.segment == c.segment
    ensures Matches(c, r) && c.promoCode != "" ==> r.promoCode == c.promoCode
  {
    DateOk(c, r) && SegmentOk(c, r) && PromoCodeOk(c, r)
  }

  /** The records of `seed` that pass the filter, in seed order. */
  function Select(seed: seq<Rating>, c: Criteria): (r: seq<Rating>)
    ensures forall x :: x in r <==> x in seed && Matches(c, x)
  {
    Filter(x => Matches(c, x), seed)
  }

  /**
   * The body of `handleFilter`: start from the seed and narrow the list once per criterion
   * that is set, date range first, then segment, then promo code.
   */
  method FilterChain(seed: seq<Rating>, c: Criteria) returns (filtered: seq<Rating>)
    ensures filtered == Select(seed, c)
  {
    ghost var byDate := (x: Rating) => DateOk(c, x);
    ghost var byDateSegment := (x: Rating) => DateOk(c, x) && SegmentOk(c, x);
    ghost var byAll := (x: Rating) => Matches(c, x);

    filtered := seed;
    if c.from.Some? && c.to.Some? {
      var lo, hi := c.from.value, c.to.value;
      var inRange := (x: Rating) => lo <= x.reviewDate <= hi;
      FilterCongruent(inRange, byDate, seed);
      filtered := Filter(inRange, filtered);
    } else {
      FilterKeepsAll(byDate, seed);
    }
    assert filtered == Filter(byDate, seed);

    if c.segment != "" {
      var segment := c.segment;
      var inSegment := (x: Rating) => x.segment == segment;
      FilterFilter(byDate, inSegment, byDateSegment, seed);
      filtered := Filter(inSegment, filtered);
    } else {
      FilterCongruent(byDate, byDateSegment, seed);
    }
    assert filtered == Filter(byDateSegment, seed);

    if c.promoCode != "" {
      var code := c.promoCode;
      var withCode := (x: Rating) => x.promoCode == code;
      FilterFilter(byDateSegment, withCode, byAll, seed);
      filtered := Filter(withCode, filtered);
    } else {
      FilterCongruent(byDateSegment, byAll, seed);
    }
  }

  /** The filtered list is the seed with some records deleted and the rest in seed order. */
  lemma SelectIsSubsequence(seed: seq<Rating>, c: Criteria)
    ensures IsSubsequence(Select(seed, c), seed)
  {
    FilterIsSubsequence(x => Matches(c, x), seed);
  }

  /** With no date range (or only one bound), no segment and no promo code, the seed comes back whole. */
  lemma SelectWithoutCriteria(seed: seq<Rating>, c: Criteria)
    requires !DateRangeSet(c) && c.segment == "" && c.promoCode == ""
    ensures Select(seed, c) == seed
  {
    FilterKeepsAll(x => Matches(c, x), seed);
  }

  /**
   * The date range is inclusive at both ends: a record dated on either bound is kept whenever
   * it meets the other criteria, and a record dated outside the range never is.
   */
  lemma DateRangeInclusive(seed: seq<Rating>, c: Criteria, r: Rating)
    requires DateRangeSet(c) && r in seed && SegmentOk(c, r) && PromoCodeOk(c, r)
    ensures r in Select(seed, c) <==> c.from.value <= r.reviewDate <= c.to.value
  {
  }

  /** Running the filter on its own output changes nothing more. */
  lemma {:induction false} SelectIdempotent(seed: seq<Rating>, c: Criteria)
    ensures Select(Select(seed, c), c) == Select(seed, c)
  {
    var p := x => Matches(c, x);
    FilterFilter(p, p, p, seed);
  }
}
