/**
 * Influencer attribution: each influencer's promo code and the subscribers it brought in,
 * shown as a summary table (one row per influencer with a count) and a detail table (one row
 * per subscriber, flattened with `flatMap`). The settings page renders the same two tables
 * from the same shape of data.
 */
module Influencer {

  datatype Subscriber = Subscriber(id: int, name: string, date: int)

  datatype Campaign = Campaign(influencer: string, promoCode: string, subscribers: seq<Subscriber>)

  /** A summary row: influencer, promo code and "Subscribers Brought In". */
  datatype SummaryRow = SummaryRow(influencer: string, promoCode: string, subscriberCount: nat)

  /** A detail row: the subscriber (its id is the row key) and the influencer whose list it came from. */
  datatype DetailRow = DetailRow(key: int, name: string, date: int, influencer: string)

  /** One summary row per campaign, in order, counting that campaign's subscribers. */
  function SummaryRows(data: seq<Campaign>): (r: seq<SummaryRow>)
    ensures |r| == |data|
    ensures forall i :: 0 <= i < |data| ==>
      r[i].subscriberCount == |data[i].subscribers|
      && r[i].influencer == data[i].influencer && r[i].promoCode == data[i].promoCode
  {
    seq(|data|, i requires 0 <= i < |data| =>
      SummaryRow(data[i].influencer, data[i].promoCode, |data[i].subscribers|))
  }

  /** The sum of the summary counts. */
  function TotalCount(rows: seq<SummaryRow>): nat
  {
    if rows == [] then 0 else rows[0].subscriberCount + TotalCount(rows[1..])
  }

  function RowOf(c: Campaign, s: Subscriber): DetailRow
  {
    DetailRow(s.id, s.name, s.date, c.influencer)
  }

  /** The inner `map` of the `flatMap`: one campaign's subscribers, in order. */
  function RowsOf(c: Campaign): (r: seq<DetailRow>)
    ensures |r| == |c.subscribers|
    ensures forall j :: 0 <= j < |r| ==> r[j] == RowOf(c, c.subscribers[j])
  {
    seq(|c.subscribers|, j requires 0 <= j < |c.subscribers| => RowOf(c, c.subscribers[j]))
  }

  /** The detail table: every campaign's rows, one campaign after another, as many as the summary counts add up to. */
  function DetailRows(data: seq<Campaign>): (r: seq<DetailRow>)
    ensures |r| == TotalCount(SummaryRows(data))
  {
    if data == [] then []
    else
      var rest := DetailRows(data[1..]);
      assert SummaryRows(data)[1..] == SummaryRows(data[1..]);
      RowsOf(data[0]) + rest
  }

  /**
   * Subscriber `j` of campaign `i` sits in the detail table right after the subscribers of
   * the campaigns before `i`, and carries campaign `i`'s influencer.
   */
  lemma {:induction false} DetailRowPosition(data: seq<Campaign>, i: nat, j: nat)
    requires i < |data| && j < |data[i].subscribers|
    ensures TotalCount(SummaryRows(data[..i])) + j < |DetailRows(data)|
    ensures DetailRows(data)[TotalCount(SummaryRows(data[..i])) + j] == RowOf(data[i], data[i].subscribers[j])
  {
    if i > 0 {
      DetailRowPosition(data[1..], i - 1, j);
      assert data[1..][..i - 1] == data[..i][1..];
      assert SummaryRows(data[..i])[1..] == SummaryRows(data[..i][1..]);
    } else {
      assert data[..0] == [];
    }
  }

  /** Every detail row comes from some subscriber of some campaign and carries that campaign's influencer. */
  lemma {:induction false} DetailRowOrigin(data: seq<Campaign>, k: nat) returns (i: nat, j: nat)
    requires k < |DetailRows(data)|
    ensures i < |data| && j < |data[i].subscribers|
    ensures DetailRows(data)[k] == RowOf(data[i], data[i].subscribers[j])
    ensures DetailRows(data)[k].influencer == data[i].influencer
  {
    var first := RowsOf(data[0]);
    if k < |first| {
      i, j := 0, k;
    } else {
      var i', j' := DetailRowOrigin(data[1..], k - |first|);
      i, j := i' + 1, j';
    }
  }

  /** The page's seed data. */
  function InitialInfluencerData(): seq<Campaign>
  {
    [ Campaign("Alice", "NEWYEAR", [Subscriber(1, "John Doe", 19723), Subscriber(2, "Jane Smith", 19724)]),
      Campaign("Bob", "SUMMER", [Subscriber(3, "Michael Brown", 19754)]) ]
  }

  /** On the seed: Alice brought in 2, Bob 1, and the detail table has 2 + 1 = 3 rows. */
  lemma SeedTables()
    ensures SummaryRows(InitialInfluencerData())
         == [SummaryRow("Alice", "NEWYEAR", 2), SummaryRow("Bob", "SUMMER", 1)]
    ensures |DetailRows(InitialInfluencerData())| == 3
  {
    var d := InitialInfluencerData();
    assert d[1..] == [d[1]] && d[1..][1..] == [];
  }
}
