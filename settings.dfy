/**
 * The management dashboard: user accounts whose status the page flips between "active" and
 * "inactive", and the promo-code performance tab (a summary table, the flattened subscriber
 * table of the influencer page, and a bar chart of subscriber counts per promo code).
 */
module Settings {
  import opened Influencer

  datatype Account = Account(id: int, name: string, email: string, status: string)

  /** The status a toggle gives: "active" becomes "inactive", anything else becomes "active". */
  function Flipped(status: string): (r: string)
    ensures r == "active" || r == "inactive"
    ensures r == "inactive" <==> status == "active"
  {
    if status == "active" then "inactive" else "active"
  }

  /** The list after `toggleUserStatus(id)`: the accounts with that id flip, the rest are kept. */
  function ToggleStatus(users: seq<Account>, id: int): (r: seq<Account>)
    ensures |r| == |users|
    ensures forall i :: 0 <= i < |users| ==>
      && (users[i].id == id ==> r[i] == users[i].(status := Flipped(users[i].status)))
      && (users[i].id != id ==> r[i] == users[i])
  {
    seq(|users|, i requires 0 <= i < |users| =>
      if users[i].id == id then users[i].(status := Flipped(users[i].status)) else users[i])
  }

  predicate KnownStatus(a: Account)
  {
    a.status == "active" || a.status == "inactive"
  }

  /** When the accounts with that id are "active" or "inactive", toggling twice gives back the list. */
  lemma ToggleStatusTwice(users: seq<Account>, id: int)
    requires forall a :: a in users && a.id == id ==> KnownStatus(a)
    ensures ToggleStatus(ToggleStatus(users, id), id) == users
  {
    var r := ToggleStatus(ToggleStatus(users, id), id);
    forall i | 0 <= i < |users|
      ensures r[i] == users[i]
    {
      if users[i].id == id {
        assert users[i] in users;
      }
    }
  }

  /** After a toggle every account with that id has a known status; one that had another status is now "active". */
  lemma ToggleNormalises(users: seq<Account>, id: int)
    ensures forall a :: a in ToggleStatus(users, id) && a.id == id ==> KnownStatus(a)
    ensures forall i :: 0 <= i < |users| && users[i].id == id && !KnownStatus(users[i]) ==>
      ToggleStatus(users, id)[i].status == "active"
  {
    var r := ToggleStatus(users, id);
    forall a | a in r && a.id == id
      ensures KnownStatus(a)
    {
      var i :| 0 <= i < |r| && r[i] == a;
    }
  }

  /** A status outside the two known ones is not given back by two toggles: it ends up "inactive". */
  lemma UnknownStatusNotRestored()
    ensures ToggleStatus(ToggleStatus([Account(3, "Carol", "carol@example.com", "pending")], 3), 3)
         == [Account(3, "Carol", "carol@example.com", "inactive")]
  {
  }

  /** A bar of the chart: promo code on the x axis, subscriber count as the bar. */
  datatype ChartPoint = ChartPoint(promoCode: string, influencer: string, subscribers: nat)

  /** `chartData`: one bar per promo code, in the order of the performance list. */
  function ChartData(performance: seq<Campaign>): (r: seq<ChartPoint>)
    ensures |r| == |performance|
    ensures forall i :: 0 <= i < |performance| ==> r[i].subscribers == |performance[i].subscribers|
  {
    seq(|performance|, i requires 0 <= i < |performance| =>
      ChartPoint(performance[i].promoCode, performance[i].influencer, |performance[i].subscribers|))
  }

  /** The sum of the bar heights. */
  function ChartTotal(points: seq<ChartPoint>): nat
  {
    if points == [] then 0 else points[0].subscribers + ChartTotal(points[1..])
  }

  /** Each bar shows the same promo code, influencer and count as the same row of the summary table. */
  lemma ChartAgreesWithSummary(performance: seq<Campaign>)
    ensures var chart, rows := ChartData(performance), SummaryRows(performance);
      forall i :: 0 <= i < |performance| ==>
        chart[i] == ChartPoint(rows[i].promoCode, rows[i].influencer, rows[i].subscriberCount)
  {
  }

  /** The bars add up to the number of rows in the subscriber details table. */
  lemma {:induction false} ChartTotalIsDetailRowCount(performance: seq<Campaign>)
    ensures ChartTotal(ChartData(performance)) == |DetailRows(performance)|
  {
    if performance != [] {
      ChartTotalIsDetailRowCount(performance[1..]);
      assert ChartData(performance)[1..] == ChartData(performance[1..]);
    }
  }

  /** The seed accounts. */
  function InitialAccounts(): seq<Account>
  {
    [ Account(1, "Alice", "alice@example.com", "active"),
      Account(2, "Bob", "bob@example.com", "inactive") ]
  }

  /** On the seed: two bars, NEWYEAR with 2 and SUMMER with 1, over 3 subscriber rows. */
  lemma SeedChart()
    ensures ChartData(InitialInfluencerData())
         == [ChartPoint("NEWYEAR", "Alice", 2), ChartPoint("SUMMER", "Bob", 1)]
    ensures ChartTotal(ChartData(InitialInfluencerData())) == 3
  {
    var c := ChartData(InitialInfluencerData());
    assert c[1..] == [c[1]] && c[1..][1..] == [];
  }

  /** The page: the account list is state; the performance list is never changed. */
  class ManagementPage {
    var users: seq<Account>
    const performanceData: seq<Campaign>

    constructor ()
      ensures users == InitialAccounts() && performanceData == InitialInfluencerData()
    {
      users := InitialAccounts();
      performanceData := InitialInfluencerData();
    }

    /** `toggleUserStatus(id)` */
    method ToggleUserStatus(id: int)
      modifies this
      ensures users == ToggleStatus(old(users), id)
      ensures forall a :: a in users && a.id == id ==> KnownStatus(a)
    {
      users := ToggleStatus(users, id);
      ToggleNormalises(old(users), id);
    }
  }
}
