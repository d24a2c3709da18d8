/**
 Linear accrual over an attribution report: `accruedAt`, `liveAttributionView` and
 `spendAccrualCurve` of src/attribution/accrual.ts, over exact real numbers.
 */
module Accrual {
  import opened Basics
  import opened RealSums
  import opened Sequences

  const REPLAY_SPEED := 60.0

  datatype Row = Row(dimension: string, key: string, tokensIn: real, tokensOut: real, cost: real)

  datatype Rate = Rate(dimension: string, key: string, tokensIn: real, tokensOut: real, usd: real)

  datatype Accrued = Accrued(tokensIn: real, tokensOut: real, usd: real)

  /** A negative clock accrues nothing. */
  function Clamp(elapsed: real): real { if elapsed < 0.0 then 0.0 else elapsed }

  function AccruedAt(rate: Rate, elapsed: real): Accrued {
    var seconds := Clamp(elapsed) * REPLAY_SPEED;
    Accrued(rate.tokensIn * seconds, rate.tokensOut * seconds, rate.usd * seconds)
  }

  function RateKey(dimension: string, key: string): string { dimension + ":" + key }

  /** The rate a `Map` built from the list holds for a row: the last one with its key. */
  function RateFor(rates: seq<Rate>, row: Row): Option<Rate> {
    if rates == [] then None
    else
      var last := rates[|rates| - 1];
      if RateKey(last.dimension, last.key) == RateKey(row.dimension, row.key) then Some(last)
      else RateFor(rates[..|rates| - 1], row)
  }

  predicate AllRated(report: seq<Row>, rates: seq<Rate>) {
    forall i :: 0 <= i < |report| ==> RateFor(rates, report[i]).Some?
  }

  function AccruedOf(row: Row, rates: seq<Rate>, elapsed: real): Accrued
    requires RateFor(rates, row).Some?
  {
    AccruedAt(RateFor(rates, row).value, elapsed)
  }

  function LiveCost(row: Row, rates: seq<Rate>, elapsed: real): real
    requires RateFor(rates, row).Some?
  {
    row.cost + AccruedOf(row, rates, elapsed).usd
  }

  // -------------------------------------------------------------- the order

  /** Cost and key of the row at an index, with a default beyond the report. */
  function CostAt(report: seq<Row>, rates: seq<Rate>, elapsed: real, i: nat): real
    requires AllRated(report, rates)
  {
    if i < |report| then LiveCost(report[i], rates, elapsed) else 0.0
  }

  function KeyAt(report: seq<Row>, i: nat): string { if i < |report| then report[i].key else "" }

  /** Larger live cost first, then the smaller key, then the earlier report row: a stable sort's order. */
  predicate Ahead(report: seq<Row>, rates: seq<Rate>, elapsed: real, i: nat, j: nat)
    requires AllRated(report, rates)
  {
    var a, b := CostAt(report, rates, elapsed, i), CostAt(report, rates, elapsed, j);
    a > b || (a == b && KeyAhead(report, i, j))
  }

  predicate KeyAhead(report: seq<Row>, i: nat, j: nat) {
    if KeyAt(report, i) == KeyAt(report, j) then i <= j else TextLeq(KeyAt(report, i), KeyAt(report, j))
  }

  function AheadOrder(report: seq<Row>, rates: seq<Rate>, elapsed: real): (nat, nat) -> bool
    requires AllRated(report, rates)
  {
    (i: nat, j: nat) => AllRated(report, rates) && Ahead(report, rates, elapsed, i, j)
  }

  function Indices(n: nat): (r: seq<nat>)
    ensures |r| == n && forall i :: 0 <= i < n ==> r[i] == i
  {
    seq(n, i requires 0 <= i < n => i)
  }

  /** The report rows in display order. */
  function Order(report: seq<Row>, rates: seq<Rate>, elapsed: real): seq<nat>
    requires AllRated(report, rates)
  {
    Sort(Indices(|report|), AheadOrder(report, rates, elapsed))
  }

  lemma KeyAheadIsTotal(report: seq<Row>)
    ensures forall i: nat, j: nat :: KeyAhead(report, i, j) || KeyAhead(report, j, i)
    ensures forall i: nat, j: nat :: KeyAhead(report, i, j) && KeyAhead(report, j, i) ==> i == j
    ensures forall i: nat, j: nat, k: nat ::
              KeyAhead(report, i, j) && KeyAhead(report, j, k) ==> KeyAhead(report, i, k)
  {
    hide TextLeq, KeyAt;
    TextOrder();
  }

  lemma AheadIsTotal(report: seq<Row>, rates: seq<Rate>, elapsed: real)
    requires AllRated(report, rates)
    ensures TotalOrder(AheadOrder(report, rates, elapsed)) && Antisymmetric(AheadOrder(report, rates, elapsed))
  {
    hide KeyAhead, AllRated, CostAt;
    KeyAheadIsTotal(report);
  }

  lemma OrderIsPermutation(report: seq<Row>, rates: seq<Rate>, elapsed: real)
    requires AllRated(report, rates)
    ensures var order := Order(report, rates, elapsed);
            && |order| == |report|
            && multiset(order) == multiset(Indices(|report|))
            && Sorted(order, AheadOrder(report, rates, elapsed))
            && (forall k :: 0 <= k < |order| ==> order[k] < |report|)
            && Distinct(order)
  {
    hide TotalOrder, Antisymmetric, Sort, AheadOrder, AllRated, Sorted;
    AheadIsTotal(report, rates, elapsed);
    var indices, order := Indices(|report|), Order(report, rates, elapsed);
    SortCorrect(indices, AheadOrder(report, rates, elapsed));
    PermutationDistinct(indices, order);
    forall k | 0 <= k < |order|
      ensures order[k] < |report|
    {
      assert order[k] in multiset(order);
      assert order[k] in indices;
    }
  }

  // ---------------------------------------------------------------- the view

  datatype LiveRow = LiveRow(
    base: Row,
    rank: nat,
    accrued: Accrued,
    cost: real,
    tokensIn: real,
    tokensOut: real,
    share: real)

  datatype View = View(
    rows: seq<LiveRow>,
    totalBase: real,
    totalAccrued: real,
    totalLive: real,
    accruedTokensIn: real,
    accruedTokensOut: real,
    elapsed: real)

  function BaseCosts(report: seq<Row>): (r: seq<real>)
    ensures |r| == |report|
  {
    seq(|report|, i requires 0 <= i < |report| => report[i].cost)
  }

  function Accruals(report: seq<Row>, rates: seq<Rate>, elapsed: real): (r: seq<Accrued>)
    requires AllRated(report, rates)
    ensures |r| == |report|
  {
    seq(|report|, i requires 0 <= i < |report| => AccruedOf(report[i], rates, elapsed))
  }

  function UsdOf(): Accrued -> real { (a: Accrued) => a.usd }

  function TokensInOf(): Accrued -> real { (a: Accrued) => a.tokensIn }

  function TokensOutOf(): Accrued -> real { (a: Accrued) => a.tokensOut }

  function TotalLive(report: seq<Row>, rates: seq<Rate>, elapsed: real): real
    requires AllRated(report, rates)
  {
    Total(BaseCosts(report)) + Total(Map(Accruals(report, rates, elapsed), UsdOf()))
  }

  function LiveRowAt(report: seq<Row>, rates: seq<Rate>, elapsed: real, i: nat, rank: nat): LiveRow
    requires AllRated(report, rates) && i < |report|
  {
    var base, accrued := report[i], AccruedOf(report[i], rates, elapsed);
    var total := TotalLive(report, rates, elapsed);
    LiveRow(base, rank, accrued, base.cost + accrued.usd, base.tokensIn + accrued.tokensIn,
            base.tokensOut + accrued.tokensOut, if total == 0.0 then 0.0 else (base.cost + accrued.usd) / total)
  }

  function FirstUnrated(report: seq<Row>, rates: seq<Rate>): (r: Option<Row>)
    ensures r.None? <==> AllRated(report, rates)
  {
    if report == [] then None
    else if RateFor(rates, report[0]).None? then Some(report[0])
    else
      assert report == [report[0]] + report[1..];
      FirstUnrated(report[1..], rates)
  }

  /** The live view, or the row that has no rate. */
  function LiveAttributionView(report: seq<Row>, rates: seq<Rate>, elapsed: real): Result<View, Row> {
    match FirstUnrated(report, rates)
    case Some(row) => Err(row)
    case None =>
      var accruals := Accruals(report, rates, elapsed);
      Ok(View(
        RankedRows(report, rates, elapsed),
        Total(BaseCosts(report)),
        Total(Map(accruals, UsdOf())),
        TotalLive(report, rates, elapsed),
        Total(Map(accruals, TokensInOf())),
        Total(Map(accruals, TokensOutOf())),
        Clamp(elapsed)))
  }

  function RankedRows(report: seq<Row>, rates: seq<Rate>, elapsed: real): (r: seq<LiveRow>)
    requires AllRated(report, rates)
    ensures |r| == |report|
  {
    OrderIsPermutation(report, rates, elapsed);
    var order := Order(report, rates, elapsed);
    seq(|order|, k requires 0 <= k < |order| => LiveRowAt(report, rates, elapsed, order[k], k + 1))
  }

  // ------------------------------------------------------- what a view keeps

  function CostOf(): LiveRow -> real { (r: LiveRow) => r.cost }

  function ShareOf(): LiveRow -> real { (r: LiveRow) => r.share }

  function LiveAt(report: seq<Row>, rates: seq<Rate>, elapsed: real): nat -> real
    requires AllRated(report, rates)
  {
    (i: nat) => if AllRated(report, rates) then CostAt(report, rates, elapsed, i) else 0.0
  }

  lemma LiveCostsAdd(report: seq<Row>, rates: seq<Rate>, elapsed: real)
    requires AllRated(report, rates)
    ensures Total(Map(RankedRows(report, rates, elapsed), CostOf())) == TotalLive(report, rates, elapsed)
  {
    hide Order, Total, AccruedAt, RateFor;
    OrderIsPermutation(report, rates, elapsed);
    var order, indices := Order(report, rates, elapsed), Indices(|report|);
    var live := Map(indices, LiveAt(report, rates, elapsed));
    MapPermutes(order, indices, LiveAt(report, rates, elapsed));
    TotalPermutes(Map(order, LiveAt(report, rates, elapsed)), live);
    assert Map(RankedRows(report, rates, elapsed), CostOf()) == Map(order, LiveAt(report, rates, elapsed));
    TotalAdds(BaseCosts(report), Map(Accruals(report, rates, elapsed), UsdOf()), live);
  }

  /**
   At every moment: ranks are 1 to n, rows are in descending cost with key and report order breaking
   ties, live costs sum to the total, and shares sum to one unless the total is zero.
   */
  lemma ViewIsConsistent(report: seq<Row>, rates: seq<Rate>, elapsed: real)
    requires LiveAttributionView(report, rates, elapsed).Ok?
    ensures var v := LiveAttributionView(report, rates, elapsed).value;
            && |v.rows| == |report|
            && (forall k :: 0 <= k < |v.rows| ==> v.rows[k].rank == k + 1)
            && (forall k, l :: 0 <= k < l < |v.rows| ==> v.rows[k].cost >= v.rows[l].cost)
            && (forall k, l :: 0 <= k < l < |v.rows| && v.rows[k].cost == v.rows[l].cost ==>
                  TextLeq(v.rows[k].base.key, v.rows[l].base.key))
            && Total(Map(v.rows, CostOf())) == v.totalLive == v.totalBase + v.totalAccrued
            && (v.totalLive != 0.0 ==> Total(Map(v.rows, ShareOf())) == 1.0)
  {
    hide Order, Total, Map, AccruedAt, RateFor, TextLeq, Sorted;
    var v := LiveAttributionView(report, rates, elapsed).value;
    LiveCostsAdd(report, rates, elapsed);
    forall k, l | 0 <= k < l < |v.rows|
      ensures v.rows[k].cost >= v.rows[l].cost
      ensures v.rows[k].cost == v.rows[l].cost ==> TextLeq(v.rows[k].base.key, v.rows[l].base.key)
    {
      RankedPair(report, rates, elapsed, k, l);
    }
    if v.totalLive != 0.0 {
      SharesOf(v.rows, v.totalLive);
    }
  }

  lemma RankedPair(report: seq<Row>, rates: seq<Rate>, elapsed: real, k: nat, l: nat)
    requires AllRated(report, rates) && k < l < |report|
    ensures var rows := RankedRows(report, rates, elapsed);
            && rows[k].cost >= rows[l].cost
            && (rows[k].cost == rows[l].cost ==> TextLeq(rows[k].base.key, rows[l].base.key))
  {
    hide Order, AccruedAt, RateFor, TextLeq, TotalLive;
    OrderIsPermutation(report, rates, elapsed);
    var order := Order(report, rates, elapsed);
    assert AheadOrder(report, rates, elapsed)(order[k], order[l]);
    TextOrder();
  }

  lemma SharesOf(rows: seq<LiveRow>, total: real)
    requires total != 0.0 && Total(Map(rows, CostOf())) == total
    requires forall k :: 0 <= k < |rows| ==> rows[k].share == rows[k].cost / total
    ensures Total(Map(rows, ShareOf())) == 1.0
  {
    hide Total;
    SharesSumToOne(Map(rows, CostOf()), Map(rows, ShareOf()));
  }

  /** Display order is exactly `Ahead`: of two report rows, the one ahead is shown first. */
  lemma ShownFirstExactlyWhenAhead(report: seq<Row>, rates: seq<Rate>, elapsed: real, k: nat, l: nat)
    requires AllRated(report, rates) && k < |report| && l < |report| && k != l
    ensures var order := Order(report, rates, elapsed);
            |order| == |report| && (k < l <==> Ahead(report, rates, elapsed, order[k], order[l]))
  {
    hide Order, AccruedAt, RateFor, CostAt, KeyAhead;
    OrderIsPermutation(report, rates, elapsed);
    AheadIsTotal(report, rates, elapsed);
    var order := Order(report, rates, elapsed);
    var leq := AheadOrder(report, rates, elapsed);
    assert order[k] != order[l];
    if k < l {
      assert leq(order[k], order[l]);
    } else {
      assert leq(order[l], order[k]);
    }
  }

  // ------------------------------------------------------------ one flip only

  lemma CostIsLinear(row: Row, rates: seq<Rate>, elapsed: real)
    requires RateFor(rates, row).Some?
    ensures LiveCost(row, rates, elapsed) == row.cost + (RateFor(rates, row).value.usd * REPLAY_SPEED) * Clamp(elapsed)
  {
    hide RateFor;
    Regroup(RateFor(rates, row).value.usd, Clamp(elapsed));
  }

  lemma Regroup(u: real, t: real)
    ensures u * (t * REPLAY_SPEED) == (u * REPLAY_SPEED) * t
  {
  }

  lemma Difference(a: real, b: real, u: real, v: real, t: real)
    ensures (a + u * t) - (b + v * t) == (a - b) + (u - v) * t
  {
    Distribute(u, v, t);
  }

  lemma Distribute(u: real, v: real, t: real)
    ensures (u - v) * t == u * t - v * t
  {
  }

  lemma Grows(m: real, s: real, t: real)
    requires s <= t
    ensures m >= 0.0 ==> m * s <= m * t
    ensures m <= 0.0 ==> m * s >= m * t
  {
    var d := t - s;
    assert m * t == m * s + m * d;
    assert m >= 0.0 ==> m * d >= 0.0;
    assert m <= 0.0 ==> m * d <= 0.0;
  }

  /** A linear function that is positive, zero or negative at two times is not otherwise between them. */
  lemma SignsAreIntervals(d: real, m: real, t1: real, t2: real, t3: real)
    requires t1 <= t2 <= t3
    ensures d + m * t1 > 0.0 && d + m * t3 > 0.0 ==> d + m * t2 > 0.0
    ensures d + m * t1 >= 0.0 && d + m * t3 >= 0.0 ==> d + m * t2 >= 0.0
    ensures d + m * t1 < 0.0 && d + m * t3 < 0.0 ==> d + m * t2 < 0.0
    ensures d + m * t1 <= 0.0 && d + m * t3 <= 0.0 ==> d + m * t2 <= 0.0
  {
    Grows(m, t1, t2);
    Grows(m, t2, t3);
  }

  /**
   Over a session the relative order of two rows changes at most once, ties included: whatever order
   they have at two moments, they have at every moment in between.
   */
  lemma OrderFlipsAtMostOnce(report: seq<Row>, rates: seq<Rate>, i: nat, j: nat, t1: real, t2: real, t3: real)
    requires AllRated(report, rates) && i < |report| && j < |report|
    requires t1 <= t2 <= t3
    requires Ahead(report, rates, t1, i, j) == Ahead(report, rates, t3, i, j)
    ensures Ahead(report, rates, t2, i, j) == Ahead(report, rates, t1, i, j)
  {
    hide RateFor, KeyAhead, AccruedAt, LiveCost;
    var d := report[i].cost - report[j].cost;
    var u, v := RateFor(rates, report[i]).value.usd * REPLAY_SPEED, RateFor(rates, report[j]).value.usd * REPLAY_SPEED;
    GapAt(report[i], report[j], rates, t1);
    GapAt(report[i], report[j], rates, t2);
    GapAt(report[i], report[j], rates, t3);
    SignsAreIntervals(d, u - v, Clamp(t1), Clamp(t2), Clamp(t3));
  }

  lemma GapAt(a: Row, b: Row, rates: seq<Rate>, t: real)
    requires RateFor(rates, a).Some? && RateFor(rates, b).Some?
    ensures LiveCost(a, rates, t) - LiveCost(b, rates, t)
            == (a.cost - b.cost)
               + (RateFor(rates, a).value.usd * REPLAY_SPEED - RateFor(rates, b).value.usd * REPLAY_SPEED) * Clamp(t)
  {
    hide RateFor, LiveCost;
    CostIsLinear(a, rates, t);
    CostIsLinear(b, rates, t);
    Difference(a.cost, b.cost, RateFor(rates, a).value.usd * REPLAY_SPEED,
               RateFor(rates, b).value.usd * REPLAY_SPEED, Clamp(t));
  }

  // --------------------------------------------------------------- the curve

  datatype Point = Point(seconds: real, usd: real)

  /** The sample points: a single one sits at the present, several spread over the trailing window. */
  function SampleTime(elapsed: real, window: real, points: nat, i: nat): real
    requires points >= 1
  {
    Clamp(elapsed - window + Span(window, points, i))
  }

  function Span(window: real, points: nat, i: nat): real
    requires points >= 1
  {
    if points == 1 then window else window * i as real / (points - 1) as real
  }

  method SpendAccrualCurve(usdPerSecond: real, elapsedWall: real, points: int, windowSeconds: real)
    returns (out: seq<Point>)
    ensures |out| == if points < 1 then 1 else points
    ensures forall i :: 0 <= i < |out| ==>
              && out[i].usd == AccruedAt(Rate("", "", 0.0, 0.0, usdPerSecond), out[i].seconds).usd
              && 0.0 <= out[i].seconds <= Clamp(elapsedWall)
    ensures forall i :: 0 < i < |out| ==> out[i - 1].seconds <= out[i].seconds
    ensures out[|out| - 1].seconds == Clamp(elapsedWall)
    ensures forall i :: 0 <= i < |out| && |out| > 1 ==>
              out[i].seconds == SpacedBack(Clamp(elapsedWall), Clamp(windowSeconds), |out| - 1, |out| - 1 - i)
  {
    hide SampleTime, SpacedBack, AccruedAt;
    var n: nat := if points < 1 then 1 else points;
    var window, elapsed := Clamp(windowSeconds), Clamp(elapsedWall);
    out := [];
    for i := 0 to n
      invariant |out| == i
      invariant forall k :: 0 <= k < i ==>
                  && out[k].usd == AccruedAt(Rate("", "", 0.0, 0.0, usdPerSecond), out[k].seconds).usd
                  && out[k].seconds == SampleTime(elapsed, window, n, k)
                  && 0.0 <= out[k].seconds <= elapsed
      invariant forall k :: 0 < k < i ==> out[k - 1].seconds <= out[k].seconds
    {
      var t := SampleTime(elapsed, window, n, i);
      SamplesAdvance(elapsed, window, n, i);
      UsdAt(usdPerSecond, t);
      out := out + [Point(t, usdPerSecond * t * REPLAY_SPEED)];
    }
    LastSample(elapsed, window, n);
    EvenlySpaced(elapsed, window, n);
  }

  /** The moment `back` of `steps` even steps before the present, the window being all of them. */
  function SpacedBack(elapsed: real, window: real, steps: nat, back: nat): real
    requires steps >= 1
  {
    Clamp(elapsed - window * back as real / steps as real)
  }

  lemma EvenlySpaced(elapsed: real, window: real, n: nat)
    requires n >= 1
    ensures forall i :: 0 <= i < n && n > 1 ==>
              SampleTime(elapsed, window, n, i) == SpacedBack(elapsed, window, n - 1, n - 1 - i)
  {
    hide SampleTime, SpacedBack;
    forall i | 0 <= i < n && n > 1
      ensures SampleTime(elapsed, window, n, i) == SpacedBack(elapsed, window, n - 1, n - 1 - i)
    {
      SampleIsSpaced(elapsed, window, n, i);
    }
  }

  lemma SampleIsSpaced(elapsed: real, window: real, n: nat, i: nat)
    requires 1 < n && i < n
    ensures SampleTime(elapsed, window, n, i) == SpacedBack(elapsed, window, n - 1, n - 1 - i)
  {
    FromThePresent(window, i as real, (n - 1) as real);
  }

  /** Counted back from the present, the samples are evenly spaced. */
  lemma FromThePresent(window: real, i: real, d: real)
    requires d > 0.0
    ensures window - window * i / d == window * (d - i) / d
  {
    Cancel(window, d);
    assert window * (d - i) == window * d - window * i;
  }

  lemma UsdAt(u: real, t: real)
    requires t >= 0.0
    ensures u * t * REPLAY_SPEED == AccruedAt(Rate("", "", 0.0, 0.0, u), t).usd
  {
    Regroup(u, t);
  }

  lemma SpanOf(window: real, points: nat, i: nat)
    requires window >= 0.0 && points >= 2 && i < points
    ensures 0.0 <= Span(window, points, i) <= window
    ensures i > 0 ==> Span(window, points, i - 1) <= Span(window, points, i)
    ensures i == points - 1 ==> Span(window, points, i) == window
  {
    var d, k := (points - 1) as real, i as real;
    SpanBounds(window, k, d);
    if i > 0 {
      SpanGrows(window, (i - 1) as real, k, d);
    }
    if i == points - 1 {
      Cancel(window, d);
    }
  }

  lemma SpanBounds(window: real, k: real, d: real)
    requires window >= 0.0 && 0.0 <= k <= d && d > 0.0
    ensures 0.0 <= window * k / d <= window
  {
    Grows(window, 0.0, k);
    Grows(window, k, d);
    QuotientBetween(0.0, window * k, d);
    QuotientBetween(window * k, window * d, d);
    Cancel(window, d);
  }

  lemma SpanGrows(window: real, j: real, k: real, d: real)
    requires window >= 0.0 && j <= k && d > 0.0
    ensures window * j / d <= window * k / d
  {
    Grows(window, j, k);
    QuotientBetween(window * j, window * k, d);
  }

  lemma Cancel(w: real, d: real)
    requires d > 0.0
    ensures w * d / d == w
  {
  }

  lemma QuotientBetween(a: real, b: real, d: real)
    requires d > 0.0 && a <= b
    ensures a / d <= b / d
  {
    assert b / d - a / d == (b - a) / d;
    assert (b - a) / d >= 0.0;
  }

  lemma SamplesAdvance(elapsed: real, window: real, points: nat, i: nat)
    requires elapsed >= 0.0 && window >= 0.0 && points >= 1 && i < points
    ensures 0.0 <= SampleTime(elapsed, window, points, i) <= elapsed
    ensures i > 0 ==> SampleTime(elapsed, window, points, i - 1) <= SampleTime(elapsed, window, points, i)
  {
    hide Span;
    if points > 1 {
      SpanOf(window, points, i);
    } else {
      OneSample(window);
    }
  }

  lemma LastSample(elapsed: real, window: real, points: nat)
    requires elapsed >= 0.0 && window >= 0.0 && points >= 1
    ensures SampleTime(elapsed, window, points, points - 1) == elapsed
  {
    hide Span;
    if points > 1 {
      SpanOf(window, points, points - 1);
    } else {
      OneSample(window);
    }
  }

  lemma OneSample(window: real)
    ensures Span(window, 1, 0) == window
  {
  }
}
