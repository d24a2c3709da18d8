/**
 What the live view of src/attribution/accrual.ts shows of a report: each row once, with what its own rate has
 accrued on the replayed clock.
 */
module AccrualMeaning {
  import opened Basics
  import opened Accrual
  import opened Digits
  import opened RealSums
  import opened Sequences

  /** A dimension is a plain word; the colon that parts it from the key occurs in none. */
  predicate PlainWords(report: seq<Row>, rates: seq<Rate>) {
    && (forall i :: 0 <= i < |report| ==> Without(report[i].dimension, ':'))
    && (forall i :: 0 <= i < |rates| ==> Without(rates[i].dimension, ':'))
  }

  predicate Rates(rate: Rate, row: Row) { rate.dimension == row.dimension && rate.key == row.key }

  /** The last rate of the row's own dimension and key. */
  predicate IsRateOf(rates: seq<Rate>, row: Row, rate: Rate) {
    exists i :: 0 <= i < |rates| && rates[i] == rate && Rates(rate, row)
                && forall k :: i < k < |rates| ==> !Rates(rates[k], row)
  }

  /** The replayed clock: sixty seconds of burn for a second of the wall clock, none before it starts. */
  function Replayed(elapsed: real): real { if elapsed > 0.0 then 60.0 * elapsed else 0.0 }

  /** The row shows a report row with what its rate accrued, and its part of the total. */
  predicate ShowsRow(live: LiveRow, rate: Rate, elapsed: real, totalLive: real) {
    var t := Replayed(elapsed);
    && live.accrued.usd == rate.usd * t && live.cost == live.base.cost + rate.usd * t
    && live.accrued.tokensIn == rate.tokensIn * t && live.tokensIn == live.base.tokensIn + rate.tokensIn * t
    && live.accrued.tokensOut == rate.tokensOut * t && live.tokensOut == live.base.tokensOut + rate.tokensOut * t
    && (if totalLive == 0.0 then live.share == 0.0 else live.share * totalLive == live.cost)
  }

  ghost predicate ShowsRated(rates: seq<Rate>, live: LiveRow, elapsed: real, totalLive: real) {
    exists rate :: IsRateOf(rates, live.base, rate) && ShowsRow(live, rate, elapsed, totalLive)
  }

  function BaseOf(): LiveRow -> Row { (r: LiveRow) => r.base }

  function BaseCostOf(): LiveRow -> real { (r: LiveRow) => r.base.cost }

  function AccruedUsdOf(): LiveRow -> real { (r: LiveRow) => r.accrued.usd }

  function AccruedInOf(): LiveRow -> real { (r: LiveRow) => r.accrued.tokensIn }

  function AccruedOutOf(): LiveRow -> real { (r: LiveRow) => r.accrued.tokensOut }

  lemma KeysMatch(a: string, x: string, b: string, y: string)
    requires Without(a, ':') && Without(b, ':')
    ensures RateKey(a, x) == RateKey(b, y) <==> a == b && x == y
  {
    var tail, rest := ":" + x, ":" + y;
    assert RateKey(a, x) == a + tail && RateKey(b, y) == b + rest;
    BeforeUnique(a, ':', tail);
    BeforeUnique(b, ':', rest);
    assert (a + tail)[|a| + 1..] == x && (b + rest)[|b| + 1..] == y;
  }

  lemma {:induction false} RateForMeans(rates: seq<Rate>, row: Row)
    requires PlainWords([row], rates)
    ensures match RateFor(rates, row)
            case Some(rate) => IsRateOf(rates, row, rate)
            case None => forall k :: 0 <= k < |rates| ==> !Rates(rates[k], row)
  {
    hide RateKey, Without;
    if rates != [] {
      var n := |rates| - 1;
      assert Without([row][0].dimension, ':');
      KeysMatch(rates[n].dimension, rates[n].key, row.dimension, row.key);
      if !Rates(rates[n], row) {
        RateForMeans(rates[..n], row);
        if RateFor(rates[..n], row).Some? {
          var rate := RateFor(rates[..n], row).value;
          var i :| 0 <= i < n && rates[..n][i] == rate && forall k :: i < k < n ==> !Rates(rates[..n][k], row);
          assert rates[i] == rate && forall k :: i < k < n ==> rates[..n][k] == rates[k];
        }
      }
    }
  }

  lemma ClockMeans(rate: Rate, elapsed: real)
    ensures var a, t := AccruedAt(rate, elapsed), Replayed(elapsed);
            a.usd == rate.usd * t && a.tokensIn == rate.tokensIn * t && a.tokensOut == rate.tokensOut * t
  {
    assert Clamp(elapsed) * REPLAY_SPEED == Replayed(elapsed);
  }

  lemma ShareUndone(cost: real, total: real)
    requires total != 0.0
    ensures cost / total * total == cost
  {
  }

  lemma RowMeans(report: seq<Row>, rates: seq<Rate>, elapsed: real, i: nat, rank: nat)
    requires AllRated(report, rates) && PlainWords(report, rates) && i < |report|
    ensures var live := LiveRowAt(report, rates, elapsed, i, rank);
            live.base == report[i] && ShowsRated(rates, live, elapsed, TotalLive(report, rates, elapsed))
  {
    hide RateFor, AccruedAt, Total, IsRateOf, Replayed;
    var rate, total := RateFor(rates, report[i]).value, TotalLive(report, rates, elapsed);
    assert PlainWords([report[i]], rates);
    RateForMeans(rates, report[i]);
    ClockMeans(rate, elapsed);
    var live := LiveRowAt(report, rates, elapsed, i, rank);
    if total != 0.0 {
      ShareUndone(live.cost, total);
    }
    assert ShowsRow(live, rate, elapsed, total);
  }

  /** The row of the report at an index, and what it accrued. */
  function BaseAt(report: seq<Row>, row: Row): nat -> Row { (i: nat) => if i < |report| then report[i] else row }

  lemma RowsAreTheReport(report: seq<Row>, rates: seq<Rate>, elapsed: real)
    requires AllRated(report, rates) && report != []
    ensures multiset(Map(RankedRows(report, rates, elapsed), BaseOf())) == multiset(report)
  {
    hide Order, LiveRowAt, AllRated;
    OrderIsPermutation(report, rates, elapsed);
    var order, at := Order(report, rates, elapsed), BaseAt(report, report[0]);
    BaseOfRow(report, rates, elapsed);
    MapPermutes(order, Indices(|report|), at);
    assert Map(RankedRows(report, rates, elapsed), BaseOf()) == Map(order, at);
    assert Map(Indices(|report|), at) == report;
  }

  lemma BaseOfRow(report: seq<Row>, rates: seq<Rate>, elapsed: real)
    requires AllRated(report, rates)
    ensures forall i: nat, rank: nat :: i < |report| ==> LiveRowAt(report, rates, elapsed, i, rank).base == report[i]
  {
    hide AllRated, RateFor, Total, AccruedAt;
  }

  /** Each total of the view is the sum over the rows it shows. */
  lemma FigureAdds(report: seq<Row>, rates: seq<Rate>, elapsed: real, shown: LiveRow -> real,
                   figures: seq<real>)
    requires AllRated(report, rates) && |figures| == |report|
    requires forall i: nat, rank: nat :: i < |report| ==>
               shown(LiveRowAt(report, rates, elapsed, i, rank)) == figures[i]
    ensures Total(Map(RankedRows(report, rates, elapsed), shown)) == Total(figures)
  {
    hide Order, LiveRowAt, AllRated, Total;
    OrderIsPermutation(report, rates, elapsed);
    var order, at := Order(report, rates, elapsed), FigureAt(figures);
    MapPermutes(order, Indices(|report|), at);
    assert Map(RankedRows(report, rates, elapsed), shown) == Map(order, at);
    assert Map(Indices(|report|), at) == figures;
    TotalPermutes(Map(order, at), figures);
  }

  function FigureAt(figures: seq<real>): nat -> real { (i: nat) => if i < |figures| then figures[i] else 0.0 }

  lemma TotalsMean(report: seq<Row>, rates: seq<Rate>, elapsed: real)
    requires AllRated(report, rates)
    ensures var rows, accruals := RankedRows(report, rates, elapsed), Accruals(report, rates, elapsed);
            && Total(Map(rows, BaseCostOf())) == Total(BaseCosts(report))
            && Total(Map(rows, AccruedUsdOf())) == Total(Map(accruals, UsdOf()))
            && Total(Map(rows, AccruedInOf())) == Total(Map(accruals, TokensInOf()))
            && Total(Map(rows, AccruedOutOf())) == Total(Map(accruals, TokensOutOf()))
  {
    hide RankedRows, RateFor, Total, AccruedAt;
    var accruals := Accruals(report, rates, elapsed);
    FigureAdds(report, rates, elapsed, BaseCostOf(), BaseCosts(report));
    FigureAdds(report, rates, elapsed, AccruedUsdOf(), Map(accruals, UsdOf()));
    FigureAdds(report, rates, elapsed, AccruedInOf(), Map(accruals, TokensInOf()));
    FigureAdds(report, rates, elapsed, AccruedOutOf(), Map(accruals, TokensOutOf()));
  }

  predicate Unrated(rates: seq<Rate>, row: Row) { forall k :: 0 <= k < |rates| ==> !Rates(rates[k], row) }

  lemma {:induction false} FirstUnratedIs(report: seq<Row>, rates: seq<Rate>)
    requires PlainWords(report, rates)
    ensures match FirstUnrated(report, rates)
            case Some(row) => row in report && Unrated(rates, row)
            case None => forall i :: 0 <= i < |report| ==> !Unrated(rates, report[i])
  {
    hide RateFor, Without;
    if report != [] {
      assert PlainWords([report[0]], rates);
      RateForMeans(rates, report[0]);
      assert report == [report[0]] + report[1..];
      FirstUnratedIs(report[1..], rates);
    }
  }

  /**
   The view is given exactly when every row has a rate of its own. It shows every row of the report once, with what
   the last such rate accrued on the replayed clock, and its totals are the sums over the rows it shows.
   */
  lemma ViewMeans(report: seq<Row>, rates: seq<Rate>, elapsed: real)
    requires PlainWords(report, rates)
    ensures match LiveAttributionView(report, rates, elapsed)
            case Err(row) => row in report && Unrated(rates, row)
            case Ok(v) =>
              && (forall i :: 0 <= i < |report| ==> !Unrated(rates, report[i]))
              && multiset(Map(v.rows, BaseOf())) == multiset(report)
              && (forall k :: 0 <= k < |v.rows| ==> ShowsRated(rates, v.rows[k], elapsed, v.totalLive))
              && v.totalBase == Total(Map(v.rows, BaseCostOf()))
              && v.totalAccrued == Total(Map(v.rows, AccruedUsdOf()))
              && v.accruedTokensIn == Total(Map(v.rows, AccruedInOf()))
              && v.accruedTokensOut == Total(Map(v.rows, AccruedOutOf()))
              && v.elapsed == if elapsed > 0.0 then elapsed else 0.0
  {
    hide RateFor, Total, AccruedAt, Unrated, ShowsRated, LiveRowAt, FirstUnrated, TotalLive, PlainWords;
    FirstUnratedIs(report, rates);
    if FirstUnrated(report, rates).None? {
      TotalsMean(report, rates, elapsed);
      if report != [] {
        RowsAreTheReport(report, rates, elapsed);
      }
      var order := Order(report, rates, elapsed);
      OrderIsPermutation(report, rates, elapsed);
      forall k | 0 <= k < |order|
        ensures ShowsRated(rates, RankedRows(report, rates, elapsed)[k], elapsed, TotalLive(report, rates, elapsed))
      {
        RowMeans(report, rates, elapsed, order[k], k + 1);
      }
    }
  }
}
