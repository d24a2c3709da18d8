/**
 What each control total means, and how provider filters split the totals
 (scripts/acceptance/focus_control_totals.py).
 */
module ControlTotalsFilters {
  import opened Basics
  import opened ControlTotals
  import opened ControlTotalsLaws
  import opened CsvRecords
  import opened Sequences
  import opened Tallies
  import opened PlainDecimals

  // ----------------------------------------------------- looking up a total

  function Find(ts: seq<Total>, k: Key): Option<Total> {
    if ts == [] then None
    else if ts[|ts| - 1].key == k then Some(ts[|ts| - 1])
    else Find(ts[..|ts| - 1], k)
  }

  function RowsFor(ts: seq<Total>, k: Key): nat { if Find(ts, k).Some? then Find(ts, k).value.rowCount else 0 }

  function NullsFor(ts: seq<Total>, k: Key): nat {
    if Find(ts, k).Some? then Find(ts, k).value.effectiveCostNulls else 0
  }

  function Amount(text: string): real { if ParseDecimal(text).Some? then Value(ParseDecimal(text).value) else 0.0 }

  function BilledFor(ts: seq<Total>, k: Key): real {
    if Find(ts, k).Some? then Amount(Find(ts, k).value.billedCost) else 0.0
  }

  function EffectiveFor(ts: seq<Total>, k: Key): real {
    if Find(ts, k).Some? then Amount(Find(ts, k).value.effectiveCost) else 0.0
  }

  function LinesFor(ts: seq<Total>, k: Key): seq<string> {
    if Find(ts, k).Some? then Find(ts, k).value.lines else []
  }

  lemma {:induction false} FindDistinct(ts: seq<Total>, k: Key, i: nat)
    requires i < |ts| && ts[i].key == k
    requires forall x, y :: 0 <= x < y < |ts| ==> ts[x].key != ts[y].key
    ensures Find(ts, k) == Some(ts[i])
  {
    var n := |ts| - 1;
    if i < n {
      assert ts[n].key != k;
      FindDistinct(ts[..n], k, i);
    }
  }

  lemma {:induction false} FindNone(ts: seq<Total>, k: Key)
    requires forall x :: 0 <= x < |ts| ==> ts[x].key != k
    ensures Find(ts, k) == None
  {
    if ts != [] {
      FindNone(ts[..|ts| - 1], k);
    }
  }

  lemma FindTotal(rows: seq<Row>, k: Key)
    requires AllDecimal(rows)
    ensures Find(Totals(rows), k) == if k in KeysOf(rows) then Some(TotalAt(rows, k)) else None
  {
    hide AllDecimal, SortedKeys, SumDecimals, GroupOf, Filter, KeysOf, Summable, Sort, TextLeq;
    var names := SortedKeys(KeysOf(rows), KeyLeq);
    KeyOrder();
    SortedKeysShape(KeysOf(rows), KeyLeq);
    var ts := Totals(rows);
    assert forall x :: 0 <= x < |ts| ==> ts[x].key == names[x];
    if k in KeysOf(rows) {
      var i :| 0 <= i < |names| && names[i] == k;
      FindDistinct(ts, k, i);
    } else {
      FindNone(ts, k);
    }
  }

  // ----------------------------------------------------- what a total means

  /** The exact sum of a list of decimal texts. */
  function ExactSum(values: seq<string>): real
    requires AllParse(values)
  {
    ValueSum(ParseAll(values))
  }

  lemma SumAmount(values: seq<string>)
    requires AllParse(values)
    ensures Amount(SumDecimals(values)) == ExactSum(values)
  {
    hide AllParse, ParseDecimal, Value, SumDecimals, ValueSum, ParseAll;
    SumIsExact(values);
  }

  lemma NothingAtKey(rows: seq<Row>, k: Key)
    ensures k !in KeysOf(rows) <==> Filter(rows, HasKey(k)) == []
  {
    KeyOccurs(rows, k);
  }

  /** The entry for a key, zero when it is absent, describes exactly the rows with that key. */
  lemma TotalMeans(rows: seq<Row>, k: Key)
    requires AllDecimal(rows)
    ensures var g := GroupOf(Filter(rows, HasKey(k)));
            && Summable(g)
            && RowsFor(Totals(rows), k) == g.rows
            && NullsFor(Totals(rows), k) == g.nulls
            && BilledFor(Totals(rows), k) == ExactSum(g.billed)
            && EffectiveFor(Totals(rows), k) == ExactSum(g.effective)
            && multiset(LinesFor(Totals(rows), k)) == multiset(g.lines)
            && Sorted(LinesFor(Totals(rows), k), TextLeq)
  {
    hide AllDecimal, Filter, Totals, KeysOf, AllParse, SumDecimals, ParseDecimal, Value, Sort, TextLeq, Find;
    var own := Filter(rows, HasKey(k));
    FindTotal(rows, k);
    NothingAtKey(rows, k);
    FilterDecimal(rows, HasKey(k));
    GroupSummable(own);
    SumAmount(GroupOf(own).billed);
    SumAmount(GroupOf(own).effective);
    TextOrder();
    SortCorrect(GroupOf(own).lines, TextLeq);
  }

  // ------------------------------------------------------------ two filters

  predicate NamesProvider(header: seq<string>, rec: Record) {
    && "ProviderName" in header
    && |rec| == |header|
    && !IsNull(Cell(header, rec, "ProviderName"))
    && Cell(header, rec, "ProviderName").text != ""
  }

  lemma FilterReadsTheSame(header: seq<string>, rowId: string, providers: seq<string>, n: nat, rec: Record)
    requires HasColumns(Setup(header, rowId, Some(providers))) && HasColumns(Setup(header, rowId, None))
    ensures var filtered := ReadRow(Setup(header, rowId, Some(providers)), n, rec);
            var all := ReadRow(Setup(header, rowId, None), n, rec);
            && (filtered.Ok? <==> all.Ok? && NamesProvider(header, rec))
            && (filtered.Ok? ==> filtered == all)
  {
    hide Period, IsCurrency, Cell, Canonical, NullNames;
    ColumnsPresent(Setup(header, rowId, Some(providers)));
    ColumnsPresent(Setup(header, rowId, None));
  }

  lemma {:induction false} FilterReadsTheSameRows(header: seq<string>, rowId: string, providers: seq<string>,
                                                 recs: seq<Record>)
    requires HasColumns(Setup(header, rowId, Some(providers))) && HasColumns(Setup(header, rowId, None))
    ensures var filtered := ReadRows(Setup(header, rowId, Some(providers)), recs);
            var all := ReadRows(Setup(header, rowId, None), recs);
            && (filtered.Ok? <==> all.Ok? && forall i :: 0 <= i < |recs| ==> NamesProvider(header, recs[i]))
            && (filtered.Ok? ==> filtered == all)
  {
    hide HasColumns, ReadRow, NamesProvider;
    if recs != [] {
      var n := |recs| - 1;
      FilterReadsTheSameRows(header, rowId, providers, recs[..n]);
      FilterReadsTheSame(header, rowId, providers, |recs| + 1, recs[n]);
      assert forall i :: 0 <= i < n ==> recs[..n][i] == recs[i];
    }
  }

  lemma FilterColumns(header: seq<string>, rowId: string, providers: seq<string>)
    ensures HasColumns(Setup(header, rowId, Some(providers))) <==>
              HasColumns(Setup(header, rowId, None)) && "ProviderName" in header
  {
    var all := Required(rowId, None);
    var filtered := Required(rowId, Some(providers));
    assert all == filtered[..5] && filtered[5] == "ProviderName" && |filtered| == 6;
    assert forall i :: 0 <= i < 5 ==> all[i] == filtered[i];
  }

  lemma UsableExactlyWhen(s: Setup, dataRows: nat)
    ensures Unusable(s, dataRows).None? <==>
              && Distinct(s.header)
              && (s.filter.Some? ==> s.filter.value != [] && "" !in s.filter.value)
              && HasColumns(s)
              && dataRows > 0
  {
  }

  /** A provider filter accepts exactly the inputs accepted without it that name a provider in every record. */
  lemma FilterAcceptsExactlyWhen(header: seq<string>, rowId: string, providers: seq<string>, recs: seq<Record>)
    ensures Verdict(Setup(header, rowId, Some(providers)), recs).Ok? <==>
              && providers != [] && "" !in providers
              && "ProviderName" in header
              && Verdict(Setup(header, rowId, None), recs).Ok?
              && forall i :: 0 <= i < |recs| ==> NamesProvider(header, recs[i])
  {
    hide Unusable, HasColumns, ReadRows, DocumentOf, NamesProvider, AllDecimal, Distinct;
    UsableExactlyWhen(Setup(header, rowId, Some(providers)), |recs|);
    UsableExactlyWhen(Setup(header, rowId, None), |recs|);
    FilterColumns(header, rowId, providers);
    if HasColumns(Setup(header, rowId, Some(providers))) {
      FilterReadsTheSameRows(header, rowId, providers, recs);
    }
  }

  /** Every row's provider is in exactly one of the two lists. */
  predicate Splits(rows: seq<Row>, p: seq<string>, q: seq<string>) {
    forall i :: 0 <= i < |rows| ==> (rows[i].provider in p <==> rows[i].provider !in q)
  }

  lemma SplitRows(rows: seq<Row>, p: seq<string>, q: seq<string>, k: Key)
    requires Splits(rows, p, q)
    ensures multiset(Filter(rows, HasKey(k)))
            == multiset(Filter(Filter(rows, Kept(Some(p))), HasKey(k)) + Filter(Filter(rows, Kept(Some(q))), HasKey(k)))
  {
    hide Filter;
    var inP, inQ := Filter(rows, Kept(Some(p))), Filter(rows, Kept(Some(q)));
    forall r: Row
      ensures multiset(Filter(rows, HasKey(k)))[r]
              == multiset(Filter(inP, HasKey(k)) + Filter(inQ, HasKey(k)))[r]
    {
      FilterCount(rows, HasKey(k), r);
      FilterCount(inP, HasKey(k), r);
      FilterCount(inQ, HasKey(k), r);
      FilterCount(rows, Kept(Some(p)), r);
      FilterCount(rows, Kept(Some(q)), r);
      assert r in rows <==> r in multiset(rows);
    }
  }

  /** One group holds what two hold, one after the other. */
  predicate Joins(g: Group, x: Group, y: Group) {
    && g.rows == x.rows + y.rows
    && g.nulls == x.nulls + y.nulls
    && g.billed == x.billed + y.billed
    && g.effective == x.effective + y.effective
    && g.lines == x.lines + y.lines
  }

  lemma JoinsNothing(g: Group)
    ensures Joins(g, g, NO_ROWS)
  {
  }

  lemma JoinsMore(g: Group, x: Group, y: Group, r: Row)
    requires Joins(g, x, y)
    ensures Joins(Add(g, r), x, Add(y, r))
  {
    hide Line;
  }

  lemma {:induction false} GroupAppend(a: seq<Row>, b: seq<Row>)
    ensures Joins(GroupOf(a + b), GroupOf(a), GroupOf(b))
  {
    hide Add, Joins;
    if b == [] {
      assert a + b == a;
      JoinsNothing(GroupOf(a));
    } else {
      assert (a + b)[..|a + b| - 1] == a + b[..|b| - 1];
      GroupAppend(a, b[..|b| - 1]);
      JoinsMore(GroupOf(a + b[..|b| - 1]), GroupOf(a), GroupOf(b[..|b| - 1]), b[|b| - 1]);
    }
  }

  lemma ExactSumSplits(all: seq<string>, a: seq<string>, b: seq<string>)
    requires AllParse(all) && AllParse(a) && AllParse(b)
    requires multiset(all) == multiset(a + b)
    ensures ExactSum(all) == ExactSum(a) + ExactSum(b)
  {
    hide ParseDecimal, SumDecimals, ValueSum, Amount;
    assert AllParse(a + b);
    SumAmount(all);
    SumAmount(a + b);
    SumDecimalsOf(all, a + b);
    assert ParseAll(a + b) == ParseAll(a) + ParseAll(b);
    ValueSumAppend(ParseAll(a), ParseAll(b));
  }

  lemma SplitTotals(rows: seq<Row>, p: seq<string>, q: seq<string>, k: Key)
    requires AllDecimal(rows) && Splits(rows, p, q)
    requires AllDecimal(Filter(rows, Kept(Some(p)))) && AllDecimal(Filter(rows, Kept(Some(q))))
    ensures var all, inP, inQ := Totals(rows), Totals(Filter(rows, Kept(Some(p)))), Totals(Filter(rows, Kept(Some(q))));
            && RowsFor(all, k) == RowsFor(inP, k) + RowsFor(inQ, k)
            && NullsFor(all, k) == NullsFor(inP, k) + NullsFor(inQ, k)
            && BilledFor(all, k) == BilledFor(inP, k) + BilledFor(inQ, k)
            && EffectiveFor(all, k) == EffectiveFor(inP, k) + EffectiveFor(inQ, k)
            && multiset(LinesFor(all, k)) == multiset(LinesFor(inP, k)) + multiset(LinesFor(inQ, k))
  {
    hide AllDecimal, Splits, Filter, Totals, AllParse, ExactSum, GroupOf, Sorted, TextLeq;
    hide RowsFor, NullsFor, BilledFor, EffectiveFor, LinesFor;
    var inP, inQ := Filter(rows, Kept(Some(p))), Filter(rows, Kept(Some(q)));
    TotalMeans(rows, k);
    TotalMeans(inP, k);
    TotalMeans(inQ, k);
    var own, ownP, ownQ := Filter(rows, HasKey(k)), Filter(inP, HasKey(k)), Filter(inQ, HasKey(k));
    SplitRows(rows, p, q, k);
    GroupPermutes(own, ownP + ownQ);
    GroupAppend(ownP, ownQ);
    ExactSumSplits(GroupOf(own).billed, GroupOf(ownP).billed, GroupOf(ownQ).billed);
    ExactSumSplits(GroupOf(own).effective, GroupOf(ownP).effective, GroupOf(ownQ).effective);
  }

  lemma {:induction false} KeepAll(rows: seq<Row>)
    ensures Filter(rows, Kept(None)) == rows
  {
    if rows != [] {
      KeepAll(rows[..|rows| - 1]);
    }
  }

  lemma DocumentParts(s: Setup, recs: seq<Record>)
    requires Verdict(s, recs).Ok?
    ensures HasColumns(s) && ReadRows(s, recs).Ok?
    ensures var rows := ReadRows(s, recs).value;
            && AllDecimal(rows) && AllDecimal(Filter(rows, Kept(s.filter)))
            && Verdict(s, recs).value.totals == Totals(Filter(rows, Kept(s.filter)))
            && Verdict(s, recs).value.nullTokens == SortedTally(NullsOf(rows))
            && Verdict(s, recs).value.dataRows == |recs|
  {
    hide ReadRows, Totals, Exclusions, SortedTally, HasColumns, Required, AllDecimal, Distinct, Filter, NullsOf;
    ReadRowsDecimal(s, recs);
    FilterDecimal(ReadRows(s, recs).value, Kept(s.filter));
  }

  /**
   Two filters that put each row's provider in exactly one list split the unfiltered totals: for
   every period and currency the counts, the null counts, the exact sums and the digested lines add
   up, and both report the same null tokens and data rows.
   */
  lemma ComplementaryFiltersAddUp(header: seq<string>, rowId: string, p: seq<string>, q: seq<string>,
                                  recs: seq<Record>, k: Key)
    requires Verdict(Setup(header, rowId, Some(p)), recs).Ok?
    requires Verdict(Setup(header, rowId, Some(q)), recs).Ok?
    requires forall i :: 0 <= i < |recs| && NamesProvider(header, recs[i]) ==>
               (Cell(header, recs[i], "ProviderName").text in p <==> Cell(header, recs[i], "ProviderName").text !in q)
    ensures Verdict(Setup(header, rowId, None), recs).Ok?
    ensures var all := Verdict(Setup(header, rowId, None), recs).value;
            var inP := Verdict(Setup(header, rowId, Some(p)), recs).value;
            var inQ := Verdict(Setup(header, rowId, Some(q)), recs).value;
            && RowsFor(all.totals, k) == RowsFor(inP.totals, k) + RowsFor(inQ.totals, k)
            && NullsFor(all.totals, k) == NullsFor(inP.totals, k) + NullsFor(inQ.totals, k)
            && BilledFor(all.totals, k) == BilledFor(inP.totals, k) + BilledFor(inQ.totals, k)
            && EffectiveFor(all.totals, k) == EffectiveFor(inP.totals, k) + EffectiveFor(inQ.totals, k)
            && multiset(LinesFor(all.totals, k))
               == multiset(LinesFor(inP.totals, k)) + multiset(LinesFor(inQ.totals, k))
            && inP.nullTokens == all.nullTokens == inQ.nullTokens
            && inP.dataRows == all.dataRows == inQ.dataRows
  {
    hide Verdict, ReadRows, Totals, SortedTally, HasColumns, AllDecimal, Filter, NullsOf, NamesProvider, Cell;
    hide RowsFor, NullsFor, BilledFor, EffectiveFor, LinesFor;
    FilterAcceptsExactlyWhen(header, rowId, p, recs);
    DocumentParts(Setup(header, rowId, None), recs);
    DocumentParts(Setup(header, rowId, Some(p)), recs);
    DocumentParts(Setup(header, rowId, Some(q)), recs);
    FilterReadsTheSameRows(header, rowId, p, recs);
    FilterReadsTheSameRows(header, rowId, q, recs);
    var rows := ReadRows(Setup(header, rowId, None), recs).value;
    KeepAll(rows);
    RowsSplit(header, rowId, p, q, recs);
    SplitTotals(rows, p, q, k);
  }

  lemma RowsSplit(header: seq<string>, rowId: string, p: seq<string>, q: seq<string>, recs: seq<Record>)
    requires HasColumns(Setup(header, rowId, None)) && ReadRows(Setup(header, rowId, None), recs).Ok?
    requires forall i :: 0 <= i < |recs| ==>
               NamesProvider(header, recs[i])
               && (Cell(header, recs[i], "ProviderName").text in p <==>
                   Cell(header, recs[i], "ProviderName").text !in q)
    ensures Splits(ReadRows(Setup(header, rowId, None), recs).value, p, q)
  {
    hide ReadRows, ReadRow, HasColumns, Cell;
    var s := Setup(header, rowId, None);
    RowsAreImages(s, recs);
    var rows := ReadRows(s, recs).value;
    forall i | 0 <= i < |rows|
      ensures rows[i].provider in p <==> rows[i].provider !in q
    {
      assert NamesProvider(header, recs[i]) && Readable(s, recs[i]);
      ProviderRead(s, recs[i]);
    }
  }

  lemma ProviderRead(s: Setup, rec: Record)
    requires HasColumns(s) && Readable(s, rec) && NamesProvider(s.header, rec)
    ensures RowIn(s)(rec).provider == Cell(s.header, rec, "ProviderName").text
  {
    hide Period, IsCurrency, Cell, Canonical, NullNames;
    ColumnsPresent(s);
  }
}
