/**
 The control totals of scripts/acceptance/focus_control_totals.py against the cells of the input:
 an independent definition, record by record, of what each total must be.
 */
module ControlTotalsCells {
  import opened Basics
  import opened ControlTotals
  import opened ControlTotalsFilters
  import opened ControlTotalsLaws
  import opened CsvRecords
  import opened Sequences
  import opened Tallies
  import opened PlainDecimals

  // ------------------------------------------------------- one record's cells

  /** The row of an accepted record says what its cells say. */
  lemma RowsReadTheirCells(s: Setup, n: nat, rec: Record)
    requires HasColumns(s) && ReadRow(s, n, rec).Ok?
    ensures |rec| == |s.header| && "BillingPeriodStart" in s.header && "BillingCurrency" in s.header
    ensures "BilledCost" in s.header && "EffectiveCost" in s.header && s.rowId in s.header
    ensures var row := ReadRow(s, n, rec).value;
            && |row.period| == 10 && row.period == Cell(s.header, rec, "BillingPeriodStart").text[..7] + "-01"
            && row.currency == Cell(s.header, rec, "BillingCurrency").text
            && ParseDecimal(row.billed) == ParseDecimal(Cell(s.header, rec, "BilledCost").text)
            && Canonical(Cell(s.header, rec, "BilledCost").text) == Some(row.billed)
            && (row.effective.None? <==> IsNull(Cell(s.header, rec, "EffectiveCost")))
            && (row.effective.Some? ==>
                  ParseDecimal(row.effective.value) == ParseDecimal(Cell(s.header, rec, "EffectiveCost").text)
                  && Canonical(Cell(s.header, rec, "EffectiveCost").text) == row.effective)
            && row.id == Cell(s.header, rec, s.rowId).text
            && ("ProviderName" in s.header ==> row.provider == Cell(s.header, rec, "ProviderName").text)
  {
    hide IsCurrency, NullNames, Cell, ParseDecimal, FormatDecimal, Period;
    ColumnsPresent(s);
    PeriodShape(Cell(s.header, rec, "BillingPeriodStart").text);
    CanonicalParses(Cell(s.header, rec, "BilledCost").text);
    CanonicalParses(Cell(s.header, rec, "EffectiveCost").text);
  }

  lemma PeriodShape(text: string)
    ensures Period(text).Some? ==> |text| >= 10 && |Period(text).value| == 10 && Period(text).value == text[..7] + "-01"
  {
    hide IsMidnight, IsMonth, Digits.AllDigits;
  }

  // ------------------------------------------------ totals from cells alone

  /** The record is included and belongs to the period and currency. */
  predicate Belongs(s: Setup, rec: Record, k: Key)
    requires HasColumns(s) && |rec| == |s.header|
  {
    ColumnsPresent(s);
    && Period(Cell(s.header, rec, "BillingPeriodStart").text) == Some(k.period)
    && Cell(s.header, rec, "BillingCurrency").text == k.currency
    && (s.filter.Some? ==> Cell(s.header, rec, "ProviderName").text in s.filter.value)
  }

  /** A cost cell in canonical form. */
  function Shown(f: Field): string {
    match Canonical(f.text)
    case Some(t) => t
    case None => ""
  }

  /** The line digested for a record: id, billed cost and effective cost, parted by tabs. */
  function CellLine(s: Setup, rec: Record): string
    requires HasColumns(s) && |rec| == |s.header|
  {
    ColumnsPresent(s);
    var effective := Cell(s.header, rec, "EffectiveCost");
    Cell(s.header, rec, s.rowId).text + "\t" + Shown(Cell(s.header, rec, "BilledCost")) + "\t"
    + (if effective == Field("NULL", false) then "\\N" else Shown(effective)) + "\n"
  }

  datatype CellSums = CellSums(rows: nat, nulls: nat, billed: real, effective: real, lines: seq<string>)

  function CellSumsOf(s: Setup, recs: seq<Record>, k: Key): CellSums
    requires HasColumns(s) && forall i :: 0 <= i < |recs| ==> |recs[i]| == |s.header|
  {
    ColumnsPresent(s);
    if recs == [] then CellSums(0, 0, 0.0, 0.0, [])
    else
      var n := |recs| - 1;
      var before, rec := CellSumsOf(s, recs[..n], k), recs[n];
      if !Belongs(s, rec, k) then before
      else
        var effective := Cell(s.header, rec, "EffectiveCost");
        CellSums(before.rows + 1,
                 if IsNull(effective) then before.nulls + 1 else before.nulls,
                 before.billed + Amount(Cell(s.header, rec, "BilledCost").text),
                 if IsNull(effective) then before.effective else before.effective + Amount(effective.text),
                 before.lines + [CellLine(s, rec)])
  }

  lemma AmountOf(a: string, b: string)
    requires ParseDecimal(a) == ParseDecimal(b)
    ensures Amount(a) == Amount(b)
  {
  }

  lemma BelongsMeans(s: Setup, rec: Record, k: Key)
    requires HasColumns(s) && Readable(s, rec)
    ensures |rec| == |s.header|
    ensures Belongs(s, rec, k) <==> Kept(s.filter)(RowIn(s)(rec)) && KeyOf(RowIn(s)(rec)) == k
  {
    hide Period, IsCurrency, Cell, Canonical, NullNames;
    ColumnsPresent(s);
  }

  lemma ExactSumMore(values: seq<string>, v: string)
    requires AllParse(values) && ParseDecimal(v).Some?
    ensures AllParse(values + [v]) && ExactSum(values + [v]) == ExactSum(values) + Amount(v)
  {
    hide ParseDecimal, Value;
    var ps := ParseAll(values + [v]);
    assert ps[..|ps| - 1] == ParseAll(values);
  }

  lemma GroupMore(rows: seq<Row>, r: Row)
    requires Summable(GroupOf(rows)) && Decimal(r)
    ensures GroupOf(rows + [r]) == Add(GroupOf(rows), r) && Summable(GroupOf(rows + [r]))
    ensures ExactSum(GroupOf(rows + [r]).billed) == ExactSum(GroupOf(rows).billed) + Amount(r.billed)
    ensures ExactSum(GroupOf(rows + [r]).effective)
            == ExactSum(GroupOf(rows).effective) + if r.effective.Some? then Amount(r.effective.value) else 0.0
  {
    hide ParseDecimal, ExactSum, Amount, AllParse;
    assert (rows + [r])[..|rows|] == rows;
    ExactSumMore(GroupOf(rows).billed, r.billed);
    if r.effective.Some? {
      ExactSumMore(GroupOf(rows).effective, r.effective.value);
    }
  }

  lemma NothingSums()
    ensures Summable(NO_ROWS) && ExactSum(NO_ROWS.billed) == 0.0 && ExactSum(NO_ROWS.effective) == 0.0
  {
  }

  /** The last record of an accepted input and its row. */
  lemma LastRecord(s: Setup, recs: seq<Record>)
    requires HasColumns(s) && recs != [] && ReadRows(s, recs).Ok?
    ensures var n := |recs| - 1;
            && ReadRows(s, recs[..n]).Ok? && ReadRow(s, |recs| + 1, recs[n]) == Ok(RowIn(s)(recs[n]))
            && ReadRows(s, recs).value == ReadRows(s, recs[..n]).value + [RowIn(s)(recs[n])]
            && Readable(s, recs[n]) && |recs[n]| == |s.header| && Decimal(RowIn(s)(recs[n]))
  {
    hide ReadRow, HasColumns, Decimal;
    var n := |recs| - 1;
    RowsAreImages(s, recs);
    assert Readable(s, recs[n]);
    NumberIsOnlyReported(s, |recs| + 1, recs[n]);
    ReadRowDecimal(s, |recs| + 1, recs[n]);
    RowShape(s, |recs| + 1, recs[n]);
  }

  lemma {:induction false} SumsAreCellSums(s: Setup, recs: seq<Record>, k: Key)
    requires HasColumns(s) && ReadRows(s, recs).Ok?
    ensures forall i :: 0 <= i < |recs| ==> |recs[i]| == |s.header|
    ensures var g := GroupOf(Filter(Filter(ReadRows(s, recs).value, Kept(s.filter)), HasKey(k)));
            && Summable(g)
            && CellSumsOf(s, recs, k) == CellSums(g.rows, g.nulls, ExactSum(g.billed), ExactSum(g.effective), g.lines)
  {
    hide ReadRow, HasColumns, Filter, ExactSum, Amount, Belongs, Cell, Summable, GroupOf, Decimal, Readable, CellLine;
    if recs == [] {
      EmptyFilters(s.filter, k);
      NothingSums();
    } else {
      hide ReadRows;
      var n := |recs| - 1;
      LastRecord(s, recs);
      var before, row := ReadRows(s, recs[..n]).value, RowIn(s)(recs[n]);
      SumsAreCellSums(s, recs[..n], k);
      assert forall i :: 0 <= i < n ==> recs[..n][i] == recs[i];
      BelongsMeans(s, recs[n], k);
      KeptStep(before, row, s.filter, k);
      if Belongs(s, recs[n], k) {
        OneMoreRecord(s, recs, k, Filter(Filter(before, Kept(s.filter)), HasKey(k)), row);
      }
    }
  }

  lemma KeptStep(rows: seq<Row>, row: Row, filter: Option<seq<string>>, k: Key)
    ensures var own := Filter(Filter(rows, Kept(filter)), HasKey(k));
            Filter(Filter(rows + [row], Kept(filter)), HasKey(k))
            == if Kept(filter)(row) && KeyOf(row) == k then own + [row] else own
  {
    hide Filter;
    FilterStep(rows, row, Kept(filter));
    FilterStep(Filter(rows, Kept(filter)), row, HasKey(k));
  }

  lemma EmptyFilters(filter: Option<seq<string>>, k: Key)
    ensures GroupOf(Filter(Filter([], Kept(filter)), HasKey(k))) == NO_ROWS
  {
  }

  lemma GroupLines(rows: seq<Row>, r: Row)
    ensures GroupOf(rows + [r]).lines == GroupOf(rows).lines + [Line(r)]
  {
    hide Line;
    assert (rows + [r])[..|rows|] == rows;
  }

  lemma LineIsCellLine(s: Setup, n: nat, rec: Record)
    requires HasColumns(s) && ReadRow(s, n, rec).Ok?
    ensures |rec| == |s.header| && Line(ReadRow(s, n, rec).value) == CellLine(s, rec)
  {
    hide ReadRow, Cell, ParseDecimal, Canonical;
    RowsReadTheirCells(s, n, rec);
  }

  lemma OneMoreRecord(s: Setup, recs: seq<Record>, k: Key, rows: seq<Row>, row: Row)
    requires HasColumns(s) && recs != [] && forall i :: 0 <= i < |recs| ==> |recs[i]| == |s.header|
    requires ReadRow(s, |recs| + 1, recs[|recs| - 1]) == Ok(row) && Decimal(row)
    requires Belongs(s, recs[|recs| - 1], k) && Summable(GroupOf(rows))
    requires var g := GroupOf(rows);
             CellSumsOf(s, recs[..|recs| - 1], k)
             == CellSums(g.rows, g.nulls, ExactSum(g.billed), ExactSum(g.effective), g.lines)
    ensures Summable(GroupOf(rows + [row]))
    ensures var g := GroupOf(rows + [row]);
            CellSumsOf(s, recs, k) == CellSums(g.rows, g.nulls, ExactSum(g.billed), ExactSum(g.effective), g.lines)
  {
    hide ReadRow, HasColumns, ExactSum, Amount, Belongs, Cell, Summable, GroupOf, Decimal, ParseDecimal;
    var rec := recs[|recs| - 1];
    RowsReadTheirCells(s, |recs| + 1, rec);
    GroupMore(rows, row);
    LineIsCellLine(s, |recs| + 1, rec);
    GroupLines(rows, row);
    AmountOf(row.billed, Cell(s.header, rec, "BilledCost").text);
    if row.effective.Some? {
      AmountOf(row.effective.value, Cell(s.header, rec, "EffectiveCost").text);
    }
  }

  /**
   Every total of an accepted run is what the cells say: for each period and currency the number of included
   records, of null effective costs, the exact sums of the billed and effective cost cells, and the lines to digest
   in their order.
   */
  lemma TotalsAreCellSums(s: Setup, recs: seq<Record>, k: Key)
    requires Verdict(s, recs).Ok?
    ensures HasColumns(s) && forall i :: 0 <= i < |recs| ==> |recs[i]| == |s.header|
    ensures var ts, cells := Verdict(s, recs).value.totals, CellSumsOf(s, recs, k);
            && RowsFor(ts, k) == cells.rows
            && NullsFor(ts, k) == cells.nulls
            && BilledFor(ts, k) == cells.billed
            && EffectiveFor(ts, k) == cells.effective
            && multiset(LinesFor(ts, k)) == multiset(cells.lines) && Sorted(LinesFor(ts, k), TextLeq)
  {
    hide Verdict, ReadRows, HasColumns, Filter, ExactSum, Totals, GroupOf, Summable, CellSumsOf, AllDecimal;
    hide RowsFor, NullsFor, BilledFor, EffectiveFor, LinesFor, Sorted;
    DocumentParts(s, recs);
    SumsAreCellSums(s, recs, k);
    TotalMeans(Filter(ReadRows(s, recs).value, Kept(s.filter)), k);
  }

  // ------------------------------------------------ null tokens and exclusions

  function CountFor(tally: seq<(string, nat)>, name: string): nat {
    if tally == [] then 0
    else if tally[|tally| - 1].0 == name then tally[|tally| - 1].1
    else CountFor(tally[..|tally| - 1], name)
  }

  lemma {:induction false} CountForNames(tally: seq<(string, nat)>, names: seq<string>, ks: seq<string>, name: string)
    requires |tally| == |names| && Distinct(names)
    requires forall i :: 0 <= i < |names| ==> tally[i] == (names[i], multiset(ks)[names[i]])
    ensures CountFor(tally, name) == if name in names then multiset(ks)[name] else 0
  {
    if names != [] {
      var n := |names| - 1;
      assert names == names[..n] + [names[n]];
      CountForNames(tally[..n], names[..n], ks, name);
    }
  }

  lemma TallyLookup(ks: seq<string>, name: string)
    ensures CountFor(SortedTally(ks), name) == multiset(ks)[name]
  {
    hide SortedKeys, TextLeq;
    TextOrder();
    var names := SortedKeys(ks, TextLeq);
    SortedKeysShape(ks, TextLeq);
    CountForNames(SortedTally(ks), names, ks, name);
    assert name in ks <==> name in multiset(ks);
  }

  lemma {:induction false} NullsListed(header: seq<string>, rec: Record, i: nat)
    requires |rec| == |header| && Distinct(header) && i < |header|
    ensures multiset(NullNames(header, rec))[header[i]] == if IsNull(rec[i]) then 1 else 0
    ensures forall name :: name in NullNames(header, rec) ==> name in header
  {
    hide IsNull;
    var n := |header| - 1;
    var front := NullNames(header[..n], rec[..n]);
    assert header == header[..n] + [header[n]];
    if n > 0 {
      NullsListed(header[..n], rec[..n], if i < n then i else 0);
    }
    if i == n {
      assert header[n] !in front;
      assert multiset(front)[header[n]] == 0;
    } else {
      assert header[n] != header[i];
    }
  }

  /** How many records have a null in a column. */
  function NullCount(recs: seq<Record>, i: nat): nat
    requires forall k :: 0 <= k < |recs| ==> i < |recs[k]|
  {
    if recs == [] then 0
    else NullCount(recs[..|recs| - 1], i) + if IsNull(recs[|recs| - 1][i]) then 1 else 0
  }

  lemma {:induction false} NullsCounted(s: Setup, recs: seq<Record>, i: nat)
    requires HasColumns(s) && ReadRows(s, recs).Ok? && Distinct(s.header) && i < |s.header|
    ensures forall k :: 0 <= k < |recs| ==> |recs[k]| == |s.header|
    ensures multiset(NullsOf(ReadRows(s, recs).value))[s.header[i]] == NullCount(recs, i)
  {
    hide ReadRow, HasColumns, IsNull, Distinct, NullNames, NullsOf;
    NoNulls();
    if recs != [] {
      var n := |recs| - 1;
      NullsCounted(s, recs[..n], i);
      RowShape(s, |recs| + 1, recs[n]);
      NullsListed(s.header, recs[n], i);
      assert forall k :: 0 <= k < n ==> recs[..n][k] == recs[k];
      NullsMore(ReadRows(s, recs[..n]).value, ReadRow(s, |recs| + 1, recs[n]).value, s.header[i]);
    }
  }

  lemma NullsMore(rows: seq<Row>, r: Row, name: string)
    ensures multiset(NullsOf(rows + [r]))[name] == multiset(NullsOf(rows))[name] + multiset(r.nulls)[name]
  {
    assert (rows + [r])[..|rows|] == rows;
  }

  lemma NoNulls()
    ensures NullsOf([]) == []
  {
  }

  function ExcludedFor(es: seq<Exclusion>, p: string, provider: string): nat {
    if es == [] then 0
    else if es[|es| - 1].period == p then CountFor(es[|es| - 1].providers, provider)
    else ExcludedFor(es[..|es| - 1], p, provider)
  }

  lemma {:induction false} ExcludedForPeriods(es: seq<Exclusion>, periods: seq<string>, rows: seq<Row>,
                                             p: string, provider: string)
    requires |es| == |periods| && Distinct(periods)
    requires forall i :: 0 <= i < |periods| ==> es[i] == ExclusionAt(rows, periods[i])
    ensures ExcludedFor(es, p, provider)
            == if p in periods then multiset(ProvidersOf(Filter(rows, HasPeriod(p))))[provider] else 0
  {
    hide Filter, SortedTally, TallyTotal, ProvidersOf;
    if periods != [] {
      var n := |periods| - 1;
      assert periods == periods[..n] + [periods[n]];
      ExcludedForPeriods(es[..n], periods[..n], rows, p, provider);
      TallyLookup(ProvidersOf(Filter(rows, HasPeriod(periods[n]))), provider);
    }
  }

  /** How many rows belong to a period and name a provider. */
  function ProviderRows(rows: seq<Row>, p: string, provider: string): nat {
    if rows == [] then 0
    else
      ProviderRows(rows[..|rows| - 1], p, provider)
      + if rows[|rows| - 1].period == p && rows[|rows| - 1].provider == provider then 1 else 0
  }

  lemma ProvidersMore(rows: seq<Row>, r: Row, provider: string)
    ensures multiset(ProvidersOf(rows + [r]))[provider]
            == multiset(ProvidersOf(rows))[provider] + if r.provider == provider then 1 else 0
  {
    assert (rows + [r])[..|rows|] == rows;
  }

  lemma {:induction false} ProviderOccurs(rows: seq<Row>, p: string, provider: string)
    ensures multiset(ProvidersOf(Filter(rows, HasPeriod(p))))[provider] == ProviderRows(rows, p, provider)
  {
    hide ProvidersOf;
    if rows == [] {
      NoProviders();
    } else {
      var n := |rows| - 1;
      ProviderOccurs(rows[..n], p, provider);
      ProvidersMore(Filter(rows[..n], HasPeriod(p)), rows[n], provider);
    }
  }

  lemma ExclusionsCount(rows: seq<Row>, p: string, provider: string)
    ensures ExcludedFor(Exclusions(rows), p, provider) == ProviderRows(rows, p, provider)
  {
    hide Filter, SortedTally, TallyTotal, ProvidersOf, PeriodsOf, SortedKeys, TextLeq, ExcludedFor, ProviderRows;
    TextOrder();
    var periods := SortedKeys(PeriodsOf(rows), TextLeq);
    SortedKeysShape(PeriodsOf(rows), TextLeq);
    ExcludedForPeriods(Exclusions(rows), periods, rows, p, provider);
    ProviderOccurs(rows, p, provider);
    PeriodOccurs(rows, p);
    assert p in PeriodsOf(rows) <==> p in multiset(PeriodsOf(rows));
    if p !in periods {
      assert Filter(rows, HasPeriod(p)) == [];
      NoProviders();
    }
  }

  lemma NoProviders()
    ensures ProvidersOf([]) == []
  {
  }

  /** The filter leaves the record out, and its cells name the period and the provider. */
  predicate LeftOut(s: Setup, rec: Record, p: string, provider: string)
    requires HasColumns(s) && |rec| == |s.header|
  {
    ColumnsPresent(s);
    && s.filter.Some? && provider !in s.filter.value
    && Cell(s.header, rec, "ProviderName").text == provider
    && Period(Cell(s.header, rec, "BillingPeriodStart").text) == Some(p)
  }

  /** How many records the filter leaves out for a period and a provider. */
  function LeftOutCount(s: Setup, recs: seq<Record>, p: string, provider: string): nat
    requires HasColumns(s) && forall i :: 0 <= i < |recs| ==> |recs[i]| == |s.header|
  {
    if recs == [] then 0
    else
      LeftOutCount(s, recs[..|recs| - 1], p, provider)
      + if LeftOut(s, recs[|recs| - 1], p, provider) then 1 else 0
  }

  lemma LeftOutMeans(s: Setup, rec: Record, p: string, provider: string)
    requires HasColumns(s) && Readable(s, rec)
    ensures |rec| == |s.header|
    ensures var row := RowIn(s)(rec);
            LeftOut(s, rec, p, provider) <==> Dropped(s.filter)(row) && row.period == p && row.provider == provider
  {
    hide Period, IsCurrency, Cell, Canonical, NullNames;
    ColumnsPresent(s);
  }

  lemma ProviderRowsMore(rows: seq<Row>, r: Row, p: string, provider: string)
    ensures ProviderRows(rows + [r], p, provider)
            == ProviderRows(rows, p, provider) + if r.period == p && r.provider == provider then 1 else 0
  {
    assert (rows + [r])[..|rows|] == rows;
  }

  lemma {:induction false} LeftOutCounted(s: Setup, recs: seq<Record>, p: string, provider: string)
    requires HasColumns(s) && ReadRows(s, recs).Ok?
    ensures forall i :: 0 <= i < |recs| ==> |recs[i]| == |s.header|
    ensures ProviderRows(Filter(ReadRows(s, recs).value, Dropped(s.filter)), p, provider)
            == LeftOutCount(s, recs, p, provider)
  {
    hide ReadRow, HasColumns, Filter, LeftOut, ProviderRows, Readable, Decimal;
    if recs == [] {
      NothingLeftOut(s.filter, p, provider);
    } else {
      var n := |recs| - 1;
      LastRecord(s, recs);
      var before, row := ReadRows(s, recs[..n]).value, RowIn(s)(recs[n]);
      LeftOutCounted(s, recs[..n], p, provider);
      assert forall i :: 0 <= i < n ==> recs[..n][i] == recs[i];
      LeftOutMeans(s, recs[n], p, provider);
      FilterStep(before, row, Dropped(s.filter));
      ProviderRowsMore(Filter(before, Dropped(s.filter)), row, p, provider);
    }
  }

  lemma NothingLeftOut(filter: Option<seq<string>>, p: string, provider: string)
    ensures ProviderRows(Filter([], Dropped(filter)), p, provider) == 0
  {
  }

  /** The null tokens count the null cells of each column, and the exclusions count the records whose cells name
      the period and a provider outside the filter. */
  lemma CountsAreCellCounts(s: Setup, recs: seq<Record>, i: nat, p: string, provider: string)
    requires Verdict(s, recs).Ok? && i < |s.header|
    ensures HasColumns(s) && forall k :: 0 <= k < |recs| ==> |recs[k]| == |s.header|
    ensures CountFor(Verdict(s, recs).value.nullTokens, s.header[i]) == NullCount(recs, i)
    ensures ExcludedFor(Verdict(s, recs).value.excluded, p, provider)
            == LeftOutCount(s, recs, p, provider)
  {
    hide ReadRows, Filter, Totals, Exclusions, SortedTally, NullsOf, AllDecimal, Required, Distinct, HasColumns;
    hide CountFor, ExcludedFor, NullCount, ProviderRows, LeftOutCount;
    DocumentParts(s, recs);
    NullsCounted(s, recs, i);
    TallyLookup(NullsOf(ReadRows(s, recs).value), s.header[i]);
    ExclusionsCount(Filter(ReadRows(s, recs).value, Dropped(s.filter)), p, provider);
    LeftOutCounted(s, recs, p, provider);
  }

  // --------------------------------------------------------------- listings

  predicate Precedes(a: string, b: string) { a != b && TextLeq(a, b) }

  /** Names in order, each once, with what was counted. */
  predicate Listing(tally: seq<(string, nat)>) {
    && (forall i, j :: 0 <= i < j < |tally| ==> Precedes(tally[i].0, tally[j].0))
    && (forall i :: 0 <= i < |tally| ==> tally[i].1 > 0)
  }

  function CountSum(tally: seq<(string, nat)>): nat {
    if tally == [] then 0 else CountSum(tally[..|tally| - 1]) + tally[|tally| - 1].1
  }

  /** Totals by period and then by currency, each pair once. */
  predicate TotalsListed(ts: seq<Total>) {
    forall i, j :: 0 <= i < j < |ts| ==>
      if ts[i].key.period == ts[j].key.period then Precedes(ts[i].key.currency, ts[j].key.currency)
      else Precedes(ts[i].key.period, ts[j].key.period)
  }

  predicate ExclusionsListed(es: seq<Exclusion>) {
    && (forall i, j :: 0 <= i < j < |es| ==> Precedes(es[i].period, es[j].period))
    && (forall i :: 0 <= i < |es| ==> Listing(es[i].providers) && es[i].rowCount == CountSum(es[i].providers))
  }

  lemma TallyListed(ks: seq<string>)
    ensures Listing(SortedTally(ks))
  {
    hide SortedKeys, TextLeq;
    TextOrder();
    SortedKeysShape(ks, TextLeq);
    var names := SortedKeys(ks, TextLeq);
    assert forall i :: 0 <= i < |names| ==> names[i] in multiset(ks) by {
      assert forall i :: 0 <= i < |names| ==> names[i] in names;
    }
  }

  lemma {:induction false} CountSumIsTotal(tally: seq<(string, nat)>)
    ensures CountSum(tally) == TallyTotal(tally)
  {
    if tally != [] {
      CountSumIsTotal(tally[..|tally| - 1]);
    }
  }

  lemma TotalsAreListed(rows: seq<Row>)
    requires AllDecimal(rows)
    ensures TotalsListed(Totals(rows))
    ensures forall k :: (exists i :: 0 <= i < |Totals(rows)| && Totals(rows)[i].key == k) <==> k in KeysOf(rows)
  {
    hide SortedKeys, TextLeq, KeysOf, GroupOf, SumDecimals, AllDecimal;
    KeyOrder();
    var ks := SortedKeys(KeysOf(rows), KeyLeq);
    SortedKeysShape(KeysOf(rows), KeyLeq);
    TotalKeys(rows);
    forall k
      ensures (exists i :: 0 <= i < |Totals(rows)| && Totals(rows)[i].key == k) <==> k in ks
    {
      if k in ks {
        var i :| 0 <= i < |ks| && ks[i] == k;
        assert Totals(rows)[i].key == k;
      }
    }
  }

  lemma TotalKeys(rows: seq<Row>)
    requires AllDecimal(rows)
    ensures var ks := SortedKeys(KeysOf(rows), KeyLeq);
            |Totals(rows)| == |ks| && forall i :: 0 <= i < |ks| ==> Totals(rows)[i].key == ks[i]
  {
    hide SortedKeys, KeysOf, GroupOf, SumDecimals, AllDecimal, Filter;
  }

  lemma ExclusionsAreListed(rows: seq<Row>)
    ensures ExclusionsListed(Exclusions(rows))
  {
    hide SortedKeys, TextLeq, PeriodsOf, SortedTally, Filter, Listing;
    TextOrder();
    SortedKeysShape(PeriodsOf(rows), TextLeq);
    forall p
      ensures Listing(ExclusionAt(rows, p).providers)
      ensures ExclusionAt(rows, p).rowCount == CountSum(ExclusionAt(rows, p).providers)
    {
      TallyListed(ProvidersOf(Filter(rows, HasPeriod(p))));
      CountSumIsTotal(SortedTally(ProvidersOf(Filter(rows, HasPeriod(p)))));
    }
  }

  /** The document lists what it counts in order and once: totals by period and currency, null tokens by column and
      exclusions by period and provider. */
  lemma DocumentIsInOrder(s: Setup, recs: seq<Record>)
    requires Verdict(s, recs).Ok?
    ensures var d := Verdict(s, recs).value;
            && TotalsListed(d.totals) && Listing(d.nullTokens) && ExclusionsListed(d.excluded)
            && d.providerFilter == s.filter && d.dataRows == |recs|
  {
    hide ReadRows, Filter, Totals, Exclusions, SortedTally, NullsOf, AllDecimal, Required, Distinct, HasColumns;
    hide TotalsListed, ExclusionsListed, Listing;
    DocumentParts(s, recs);
    var rows := ReadRows(s, recs).value;
    TotalsAreListed(Filter(rows, Kept(s.filter)));
    TallyListed(NullsOf(rows));
    ExclusionsAreListed(Filter(rows, Dropped(s.filter)));
  }
}
