/**
 Properties of the control totals of scripts/acceptance/focus_control_totals.py: independence of
 record order, conservation of rows, exact sums, and the additivity of provider filters.
 */
module ControlTotalsLaws {
  import opened Basics
  import opened ControlTotals
  import opened CsvRecords
  import opened Sequences
  import opened Tallies
  import opened PlainDecimals

  // ------------------------------------------------- rows as images of records

  const NO_ROW := Row("", "", "", None, "", "", [])

  function RowIn(s: Setup): Record -> Row
    requires HasColumns(s)
  {
    (rec: Record) => if HasColumns(s) && ReadRow(s, 0, rec).Ok? then ReadRow(s, 0, rec).value else NO_ROW
  }

  predicate Readable(s: Setup, rec: Record)
    requires HasColumns(s)
  {
    ReadRow(s, 0, rec).Ok?
  }

  /** The record number only appears in refusals. */
  lemma NumberIsOnlyReported(s: Setup, n: nat, rec: Record)
    requires HasColumns(s)
    ensures ReadRow(s, n, rec).Ok? <==> Readable(s, rec)
    ensures ReadRow(s, n, rec).Ok? ==> ReadRow(s, n, rec) == ReadRow(s, 0, rec)
  {
    hide Period, IsCurrency, Cell, Canonical, NullNames;
    ColumnsPresent(s);
  }

  lemma {:induction false} RowsAreImages(s: Setup, recs: seq<Record>)
    requires HasColumns(s)
    ensures ReadRows(s, recs).Ok? <==> forall i :: 0 <= i < |recs| ==> Readable(s, recs[i])
    ensures ReadRows(s, recs).Ok? ==> ReadRows(s, recs).value == Map(recs, RowIn(s))
  {
    hide ReadRow, HasColumns;
    if recs != [] {
      var n := |recs| - 1;
      RowsAreImages(s, recs[..n]);
      NumberIsOnlyReported(s, |recs| + 1, recs[n]);
      assert forall i :: 0 <= i < n ==> recs[..n][i] == recs[i];
      if ReadRows(s, recs).Ok? {
        assert Map(recs, RowIn(s)) == Map(recs[..n], RowIn(s)) + [RowIn(s)(recs[n])];
      }
    }
  }

  lemma ReadRowsPermute(s: Setup, a: seq<Record>, b: seq<Record>)
    requires HasColumns(s) && multiset(a) == multiset(b)
    ensures ReadRows(s, a).Ok? <==> ReadRows(s, b).Ok?
    ensures ReadRows(s, a).Ok? ==> multiset(ReadRows(s, a).value) == multiset(ReadRows(s, b).value)
  {
    hide ReadRow, ReadRows, HasColumns, Readable;
    RowsAreImages(s, a);
    RowsAreImages(s, b);
    MapPermutes(a, b, RowIn(s));
    if ReadRows(s, a).Ok? { ReadablePermute(s, a, b); }
    if ReadRows(s, b).Ok? { ReadablePermute(s, b, a); }
  }

  lemma ReadablePermute(s: Setup, a: seq<Record>, b: seq<Record>)
    requires HasColumns(s) && multiset(a) == multiset(b)
    requires forall i :: 0 <= i < |a| ==> Readable(s, a[i])
    ensures forall i :: 0 <= i < |b| ==> Readable(s, b[i])
  {
    hide Readable, HasColumns;
    forall i | 0 <= i < |b|
      ensures Readable(s, b[i])
    {
      assert b[i] in multiset(b);
      assert b[i] in a;
    }
  }

  // --------------------------------------------------- groups as collections

  function LineOf(): Row -> string { (r: Row) => Line(r) }

  function BilledOf(): Row -> string { (r: Row) => r.billed }

  function HasEffective(): Row -> bool { (r: Row) => r.effective.Some? }

  function EffectiveOf(): Row -> string { (r: Row) => if r.effective.Some? then r.effective.value else "" }

  function KeyFrom(): Row -> Key { (r: Row) => KeyOf(r) }

  function PeriodFrom(): Row -> string { (r: Row) => r.period }

  function ProviderFrom(): Row -> string { (r: Row) => r.provider }

  lemma MapSnoc<T, U>(s: seq<T>, f: T -> U)
    requires s != []
    ensures Map(s, f) == Map(s[..|s| - 1], f) + [f(s[|s| - 1])]
  {
  }

  lemma {:induction false} GroupFields(rows: seq<Row>)
    ensures var g := GroupOf(rows);
            && g.rows == |rows|
            && g.billed == Map(rows, BilledOf())
            && g.effective == Map(Filter(rows, HasEffective()), EffectiveOf())
            && g.nulls == |rows| - |Filter(rows, HasEffective())|
            && g.lines == Map(rows, LineOf())
  {
    hide Line, Map;
    if rows != [] {
      var n := |rows| - 1;
      GroupFields(rows[..n]);
      MapSnoc(rows, BilledOf());
      MapSnoc(rows, LineOf());
      if rows[n].effective.Some? {
        var kept := Filter(rows, HasEffective());
        assert kept[..|kept| - 1] == Filter(rows[..n], HasEffective());
        MapSnoc(kept, EffectiveOf());
      }
    }
  }

  lemma {:induction false} ListedFields(rows: seq<Row>)
    ensures KeysOf(rows) == Map(rows, KeyFrom())
    ensures PeriodsOf(rows) == Map(rows, PeriodFrom())
    ensures ProvidersOf(rows) == Map(rows, ProviderFrom())
  {
    hide Map;
    if rows != [] {
      ListedFields(rows[..|rows| - 1]);
      MapSnoc(rows, KeyFrom());
      MapSnoc(rows, PeriodFrom());
      MapSnoc(rows, ProviderFrom());
    }
  }

  lemma ListedFieldsPermute(a: seq<Row>, b: seq<Row>)
    requires multiset(a) == multiset(b)
    ensures multiset(KeysOf(a)) == multiset(KeysOf(b))
    ensures multiset(PeriodsOf(a)) == multiset(PeriodsOf(b))
    ensures multiset(ProvidersOf(a)) == multiset(ProvidersOf(b))
  {
    hide Map, KeysOf, PeriodsOf, ProvidersOf;
    ListedFields(a);
    ListedFields(b);
    MapPermutes(a, b, KeyFrom());
    MapPermutes(a, b, PeriodFrom());
    MapPermutes(a, b, ProviderFrom());
  }

  /** Equal counts and equal collections of amounts and lines. */
  ghost predicate SameCollections(g: Group, h: Group) {
    && g.rows == h.rows
    && g.nulls == h.nulls
    && multiset(g.billed) == multiset(h.billed)
    && multiset(g.effective) == multiset(h.effective)
    && multiset(g.lines) == multiset(h.lines)
  }

  lemma GroupPermutes(a: seq<Row>, b: seq<Row>)
    requires multiset(a) == multiset(b)
    ensures SameCollections(GroupOf(a), GroupOf(b))
  {
    hide Map, Filter, GroupOf;
    GroupFields(a);
    GroupFields(b);
    MapPermutes(a, b, BilledOf());
    MapPermutes(a, b, LineOf());
    var x, y := Filter(a, HasEffective()), Filter(b, HasEffective());
    FilterPermutes(a, b, HasEffective());
    MapPermutes(x, y, EffectiveOf());
    assert |a| == |multiset(a)| && |b| == |multiset(b)|;
    assert |x| == |multiset(x)| && |y| == |multiset(y)|;
  }

  function ParseOrZero(): string -> Plain {
    (v: string) => if ParseDecimal(v).Some? then ParseDecimal(v).value else Plain.Plain(0, 0)
  }

  lemma ParseAllIsMap(values: seq<string>)
    requires AllParse(values)
    ensures ParseAll(values) == Map(values, ParseOrZero())
  {
  }

  lemma SumDecimalsOf(a: seq<string>, b: seq<string>)
    requires AllParse(a) && AllParse(b) && multiset(a) == multiset(b)
    ensures SumDecimals(a) == SumDecimals(b)
    ensures multiset(ParseAll(a)) == multiset(ParseAll(b))
  {
    hide ParseDecimal, AllParse, SumDecimals, ParseAll;
    ParseAllIsMap(a);
    ParseAllIsMap(b);
    MapPermutes(a, b, ParseOrZero());
    SumDecimalsPermutes(a, b);
  }

  lemma TotalPermutes(k: Key, g: Group, h: Group)
    requires Summable(g) && Summable(h) && SameCollections(g, h)
    ensures TotalOf(k, g) == TotalOf(k, h)
  {
    hide AllParse, SumDecimals;
    SumDecimalsOf(g.billed, h.billed);
    SumDecimalsOf(g.effective, h.effective);
    TextOrder();
    SortPermutes(g.lines, h.lines, TextLeq);
  }

  lemma TotalsPermute(a: seq<Row>, b: seq<Row>)
    requires AllDecimal(a) && AllDecimal(b) && multiset(a) == multiset(b)
    ensures Totals(a) == Totals(b)
  {
    hide AllDecimal, SortedKeys, Filter, GroupOf, TotalOf, KeysOf, KeyLeq;
    ListedFieldsPermute(a, b);
    KeyOrder();
    SortedKeysPermute(KeysOf(a), KeysOf(b), KeyLeq);
    var ks := SortedKeys(KeysOf(a), KeyLeq);
    forall i | 0 <= i < |ks|
      ensures TotalAt(a, ks[i]) == TotalAt(b, ks[i])
    {
      var x, y := Filter(a, HasKey(ks[i])), Filter(b, HasKey(ks[i]));
      FilterDecimal(a, HasKey(ks[i]));
      FilterDecimal(b, HasKey(ks[i]));
      GroupSummable(x);
      GroupSummable(y);
      FilterPermutes(a, b, HasKey(ks[i]));
      GroupPermutes(x, y);
      TotalPermutes(ks[i], GroupOf(x), GroupOf(y));
    }
  }

  lemma ExclusionsPermute(a: seq<Row>, b: seq<Row>)
    requires multiset(a) == multiset(b)
    ensures Exclusions(a) == Exclusions(b)
  {
    hide SortedKeys, SortedTally, TallyTotal, Filter, PeriodsOf, ProvidersOf;
    ListedFieldsPermute(a, b);
    TextOrder();
    SortedKeysPermute(PeriodsOf(a), PeriodsOf(b), TextLeq);
    var ps := SortedKeys(PeriodsOf(a), TextLeq);
    forall i | 0 <= i < |ps|
      ensures ExclusionAt(a, ps[i]) == ExclusionAt(b, ps[i])
    {
      var x, y := Filter(a, HasPeriod(ps[i])), Filter(b, HasPeriod(ps[i]));
      FilterPermutes(a, b, HasPeriod(ps[i]));
      ListedFieldsPermute(x, y);
      SortedTallyPermutes(ProvidersOf(x), ProvidersOf(y));
    }
  }

  lemma {:induction false} NullsAppend(a: seq<Row>, b: seq<Row>)
    ensures NullsOf(a + b) == NullsOf(a) + NullsOf(b)
  {
    if b == [] {
      assert a + b == a;
    } else {
      assert (a + b)[..|a + b| - 1] == a + b[..|b| - 1];
      NullsAppend(a, b[..|b| - 1]);
    }
  }

  lemma {:induction false} NullsPermute(a: seq<Row>, b: seq<Row>)
    requires multiset(a) == multiset(b)
    ensures multiset(NullsOf(a)) == multiset(NullsOf(b))
  {
    assert |a| == |multiset(a)| && |b| == |multiset(b)|;
    if a != [] {
      var n := |a| - 1;
      InitMultiset(a);
      var i := RemoveOne(b, a[n]);
      NullsPermute(a[..n], b[..i] + b[i + 1..]);
      NullsWithoutOne(b, i);
    }
  }

  lemma NullsWithoutOne(b: seq<Row>, i: nat)
    requires i < |b|
    ensures multiset(NullsOf(b)) == multiset(NullsOf(b[..i] + b[i + 1..])) + multiset(b[i].nulls)
  {
    hide NullsOf;
    var front, back := b[..i], b[i + 1..];
    NullsAppend(front, back);
    assert b == front + ([b[i]] + back);
    NullsAppend(front, [b[i]] + back);
    NullsAppend([b[i]], back);
    NullsOfOne(b[i]);
  }

  lemma NullsOfOne(r: Row)
    ensures NullsOf([r]) == r.nulls
  {
  }

  lemma DocumentPermutes(filter: Option<seq<string>>, a: seq<Row>, b: seq<Row>)
    requires AllDecimal(a) && AllDecimal(b) && multiset(a) == multiset(b)
    ensures DocumentOf(filter, a) == DocumentOf(filter, b)
  {
    hide AllDecimal, SortedTally, Totals, Exclusions, Filter, NullsOf;
    assert |a| == |multiset(a)| && |b| == |multiset(b)|;
    NullsPermute(a, b);
    SortedTallyPermutes(NullsOf(a), NullsOf(b));
    FilterPermutes(a, b, Kept(filter));
    FilterPermutes(a, b, Dropped(filter));
    FilterDecimal(a, Kept(filter));
    FilterDecimal(b, Kept(filter));
    TotalsPermute(Filter(a, Kept(filter)), Filter(b, Kept(filter)));
    ExclusionsPermute(Filter(a, Dropped(filter)), Filter(b, Dropped(filter)));
  }

  /** Neither acceptance nor any part of the document depends on the order of the data records. */
  lemma RecordOrderIsIrrelevant(s: Setup, a: seq<Record>, b: seq<Record>)
    requires multiset(a) == multiset(b)
    ensures Verdict(s, a).Ok? <==> Verdict(s, b).Ok?
    ensures Verdict(s, a).Ok? ==> Verdict(s, a) == Verdict(s, b)
  {
    hide ReadRows, DocumentOf, HasColumns, Required, AllDecimal, Distinct;
    assert |a| == |multiset(a)| && |b| == |multiset(b)|;
    if Unusable(s, |a|).None? {
      ReadRowsPermute(s, a, b);
      if ReadRows(s, a).Ok? {
        ReadRowsDecimal(s, a);
        ReadRowsDecimal(s, b);
        DocumentPermutes(s.filter, ReadRows(s, a).value, ReadRows(s, b).value);
      }
    }
  }

  /** The same for two inputs that tokenize to permuted records under one header. */
  lemma InputOrderIsIrrelevant(a: string, b: string, rowId: string, filter: Option<seq<string>>)
    requires Tokenized(a).Ok? && Tokenized(b).Ok?
    requires Tokenized(a).value != [] && Tokenized(b).value != []
    requires Tokenized(a).value[0] == Tokenized(b).value[0]
    requires multiset(Tokenized(a).value) == multiset(Tokenized(b).value)
    ensures Computed(a, rowId, filter).Ok? <==> Computed(b, rowId, filter).Ok?
    ensures Computed(a, rowId, filter).Ok? ==> Computed(a, rowId, filter) == Computed(b, rowId, filter)
  {
    hide Tokenized, Verdict;
    var x, y := Tokenized(a).value, Tokenized(b).value;
    TailMultiset(x);
    TailMultiset(y);
    RecordOrderIsIrrelevant(Setup(Texts(x[0]), rowId, filter), x[1..], y[1..]);
  }

  // ------------------------------------------------------ conservation of rows

  function TotalCounts(ts: seq<Total>): (r: seq<int>)
    ensures |r| == |ts|
  {
    seq(|ts|, i requires 0 <= i < |ts| => ts[i].rowCount)
  }

  function ExclusionCounts(es: seq<Exclusion>): (r: seq<int>)
    ensures |r| == |es|
  {
    seq(|es|, i requires 0 <= i < |es| => es[i].rowCount)
  }

  lemma {:induction false} KeyOccurs(rows: seq<Row>, k: Key)
    ensures |Filter(rows, HasKey(k))| == multiset(KeysOf(rows))[k]
  {
    if rows != [] {
      KeyOccurs(rows[..|rows| - 1], k);
    }
  }

  lemma {:induction false} PeriodOccurs(rows: seq<Row>, p: string)
    ensures |Filter(rows, HasPeriod(p))| == multiset(PeriodsOf(rows))[p]
  {
    if rows != [] {
      PeriodOccurs(rows[..|rows| - 1], p);
    }
  }

  lemma TotalsCoverRows(rows: seq<Row>)
    requires AllDecimal(rows)
    ensures Sum(TotalCounts(Totals(rows))) == |rows|
  {
    hide AllDecimal, SortedKeys, Sum, GroupOf, Filter, TextLeq, SumDecimals, Summable, KeysOf, Sort;
    var names := SortedKeys(KeysOf(rows), KeyLeq);
    KeyOrder();
    SortedKeysShape(KeysOf(rows), KeyLeq);
    CountsCover(KeysOf(rows), names);
    forall i | 0 <= i < |names|
      ensures Totals(rows)[i].rowCount == multiset(KeysOf(rows))[names[i]]
    {
      KeyOccurs(rows, names[i]);
      GroupFields(Filter(rows, HasKey(names[i])));
    }
    assert TotalCounts(Totals(rows)) == CountsOf(KeysOf(rows), names);
    KeysLength(rows);
  }

  lemma KeysLength(rows: seq<Row>)
    ensures |KeysOf(rows)| == |rows| && |PeriodsOf(rows)| == |rows| && |ProvidersOf(rows)| == |rows|
  {
    hide KeysOf, PeriodsOf, ProvidersOf;
    ListedFields(rows);
  }

  lemma ExclusionsCoverRows(rows: seq<Row>)
    ensures Sum(ExclusionCounts(Exclusions(rows))) == |rows|
  {
    hide SortedKeys, Sum, Filter, TextLeq, PeriodsOf, ProvidersOf, SortedTally, TallyTotal;
    var names := SortedKeys(PeriodsOf(rows), TextLeq);
    TextOrder();
    SortedKeysShape(PeriodsOf(rows), TextLeq);
    CountsCover(PeriodsOf(rows), names);
    forall i | 0 <= i < |names|
      ensures Exclusions(rows)[i].rowCount == multiset(PeriodsOf(rows))[names[i]]
    {
      PeriodOccurs(rows, names[i]);
      SortedTallyTotal(ProvidersOf(Filter(rows, HasPeriod(names[i]))));
      KeysLength(Filter(rows, HasPeriod(names[i])));
    }
    assert ExclusionCounts(Exclusions(rows)) == CountsOf(PeriodsOf(rows), names);
    KeysLength(rows);
  }

  lemma {:induction false} KeptOrDropped(filter: Option<seq<string>>, rows: seq<Row>)
    ensures |Filter(rows, Kept(filter))| + |Filter(rows, Dropped(filter))| == |rows|
  {
    if rows != [] {
      KeptOrDropped(filter, rows[..|rows| - 1]);
    }
  }

  /** Every data row is counted once: in a total, or in an exclusion. */
  lemma RowsAreConserved(s: Setup, recs: seq<Record>)
    requires Verdict(s, recs).Ok?
    ensures var doc := Verdict(s, recs).value;
            && doc.dataRows == |recs|
            && Sum(TotalCounts(doc.totals)) + Sum(ExclusionCounts(doc.excluded)) == doc.dataRows
            && (s.filter.None? ==> doc.excluded == [])
  {
    hide ReadRows, Totals, Exclusions, SortedTally, HasColumns, Required, AllDecimal, Distinct, Filter, Sum, NullsOf;
    var rows := ReadRows(s, recs).value;
    ReadRowsDecimal(s, recs);
    FilterDecimal(rows, Kept(s.filter));
    TotalsCoverRows(Filter(rows, Kept(s.filter)));
    ExclusionsCoverRows(Filter(rows, Dropped(s.filter)));
    KeptOrDropped(s.filter, rows);
    if s.filter.None? {
      NothingDropped(rows);
      NothingExcluded();
    }
  }

  lemma {:induction false} NothingDropped(rows: seq<Row>)
    ensures Filter(rows, Dropped(None)) == []
  {
    if rows != [] {
      NothingDropped(rows[..|rows| - 1]);
    }
  }

  lemma NothingExcluded()
    ensures Exclusions([]) == []
  {
    assert FirstSeen(PeriodsOf([])) == [];
  }
}
