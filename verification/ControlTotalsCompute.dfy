/**
 The loops of `compute` in scripts/acceptance/focus_control_totals.py over its dictionaries
 `null_tokens`, `groups` and `excluded`, proved to produce the verdict of `ControlTotals`.
 */
module ControlTotalsCompute {
  import opened Basics
  import opened ControlTotals
  import opened CsvRecords
  import opened Sequences
  import opened Tallies

  /** The dictionary of groups holds what the rows contribute to each key. */
  ghost predicate GroupsHold(groups: Dict<Key, Group>, rows: seq<Row>) {
    && Lists(groups, KeysOf(rows))
    && forall k :: Get(groups, k, NO_ROWS) == GroupOf(Filter(rows, HasKey(k)))
  }

  /** The nested dictionary counts the rows of each period by provider. */
  ghost predicate ExcludedHold(excluded: Dict<string, Dict<string, nat>>, rows: seq<Row>) {
    && Lists(excluded, PeriodsOf(rows))
    && forall p :: Counts(Get(excluded, p, Empty()), ProvidersOf(Filter(rows, HasPeriod(p))))
  }

  lemma Snoc<T>(rows: seq<T>, row: T)
    ensures (rows + [row])[..|rows + [row]| - 1] == rows && (rows + [row])[|rows + [row]| - 1] == row
  {
  }

  lemma GroupsGrow(groups: Dict<Key, Group>, rows: seq<Row>, row: Row)
    requires GroupsHold(groups, rows)
    ensures GroupsHold(Put(groups, KeyOf(row), Add(Get(groups, KeyOf(row), NO_ROWS), row)), rows + [row])
  {
    hide Lists, FirstSeen, Filter, Add;
    var key := KeyOf(row);
    var value := Add(Get(groups, key, NO_ROWS), row);
    var grown := Put(groups, key, value);
    Snoc(rows, row);
    PutLists(groups, KeysOf(rows), key, value);
    forall k
      ensures Get(grown, k, NO_ROWS) == GroupOf(Filter(rows + [row], HasKey(k)))
    {
      var before := Filter(rows, HasKey(k));
      FilterStep(rows, row, HasKey(k));
      Snoc(before, row);
      assert Get(groups, k, NO_ROWS) == GroupOf(before);
      if k == key {
        assert GroupOf(before + [row]) == Add(GroupOf(before), row);
      }
    }
  }

  lemma ExcludedGrows(excluded: Dict<string, Dict<string, nat>>, rows: seq<Row>, row: Row)
    requires ExcludedHold(excluded, rows)
    ensures ExcludedHold(Put(excluded, row.period, Increment(Get(excluded, row.period, Empty()), row.provider)),
                         rows + [row])
  {
    hide Lists, FirstSeen, Filter, Counts, Increment;
    var period := row.period;
    var value := Increment(Get(excluded, period, Empty()), row.provider);
    var grown := Put(excluded, period, value);
    Snoc(rows, row);
    PutLists(excluded, PeriodsOf(rows), period, value);
    forall p
      ensures Counts(Get(grown, p, Empty()), ProvidersOf(Filter(rows + [row], HasPeriod(p))))
    {
      var before := Filter(rows, HasPeriod(p));
      FilterStep(rows, row, HasPeriod(p));
      Snoc(before, row);
      assert Counts(Get(excluded, p, Empty()), ProvidersOf(before));
      if p == period {
        IncrementCounts(Get(excluded, p, Empty()), ProvidersOf(before), row.provider);
        assert ProvidersOf(before + [row]) == ProvidersOf(before) + [row.provider];
      }
    }
  }

  lemma {:induction false} RefusalStands(s: Setup, recs: seq<Record>, i: nat)
    requires HasColumns(s) && i <= |recs| && ReadRows(s, recs[..i]).Err?
    ensures ReadRows(s, recs) == ReadRows(s, recs[..i])
  {
    hide ReadRow, HasColumns;
    if i < |recs| {
      assert recs[..|recs| - 1][..i] == recs[..i];
      RefusalStands(s, recs[..|recs| - 1], i);
    } else {
      assert recs[..i] == recs;
    }
  }

  /** Counts the null columns of one record. */
  method CountNulls(header: seq<string>, rec: Record, nullTokens: Dict<string, nat>, ghost before: seq<string>)
    returns (r: Dict<string, nat>)
    requires |rec| == |header| && Counts(nullTokens, before)
    ensures Counts(r, before + NullNames(header, rec))
  {
    hide Counts;
    r := nullTokens;
    assert before + NullNames([], []) == before;
    for i := 0 to |header|
      invariant Counts(r, before + NullNames(header[..i], rec[..i]))
    {
      ghost var names := NullNames(header[..i], rec[..i]);
      assert header[..i + 1][..i] == header[..i] && rec[..i + 1][..i] == rec[..i];
      if IsNull(rec[i]) {
        IncrementCounts(r, before + names, header[i]);
        assert before + names + [header[i]] == before + (names + [header[i]]);
        r := Increment(r, header[i]);
      } else {
        assert names + [] == names;
      }
    }
    assert header[..|header|] == header && rec[..|rec|] == rec;
  }

  method ListTotals(groups: Dict<Key, Group>, ghost rows: seq<Row>) returns (totals: seq<Total>)
    requires AllDecimal(rows) && GroupsHold(groups, rows)
    ensures totals == Totals(rows)
  {
    hide TotalOf, AllDecimal, Sort, FirstSeen, Filter, GroupOf;
    var sorted := Sort(groups.keys, KeyLeq);
    KeyOrder();
    SortedKeysShape(KeysOf(rows), KeyLeq);
    totals := [];
    for i := 0 to |sorted|
      invariant totals == Totals(rows)[..i]
    {
      var k := sorted[i];
      assert k in KeysOf(rows);
      FilterDecimal(rows, HasKey(k));
      GroupSummable(Filter(rows, HasKey(k)));
      assert groups.at[k] == Get(groups, k, NO_ROWS);
      totals := totals + [TotalOf(k, groups.at[k])];
    }
  }

  /** `sorted(counts.items())` */
  method ListCounts(counts: Dict<string, nat>, ghost names: seq<string>) returns (tally: seq<(string, nat)>)
    requires Counts(counts, names)
    ensures tally == SortedTally(names)
  {
    hide Sort, FirstSeen;
    var sorted := Sort(counts.keys, TextLeq);
    TextOrder();
    SortedKeysShape(names, TextLeq);
    tally := [];
    for i := 0 to |sorted|
      invariant tally == SortedTally(names)[..i]
    {
      assert sorted[i] in names;
      tally := tally + [(sorted[i], counts.at[sorted[i]])];
    }
  }

  method ListExclusions(excluded: Dict<string, Dict<string, nat>>, ghost rows: seq<Row>)
    returns (exclusions: seq<Exclusion>)
    requires ExcludedHold(excluded, rows)
    ensures exclusions == Exclusions(rows)
  {
    hide Sort, FirstSeen, Counts, SortedTally, TallyTotal;
    var sorted := Sort(excluded.keys, TextLeq);
    TextOrder();
    SortedKeysShape(PeriodsOf(rows), TextLeq);
    exclusions := [];
    for i := 0 to |sorted|
      invariant exclusions == Exclusions(rows)[..i]
    {
      var p := sorted[i];
      assert p in PeriodsOf(rows);
      assert excluded.at[p] == Get(excluded, p, Empty());
      var tally := ListCounts(excluded.at[p], ProvidersOf(Filter(rows, HasPeriod(p))));
      exclusions := exclusions + [Exclusion(p, TallyTotal(tally), tally)];
    }
  }

  lemma NothingYet(filter: Option<seq<string>>)
    ensures GroupsHold(Empty(), Filter([], Kept(filter)))
    ensures ExcludedHold(Empty(), Filter([], Dropped(filter)))
    ensures Counts(Empty(), NullsOf([]))
  {
  }

  /** All data records: the first refusal, or the document. */
  method ReadRecords(s: Setup, recs: seq<Record>) returns (r: Result<Document, Refusal>)
    requires HasColumns(s)
    ensures ReadRows(s, recs).Err? ==> r == Err(ReadRows(s, recs).error)
    ensures ReadRows(s, recs).Ok? ==>
              AllDecimal(ReadRows(s, recs).value) && r == Ok(DocumentOf(s.filter, ReadRows(s, recs).value))
  {
    hide ReadRow, HasColumns, Counts, GroupsHold, ExcludedHold, Decimal, Filter, SortedTally, Totals, Exclusions;
    var nullTokens: Dict<string, nat> := Empty();
    var groups: Dict<Key, Group> := Empty();
    var excluded: Dict<string, Dict<string, nat>> := Empty();
    ghost var rows: seq<Row> := [];
    NothingYet(s.filter);
    for i := 0 to |recs|
      invariant ReadRows(s, recs[..i]) == Ok(rows)
      invariant Counts(nullTokens, NullsOf(rows))
      invariant GroupsHold(groups, Filter(rows, Kept(s.filter)))
      invariant ExcludedHold(excluded, Filter(rows, Dropped(s.filter)))
    {
      var rec := recs[i];
      assert recs[..i + 1][..i] == recs[..i];
      var read := ReadRow(s, i + 2, rec);
      if read.Err? {
        RefusalStands(s, recs, i + 1);
        return Err(read.error);
      }
      var row := read.value;
      RowShape(s, i + 2, rec);
      nullTokens := CountNulls(s.header, rec, nullTokens, NullsOf(rows));
      Snoc(rows, row);
      FilterStep(rows, row, Kept(s.filter));
      FilterStep(rows, row, Dropped(s.filter));
      if s.filter.Some? && row.provider !in s.filter.value {
        ExcludedGrows(excluded, Filter(rows, Dropped(s.filter)), row);
        var e := Get(excluded, row.period, Empty());
        excluded := Put(excluded, row.period, Increment(e, row.provider));
      } else {
        GroupsGrow(groups, Filter(rows, Kept(s.filter)), row);
        groups := Put(groups, KeyOf(row), Add(Get(groups, KeyOf(row), NO_ROWS), row));
      }
      rows := rows + [row];
    }
    assert recs[..|recs|] == recs;
    ReadRowsDecimal(s, recs);
    FilterDecimal(rows, Kept(s.filter));
    var nulls := ListCounts(nullTokens, NullsOf(rows));
    var totals := ListTotals(groups, Filter(rows, Kept(s.filter)));
    var exclusions := ListExclusions(excluded, Filter(rows, Dropped(s.filter)));
    return Ok(Document(|recs|, nulls, totals, s.filter, exclusions));
  }

  method Compute(text: string, rowId: string, filter: Option<seq<string>>)
    returns (r: Result<Document, Refusal>)
    ensures r == Computed(text, rowId, filter)
  {
    hide Unusable, ReadRows, DocumentOf, Tokenized, AllDecimal;
    AcceptedTextHasRecords(text);
    var tokens := Tokenize(text);
    if tokens.Err? {
      return Err(Malformed(tokens.error));
    }
    var recs := tokens.value;
    var s := Setup(Texts(recs[0]), rowId, filter);
    var unusable := Unusable(s, |recs[1..]|);
    if unusable.Some? {
      return Err(unusable.value);
    }
    r := ReadRecords(s, recs[1..]);
  }
}
