/**
 Grouping and ranking of src/attribution/aggregations.ts: `teamAttributionRows` and
 `userAttributionRows`, whose rows differ only in how workload ids are listed.
 */
module Attribution {
  import opened RealSums
  import opened Sequences
  import opened Tallies

  /** A workload of a team, or a sampled event of a user. */
  datatype Record = Record(key: string, tokensIn: real, tokensOut: real, cost: real, workloads: seq<string>)

  datatype AttributionRow = AttributionRow(
    key: string,
    tokensIn: real,
    tokensOut: real,
    cost: real,
    share: real,
    workloadIds: seq<string>,
    recordCount: nat)

  datatype Dimension = Team | User

  function CostOf(): Record -> real { (r: Record) => r.cost }

  function TokensInOf(): Record -> real { (r: Record) => r.tokensIn }

  function TokensOutOf(): Record -> real { (r: Record) => r.tokensOut }

  function KeyOf(): Record -> string { (r: Record) => r.key }

  function WithKey(k: string): Record -> bool { (r: Record) => r.key == k }

  function RowCost(): AttributionRow -> real { (r: AttributionRow) => r.cost }

  function RowShare(): AttributionRow -> real { (r: AttributionRow) => r.share }

  function RowCount(): AttributionRow -> int { (r: AttributionRow) => r.recordCount }

  function RowKey(): AttributionRow -> string { (r: AttributionRow) => r.key }

  /** A share of nothing is zero. */
  function Share(part: real, whole: real): real { if whole == 0.0 then 0.0 else part / whole }

  function AllWorkloads(group: seq<Record>): seq<string> {
    if group == [] then [] else AllWorkloads(group[..|group| - 1]) + group[|group| - 1].workloads
  }

  function WorkloadIds(dimension: Dimension, group: seq<Record>): seq<string> {
    if dimension == Team then AllWorkloads(group) else FirstSeen(AllWorkloads(group))
  }

  function BuildRow(dimension: Dimension, key: string, group: seq<Record>, total: real): AttributionRow {
    var cost := Total(Map(group, CostOf()));
    AttributionRow(key, Total(Map(group, TokensInOf())), Total(Map(group, TokensOutOf())), cost, Share(cost, total),
                   WorkloadIds(dimension, group), |group|)
  }

  /** Worst burner first; the key breaks ties. */
  predicate CostDesc(a: AttributionRow, b: AttributionRow) {
    a.cost > b.cost || (a.cost == b.cost && TextLeq(a.key, b.key))
  }

  function RowFor(dimension: Dimension, records: seq<Record>): string -> AttributionRow {
    (k: string) => BuildRow(dimension, k, Filter(records, WithKey(k)), Total(Map(records, CostOf())))
  }

  function Keys(records: seq<Record>): seq<string> { FirstSeen(Map(records, KeyOf())) }

  function RowsOf(dimension: Dimension, records: seq<Record>): seq<AttributionRow> {
    Sort(Map(Keys(records), RowFor(dimension, records)), CostDesc)
  }

  // ------------------------------------------------------------- the grouping

  ghost predicate GroupsHold(groups: Dict<string, seq<Record>>, records: seq<Record>) {
    && Lists(groups, Map(records, KeyOf()))
    && forall k :: Get(groups, k, []) == Filter(records, WithKey(k))
  }

  lemma GroupsGrow(groups: Dict<string, seq<Record>>, records: seq<Record>, r: Record)
    requires GroupsHold(groups, records)
    ensures GroupsHold(Put(groups, r.key, Get(groups, r.key, []) + [r]), records + [r])
  {
    hide Lists, FirstSeen, Filter;
    var group := Get(groups, r.key, []) + [r];
    assert Map(records + [r], KeyOf()) == Map(records, KeyOf()) + [r.key];
    PutLists(groups, Map(records, KeyOf()), r.key, group);
    forall k
      ensures Get(Put(groups, r.key, group), k, []) == Filter(records + [r], WithKey(k))
    {
      FilterStep(records, r, WithKey(k));
      assert Get(groups, k, []) == Filter(records, WithKey(k));
    }
  }

  method AttributionRows(dimension: Dimension, records: seq<Record>) returns (rows: seq<AttributionRow>)
    ensures rows == RowsOf(dimension, records)
  {
    hide Filter, Total, FirstSeen, Lists, BuildRow;
    var groups: Dict<string, seq<Record>> := Empty();
    NothingYet();
    assert records[..0] == [];
    for i := 0 to |records|
      invariant GroupsHold(groups, records[..i])
    {
      var r := records[i];
      assert records[..i + 1] == records[..i] + [r];
      GroupsGrow(groups, records[..i], r);
      groups := Put(groups, r.key, Get(groups, r.key, []) + [r]);
    }
    assert records[..|records|] == records;
    var total := Total(Map(records, CostOf()));
    ListedKeys(groups, records);
    rows := [];
    for i := 0 to |groups.keys|
      invariant rows == Map(Keys(records), RowFor(dimension, records))[..i]
    {
      var k := groups.keys[i];
      assert Get(groups, k, []) == Filter(records, WithKey(k));
      rows := rows + [BuildRow(dimension, k, Get(groups, k, []), total)];
    }
    assert rows == Map(Keys(records), RowFor(dimension, records));
    rows := Sort(rows, CostDesc);
  }

  lemma NothingYet()
    ensures GroupsHold(Empty(), [])
  {
  }

  lemma ListedKeys(groups: Dict<string, seq<Record>>, records: seq<Record>)
    requires GroupsHold(groups, records)
    ensures groups.keys == Keys(records)
  {
  }

  // -------------------------------------------------- nothing lost or repeated

  function CostsByKey(records: seq<Record>, keys: seq<string>): (r: seq<real>)
    ensures |r| == |keys|
  {
    seq(|keys|, i requires 0 <= i < |keys| => Total(Map(Filter(records, WithKey(keys[i])), CostOf())))
  }

  lemma TotalMore(records: seq<Record>, r: Record)
    ensures Total(Map(records + [r], CostOf())) == Total(Map(records, CostOf())) + r.cost
  {
    hide Total;
    assert Map(records + [r], CostOf()) == Map(records, CostOf()) + [r.cost];
    TotalAppend(Map(records, CostOf()), [r.cost]);
    TotalOne(r.cost);
  }

  lemma CostsEnd(records: seq<Record>, keys: seq<string>)
    requires keys != []
    ensures var n := |keys| - 1;
            Total(CostsByKey(records, keys))
            == Total(CostsByKey(records, keys[..n])) + Total(Map(Filter(records, WithKey(keys[n])), CostOf()))
  {
    hide Filter, Map;
    var n := |keys| - 1;
    assert CostsByKey(records, keys)[..n] == CostsByKey(records, keys[..n]);
  }

  lemma {:induction false} OneMoreRecord(records: seq<Record>, r: Record, keys: seq<string>)
    requires Distinct(keys)
    ensures Total(CostsByKey(records + [r], keys))
            == Total(CostsByKey(records, keys)) + if r.key in keys then r.cost else 0.0
  {
    hide Filter, Map;
    if keys != [] {
      hide Total, CostsByKey;
      var n := |keys| - 1;
      var front := keys[..n];
      OneMoreRecord(records, r, front);
      assert keys == front + [keys[n]];
      CostsEnd(records, keys);
      CostsEnd(records + [r], keys);
      FilterStep(records, r, WithKey(keys[n]));
      TotalMore(Filter(records, WithKey(keys[n])), r);
    }
  }

  lemma {:induction false} NoRecords(keys: seq<string>)
    ensures Total(CostsByKey([], keys)) == 0.0
  {
    if keys != [] {
      var n := |keys| - 1;
      NoRecords(keys[..n]);
      assert CostsByKey([], keys)[..n] == CostsByKey([], keys[..n]);
      assert Map(Filter([], WithKey(keys[n])), CostOf()) == [];
    }
  }

  lemma {:induction false} KeysCover(records: seq<Record>, keys: seq<string>)
    requires Distinct(keys) && forall i :: 0 <= i < |records| ==> records[i].key in keys
    ensures Total(CostsByKey(records, keys)) == Total(Map(records, CostOf()))
  {
    hide CostsByKey;
    if records == [] {
      NoRecords(keys);
      assert Map(records, CostOf()) == [];
    } else {
      var n := |records| - 1;
      KeysCover(records[..n], keys);
      assert records == records[..n] + [records[n]];
      OneMoreRecord(records[..n], records[n], keys);
      TotalMore(records[..n], records[n]);
    }
  }

  lemma {:induction false} KeyOccurs(records: seq<Record>, k: string)
    ensures |Filter(records, WithKey(k))| == multiset(Map(records, KeyOf()))[k]
  {
    if records == [] {
      assert Map(records, KeyOf()) == [];
    } else {
      var n := |records| - 1;
      KeyOccurs(records[..n], k);
      assert Map(records, KeyOf()) == Map(records[..n], KeyOf()) + [records[n].key];
    }
  }

  lemma CostDescIsTotal()
    ensures TotalOrder(CostDesc)
  {
    hide TextLeq;
    TextOrder();
  }

  lemma KeysListed(records: seq<Record>)
    ensures Distinct(Keys(records))
    ensures forall i :: 0 <= i < |records| ==> records[i].key in Keys(records)
    ensures forall k :: k in Map(records, KeyOf()) <==> k in Keys(records)
  {
    hide FirstSeen;
    forall i | 0 <= i < |records|
      ensures records[i].key in Keys(records)
    {
      assert Map(records, KeyOf())[i] == records[i].key;
    }
  }

  lemma RowsArePermuted(dimension: Dimension, records: seq<Record>)
    ensures var unsorted := Map(Keys(records), RowFor(dimension, records));
            && multiset(RowsOf(dimension, records)) == multiset(unsorted)
            && |RowsOf(dimension, records)| == |unsorted|
            && Sorted(RowsOf(dimension, records), CostDesc)
  {
    hide TotalOrder, Sort, Keys, Filter, Total;
    CostDescIsTotal();
    SortCorrect(Map(Keys(records), RowFor(dimension, records)), CostDesc);
  }

  /** The rows split the records: costs and counts add up to the whole, and every key has one row. */
  lemma RowsCoverRecords(dimension: Dimension, records: seq<Record>)
    ensures var rows := RowsOf(dimension, records);
            && Total(Map(rows, RowCost())) == Total(Map(records, CostOf()))
            && Sum(Map(rows, RowCount())) == |records|
            && multiset(Map(rows, RowKey())) == multiset(Keys(records))
            && Distinct(Map(rows, RowKey()))
  {
    hide Filter, Total, Sum, Keys, RowsOf;
    var keys := Keys(records);
    var rows, unsorted := RowsOf(dimension, records), Map(keys, RowFor(dimension, records));
    KeysListed(records);
    RowsArePermuted(dimension, records);
    MapPermutes(rows, unsorted, RowCost());
    MapPermutes(rows, unsorted, RowCount());
    MapPermutes(rows, unsorted, RowKey());
    TotalPermutes(Map(rows, RowCost()), Map(unsorted, RowCost()));
    SumPermutes(Map(rows, RowCount()), Map(unsorted, RowCount()));
    KeysCover(records, keys);
    assert Map(unsorted, RowCost()) == CostsByKey(records, keys);
    RowCountsCover(records, keys, Map(unsorted, RowCount()));
    assert Map(unsorted, RowKey()) == keys;
    PermutationDistinct(keys, Map(rows, RowKey()));
  }

  lemma RowCountsCover(records: seq<Record>, keys: seq<string>, counts: seq<int>)
    requires Distinct(keys) && |counts| == |keys|
    requires forall k :: k in Map(records, KeyOf()) <==> k in keys
    requires forall i :: 0 <= i < |keys| ==> counts[i] == |Filter(records, WithKey(keys[i]))|
    ensures Sum(counts) == |records|
  {
    hide Filter, Sum, Map;
    forall i | 0 <= i < |keys|
      ensures counts[i] == multiset(Map(records, KeyOf()))[keys[i]]
    {
      KeyOccurs(records, keys[i]);
    }
    CountsCover(Map(records, KeyOf()), keys);
    assert counts == CountsOf(Map(records, KeyOf()), keys);
    assert |Map(records, KeyOf())| == |records|;
  }

  /** Shares sum to one unless there is nothing to share. */
  lemma SharesAddUp(dimension: Dimension, records: seq<Record>)
    requires Total(Map(records, CostOf())) != 0.0
    ensures Total(Map(RowsOf(dimension, records), RowShare())) == 1.0
  {
    hide Filter, Total, Keys, RowsOf, WorkloadIds;
    var rows := RowsOf(dimension, records);
    var total := Total(Map(records, CostOf()));
    RowsCoverRecords(dimension, records);
    RowsArePermuted(dimension, records);
    forall k | 0 <= k < |rows|
      ensures rows[k].share == rows[k].cost / total
    {
      assert rows[k] in multiset(rows);
      assert rows[k] in Map(Keys(records), RowFor(dimension, records));
    }
    SharesSumToOne(Map(rows, RowCost()), Map(rows, RowShare()));
  }

  /** Rows come with the most expensive first. */
  lemma RowsAreRanked(dimension: Dimension, records: seq<Record>, i: nat, j: nat)
    requires i < j < |RowsOf(dimension, records)|
    ensures CostDesc(RowsOf(dimension, records)[i], RowsOf(dimension, records)[j])
  {
    hide RowsOf, CostDesc;
    RowsArePermuted(dimension, records);
  }

  // --------------------------------------------------------- record by record

  /** A figure summed over the records of a key. */
  function FigureOf(records: seq<Record>, k: string, figure: Record -> real): real {
    if records == [] then 0.0
    else
      var r := records[|records| - 1];
      FigureOf(records[..|records| - 1], k, figure) + if r.key == k then figure(r) else 0.0
  }

  function RecordsOf(records: seq<Record>, k: string): nat {
    if records == [] then 0
    else RecordsOf(records[..|records| - 1], k) + if records[|records| - 1].key == k then 1 else 0
  }

  /** The workloads named by the records of a key, in order. */
  function WorkloadsNamed(records: seq<Record>, k: string): seq<string> {
    if records == [] then []
    else
      var r := records[|records| - 1];
      WorkloadsNamed(records[..|records| - 1], k) + if r.key == k then r.workloads else []
  }

  /** The row says what the records of its key add up to; a user's workloads are listed once each. */
  predicate RowSays(dimension: Dimension, records: seq<Record>, row: AttributionRow) {
    && row.cost == FigureOf(records, row.key, (r: Record) => r.cost)
    && row.tokensIn == FigureOf(records, row.key, (r: Record) => r.tokensIn)
    && row.tokensOut == FigureOf(records, row.key, (r: Record) => r.tokensOut)
    && row.recordCount == RecordsOf(records, row.key) && row.recordCount > 0
    && (match dimension
        case Team => row.workloadIds == WorkloadsNamed(records, row.key)
        case User => Distinct(row.workloadIds)
                     && forall w :: w in row.workloadIds + WorkloadsNamed(records, row.key) ==>
                          w in row.workloadIds && w in WorkloadsNamed(records, row.key))
  }

  lemma {:induction false} FigureIs(records: seq<Record>, k: string, figure: Record -> real, f: Record -> real)
    requires forall r :: figure(r) == f(r)
    ensures Total(Map(Filter(records, WithKey(k)), figure)) == FigureOf(records, k, f)
  {
    hide Total;
    if records == [] {
      NoFigure(figure);
    } else {
      var n := |records| - 1;
      var own := Filter(records[..n], WithKey(k));
      FigureIs(records[..n], k, figure, f);
      if records[n].key == k {
        assert Map(own + [records[n]], figure) == Map(own, figure) + [figure(records[n])];
        TotalAppend(Map(own, figure), [figure(records[n])]);
        TotalOne(figure(records[n]));
      }
    }
  }

  lemma NoFigure(figure: Record -> real)
    ensures Total(Map([], figure)) == 0.0
  {
  }

  lemma {:induction false} GroupMeans(records: seq<Record>, k: string)
    ensures |Filter(records, WithKey(k))| == RecordsOf(records, k)
    ensures AllWorkloads(Filter(records, WithKey(k))) == WorkloadsNamed(records, k)
  {
    if records != [] {
      var n := |records| - 1;
      GroupMeans(records[..n], k);
      var own := Filter(records[..n], WithKey(k));
      assert (own + [records[n]])[..|own|] == own;
    }
  }

  lemma BuiltRowSays(dimension: Dimension, records: seq<Record>, k: string, total: real)
    requires k in Map(records, KeyOf())
    ensures RowSays(dimension, records, BuildRow(dimension, k, Filter(records, WithKey(k)), total))
  {
    hide Total, FigureOf, AllWorkloads, WorkloadsNamed, FirstSeen, Filter;
    FigureIs(records, k, CostOf(), (r: Record) => r.cost);
    FigureIs(records, k, TokensInOf(), (r: Record) => r.tokensIn);
    FigureIs(records, k, TokensOutOf(), (r: Record) => r.tokensOut);
    GroupMeans(records, k);
    KeyOccurs(records, k);
    assert k in multiset(Map(records, KeyOf()));
  }

  lemma RowIsBuilt(dimension: Dimension, records: seq<Record>, i: nat) returns (k: string)
    requires i < |RowsOf(dimension, records)|
    ensures k in Map(records, KeyOf())
    ensures RowsOf(dimension, records)[i]
            == BuildRow(dimension, k, Filter(records, WithKey(k)), Total(Map(records, CostOf())))
  {
    hide Filter, Total, Keys, RowsOf, BuildRow;
    var rows := RowsOf(dimension, records);
    RowsArePermuted(dimension, records);
    assert rows[i] in multiset(rows);
    assert rows[i] in Map(Keys(records), RowFor(dimension, records));
    var n :| 0 <= n < |Keys(records)| && rows[i] == RowFor(dimension, records)(Keys(records)[n]);
    KeysListed(records);
    k := Keys(records)[n];
    assert k in Keys(records);
  }

  /** Every row says what the records of its key add up to, and its share of the whole. */
  lemma RowsSayTheRecords(dimension: Dimension, records: seq<Record>, i: nat)
    requires i < |RowsOf(dimension, records)|
    ensures var row, total := RowsOf(dimension, records)[i], Total(Map(records, CostOf()));
            RowSays(dimension, records, row)
            && if total == 0.0 then row.share == 0.0 else row.share * total == row.cost
  {
    hide Filter, Total, RowsOf, RowSays, WorkloadIds, Map;
    var k := RowIsBuilt(dimension, records, i);
    var row, total := RowsOf(dimension, records)[i], Total(Map(records, CostOf()));
    BuiltRowSays(dimension, records, k, total);
    if total != 0.0 {
      PartUndone(row.cost, total);
    }
  }

  lemma PartUndone(part: real, whole: real)
    requires whole != 0.0
    ensures part / whole * whole == part
  {
  }
}
