/** Shared-cost allocation over one slice (`allocateSharedCost` and `result` in src/attribution/allocation.ts). */
module Allocation {
  import opened Basics
  import opened Sequences
  import opened ScaledMoney
  import opened LargestRemainder

  datatype Rule = EvenSplit | KeyedTag | ProportionalToAttributed

  datatype Kind = Direct | Shared | Unattributed

  datatype Row = Row(
    rowKey: string,
    currency: string,
    kind: Kind,
    projectId: Option<string>,
    amount: string,
    targets: Option<seq<string>>)

  datatype Entry = Entry(rowKey: string, projectId: string, amount: string, rule: Rule)

  /** An entry before its amount is printed. */
  datatype ScaledEntry = ScaledEntry(rowKey: string, projectId: string, units: int, rule: Rule)

  datatype Coverage = Coverage(attributedAmount: string, totalAmount: string, attributedPermille: Option<nat>)

  datatype Allocated = Allocated(allocations: seq<Entry>, unallocated: string, coverage: Coverage)

  datatype Refusal = MixedCurrencies | NotADecimal

  // ------------------------------------------------------------ slice facts

  function UnionScale(rows: seq<Row>): nat {
    if rows == [] then 0
    else
      var before := UnionScale(rows[..|rows| - 1]);
      var here := Scaling(rows[|rows| - 1].amount);
      if here > before then here else before
  }

  predicate Readable(rows: seq<Row>, scale: nat) {
    forall i :: 0 <= i < |rows| ==> ToScaled(rows[i].amount, scale).Some?
  }

  function Units(row: Row, scale: nat): int {
    match ToScaled(row.amount, scale)
    case Some(v) => v
    case None => 0
  }

  function Total(rows: seq<Row>, scale: nat): int {
    if rows == [] then 0 else Total(rows[..|rows| - 1], scale) + Units(rows[|rows| - 1], scale)
  }

  predicate Evidenced(row: Row) { row.kind == Direct && row.projectId.Some? }

  /** The cost that direct rows carry to their own projects. */
  function DirectAttributed(rows: seq<Row>, scale: nat): int {
    if rows == [] then 0
    else
      DirectAttributed(rows[..|rows| - 1], scale)
      + if Evidenced(rows[|rows| - 1]) then Units(rows[|rows| - 1], scale) else 0
  }

  function SharedTotal(rows: seq<Row>, scale: nat): int {
    if rows == [] then 0
    else
      SharedTotal(rows[..|rows| - 1], scale)
      + if rows[|rows| - 1].kind == Shared then Units(rows[|rows| - 1], scale) else 0
  }

  function EntryTotal(entries: seq<ScaledEntry>): int {
    if entries == [] then 0 else EntryTotal(entries[..|entries| - 1]) + entries[|entries| - 1].units
  }

  lemma {:induction false} EntryTotalAppend(a: seq<ScaledEntry>, b: seq<ScaledEntry>)
    ensures EntryTotal(a + b) == EntryTotal(a) + EntryTotal(b)
  {
    if b == [] {
      assert a + b == a;
    } else {
      assert (a + b)[..|a + b| - 1] == a + b[..|b| - 1];
      EntryTotalAppend(a, b[..|b| - 1]);
    }
  }

  // ------------------------------------------------------- the rules, row by row

  function Targets(row: Row): seq<string> {
    match row.targets
    case None => []
    case Some(t) => Sort(FirstSeen(t), TextLeq)
  }

  function Ones(n: nat): (w: seq<int>)
    ensures |w| == n
  {
    seq(n, _ => 1)
  }

  /** The non-zero parts of one row, in project order. */
  function SplitEntries(row: Row, projects: seq<string>, parts: seq<int>, rule: Rule): seq<ScaledEntry>
    requires |projects| == |parts|
  {
    if projects == [] then []
    else
      var n := |projects| - 1;
      SplitEntries(row, projects[..n], parts[..n], rule)
      + if parts[n] != 0 then [ScaledEntry(row.rowKey, projects[n], parts[n], rule)] else []
  }

  function RowEntries(row: Row, rule: Rule, scale: nat): seq<ScaledEntry> {
    if row.kind != Shared then []
    else
      match rule
      case KeyedTag =>
        if row.projectId.None? then []
        else [ScaledEntry(row.rowKey, row.projectId.value, Units(row, scale), rule)]
      case EvenSplit =>
        SplitEntries(row, Targets(row), Distribute(Units(row, scale), Ones(|Targets(row)|)), rule)
      case ProportionalToAttributed => []
  }

  function RowUnallocated(row: Row, rule: Rule, scale: nat): int {
    match row.kind
    case Direct => if row.projectId.None? then Units(row, scale) else 0
    case Unattributed => Units(row, scale)
    case Shared =>
      match rule
      case KeyedTag => if row.projectId.None? then Units(row, scale) else 0
      case EvenSplit => if Targets(row) == [] then Units(row, scale) else 0
      case ProportionalToAttributed => Units(row, scale)
  }

  function StagedEntries(rows: seq<Row>, rule: Rule, scale: nat): seq<ScaledEntry> {
    if rows == [] then []
    else StagedEntries(rows[..|rows| - 1], rule, scale) + RowEntries(rows[|rows| - 1], rule, scale)
  }

  function StagedUnallocated(rows: seq<Row>, rule: Rule, scale: nat): int {
    if rows == [] then 0
    else StagedUnallocated(rows[..|rows| - 1], rule, scale) + RowUnallocated(rows[|rows| - 1], rule, scale)
  }

  // ---------------------------------------------- the attributed base of a slice

  function DirectProjects(rows: seq<Row>): seq<string> {
    if rows == [] then []
    else
      DirectProjects(rows[..|rows| - 1])
      + if Evidenced(rows[|rows| - 1]) then [rows[|rows| - 1].projectId.value] else []
  }

  function DirectOf(rows: seq<Row>, project: string, scale: nat): int {
    if rows == [] then 0
    else
      DirectOf(rows[..|rows| - 1], project, scale)
      + if Evidenced(rows[|rows| - 1]) && rows[|rows| - 1].projectId.value == project
        then Units(rows[|rows| - 1], scale) else 0
  }

  function Projects(rows: seq<Row>): seq<string> { Sort(FirstSeen(DirectProjects(rows)), TextLeq) }

  function Weights(rows: seq<Row>, projects: seq<string>, scale: nat): (w: seq<int>)
    ensures |w| == |projects|
  {
    seq(|projects|, i requires 0 <= i < |projects| => DirectOf(rows, projects[i], scale))
  }

  function Base(rows: seq<Row>, scale: nat): (w: seq<int>)
    ensures |w| == |Projects(rows)|
  {
    Weights(rows, Projects(rows), scale)
  }

  function ProportionalEntries(rows: seq<Row>, projects: seq<string>, weights: seq<int>, scale: nat): seq<ScaledEntry>
    requires |projects| == |weights|
  {
    if rows == [] then []
    else
      var row := rows[|rows| - 1];
      ProportionalEntries(rows[..|rows| - 1], projects, weights, scale)
      + if row.kind == Shared
        then SplitEntries(row, projects, Distribute(Units(row, scale), weights), ProportionalToAttributed)
        else []
  }

  /** The staged shared cost is split over the base, unless the base is zero. */
  predicate Splits(rows: seq<Row>, rule: Rule, scale: nat) {
    rule == ProportionalToAttributed && Sum(Base(rows, scale)) != 0
  }

  function Entries(rows: seq<Row>, rule: Rule, scale: nat): seq<ScaledEntry> {
    StagedEntries(rows, rule, scale)
    + if Splits(rows, rule, scale) then ProportionalEntries(rows, Projects(rows), Base(rows, scale), scale) else []
  }

  function Unallocated(rows: seq<Row>, rule: Rule, scale: nat): int {
    StagedUnallocated(rows, rule, scale) - if Splits(rows, rule, scale) then SharedTotal(rows, scale) else 0
  }

  // ----------------------------------------------------------------- the result

  function PrintEntries(entries: seq<ScaledEntry>, scale: nat): (p: seq<Entry>)
    ensures |p| == |entries|
  {
    seq(|entries|, i requires 0 <= i < |entries| =>
      Entry(entries[i].rowKey, entries[i].projectId, Printed(entries[i].units, scale), entries[i].rule))
  }

  /** The printed amounts, read again and added up. */
  function ReadTotal(entries: seq<Entry>, scale: nat): int {
    if entries == [] then 0
    else
      ReadTotal(entries[..|entries| - 1], scale)
      + match ToScaled(entries[|entries| - 1].amount, scale)
        case Some(v) => v
        case None => 0
  }

  function Attributed(rows: seq<Row>, allocations: seq<Entry>, scale: nat): int {
    DirectAttributed(rows, scale) + ReadTotal(allocations, scale)
  }

  function Permille(attributed: int, total: int): Option<nat> {
    if total == 0 then None else Some(Abs(attributed) * 1000 / Abs(total))
  }

  function Report(rows: seq<Row>, allocations: seq<Entry>, unallocated: int, scale: nat): Allocated {
    var attributed := Attributed(rows, allocations, scale);
    var total := Total(rows, scale);
    Allocated(allocations, Printed(unallocated, scale),
              Coverage(Printed(attributed, scale), Printed(total, scale), Permille(attributed, total)))
  }

  predicate MixesCurrencies(currency: string, rows: seq<Row>) {
    exists i :: 0 <= i < |rows| && rows[i].currency != currency
  }

  function Outcome(currency: string, rows: seq<Row>, rule: Rule): Result<Allocated, Refusal> {
    var scale := UnionScale(rows);
    if MixesCurrencies(currency, rows) then Err(MixedCurrencies)
    else if !Readable(rows, scale) then Err(NotADecimal)
    else Ok(Report(rows, PrintEntries(Entries(rows, rule, scale), scale), Unallocated(rows, rule, scale), scale))
  }

  // ---------------------------------------------------------------- the program

  lemma PrintEntriesAppend(a: seq<ScaledEntry>, b: seq<ScaledEntry>, scale: nat)
    ensures PrintEntries(a + b, scale) == PrintEntries(a, scale) + PrintEntries(b, scale)
  {
  }

  /** Pushes the non-zero shares of one row. */
  method PushShares(row: Row, projects: seq<string>, shares: seq<int>, rule: Rule, scale: nat, pushed: seq<Entry>)
    returns (allocations: seq<Entry>)
    requires |projects| == |shares|
    ensures allocations == pushed + PrintEntries(SplitEntries(row, projects, shares, rule), scale)
  {
    allocations := pushed;
    var i := 0;
    assert PrintEntries(SplitEntries(row, projects[..0], shares[..0], rule), scale) == [];
    while i < |projects|
      invariant 0 <= i <= |projects|
      invariant allocations == pushed + PrintEntries(SplitEntries(row, projects[..i], shares[..i], rule), scale)
    {
      assert projects[..i + 1][..i] == projects[..i] && shares[..i + 1][..i] == shares[..i];
      if shares[i] != 0 {
        PrintEntriesAppend(SplitEntries(row, projects[..i], shares[..i], rule),
                           [ScaledEntry(row.rowKey, projects[i], shares[i], rule)], scale);
        allocations := allocations + [Entry(row.rowKey, projects[i], Printed(shares[i], scale), rule)];
      } else {
        assert SplitEntries(row, projects[..i], shares[..i], rule) + []
               == SplitEntries(row, projects[..i], shares[..i], rule);
      }
      i := i + 1;
    }
    assert projects[..i] == projects && shares[..i] == shares;
  }

  /** One turn of the loop over rows: what the row allocates now and what it leaves unallocated. */
  method AllocateRow(row: Row, rule: Rule, scale: nat, pushed: seq<Entry>, before: int)
    returns (allocations: seq<Entry>, unallocated: int)
    ensures allocations == pushed + PrintEntries(RowEntries(row, rule, scale), scale)
    ensures unallocated == before + RowUnallocated(row, rule, scale)
  {
    allocations, unallocated := pushed, before;
    var amount := Units(row, scale);
    if row.kind == Direct {
      if row.projectId.None? { unallocated := unallocated + amount; }
      return;
    }
    if row.kind == Unattributed {
      unallocated := unallocated + amount;
      return;
    }
    if rule == KeyedTag {
      if row.projectId.None? {
        unallocated := unallocated + amount;
        return;
      }
      allocations := allocations + [Entry(row.rowKey, row.projectId.value, Printed(amount, scale), rule)];
      return;
    }
    if rule == EvenSplit {
      var targets := Targets(row);
      if |targets| == 0 {
        unallocated := unallocated + amount;
        return;
      }
      var shares := DistributeByWeight(amount, Ones(|targets|));
      allocations := PushShares(row, targets, shares, rule, scale, allocations);
      return;
    }
    unallocated := unallocated + amount;
  }

  lemma DirectStep(rows: seq<Row>, i: nat, scale: nat)
    requires i < |rows|
    ensures DirectProjects(rows[..i + 1])
            == DirectProjects(rows[..i]) + if Evidenced(rows[i]) then [rows[i].projectId.value] else []
    ensures forall p :: DirectOf(rows[..i + 1], p, scale) ==
              DirectOf(rows[..i], p, scale)
              + if Evidenced(rows[i]) && rows[i].projectId.value == p then Units(rows[i], scale) else 0
  {
    assert rows[..i + 1][..i] == rows[..i];
  }

  /** The map from project to direct cost, its keys in insertion order. */
  method DirectByProject(rows: seq<Row>, scale: nat) returns (keys: seq<string>, cost: map<string, int>)
    ensures keys == FirstSeen(DirectProjects(rows))
    ensures forall p :: p in cost <==> p in keys
    ensures forall p :: p in cost ==> cost[p] == DirectOf(rows, p, scale)
  {
    hide DirectProjects, DirectOf, Units, FirstSeen;
    keys, cost := [], map[];
    var i := 0;
    NothingDirect(scale);
    assert rows[..0] == [];
    while i < |rows|
      invariant 0 <= i <= |rows|
      invariant keys == FirstSeen(DirectProjects(rows[..i]))
      invariant forall p :: p in cost <==> p in keys
      invariant forall p :: DirectOf(rows[..i], p, scale) == if p in cost then cost[p] else 0
    {
      var row := rows[i];
      DirectStep(rows, i, scale);
      if Evidenced(row) {
        var p := row.projectId.value;
        FirstSeenStep(DirectProjects(rows[..i]), p);
        if p !in cost {
          keys := keys + [p];
        }
        cost := cost[p := (if p in cost then cost[p] else 0) + Units(row, scale)];
      } else {
        assert DirectProjects(rows[..i]) + [] == DirectProjects(rows[..i]);
      }
      i := i + 1;
    }
    assert rows[..i] == rows;
  }

  lemma NothingDirect(scale: nat)
    ensures DirectProjects([]) == [] && FirstSeen(DirectProjects([])) == []
    ensures forall p :: DirectOf([], p, scale) == 0
  {
  }

  lemma ProportionalStep(rows: seq<Row>, i: nat, projects: seq<string>, weights: seq<int>, scale: nat)
    requires i < |rows| && |projects| == |weights|
    ensures ProportionalEntries(rows[..i + 1], projects, weights, scale)
            == ProportionalEntries(rows[..i], projects, weights, scale)
               + if rows[i].kind == Shared
                 then SplitEntries(rows[i], projects, Distribute(Units(rows[i], scale), weights), ProportionalToAttributed)
                 else []
  {
    assert rows[..i + 1][..i] == rows[..i];
  }

  method SplitShared(rows: seq<Row>, projects: seq<string>, weights: seq<int>, scale: nat, pushed: seq<Entry>)
    returns (allocations: seq<Entry>)
    requires |projects| == |weights|
    ensures allocations == pushed + PrintEntries(ProportionalEntries(rows, projects, weights, scale), scale)
  {
    hide PrintEntries, SplitEntries, Distribute, Units;
    allocations := pushed;
    var i := 0;
    assert rows[..0] == [] && pushed + [] == pushed;
    while i < |rows|
      invariant 0 <= i <= |rows|
      invariant allocations == pushed + PrintEntries(ProportionalEntries(rows[..i], projects, weights, scale), scale)
    {
      ProportionalStep(rows, i, projects, weights, scale);
      var before := ProportionalEntries(rows[..i], projects, weights, scale);
      if rows[i].kind == Shared {
        var shares := DistributeByWeight(Units(rows[i], scale), weights);
        allocations := PushShares(rows[i], projects, shares, ProportionalToAttributed, scale, allocations);
        PrintEntriesAppend(before, SplitEntries(rows[i], projects, shares, ProportionalToAttributed), scale);
      } else {
        assert before + [] == before;
      }
      i := i + 1;
    }
    assert rows[..i] == rows;
  }

  lemma NoSharedNoSplit(rows: seq<Row>, projects: seq<string>, weights: seq<int>, scale: nat)
    requires |projects| == |weights|
    requires forall i :: 0 <= i < |rows| ==> rows[i].kind != Shared
    ensures ProportionalEntries(rows, projects, weights, scale) == []
    ensures SharedTotal(rows, scale) == 0
  {
  }

  lemma StagedStep(rows: seq<Row>, i: nat, rule: Rule, scale: nat)
    requires i < |rows|
    ensures StagedEntries(rows[..i + 1], rule, scale)
            == StagedEntries(rows[..i], rule, scale) + RowEntries(rows[i], rule, scale)
    ensures StagedUnallocated(rows[..i + 1], rule, scale)
            == StagedUnallocated(rows[..i], rule, scale) + RowUnallocated(rows[i], rule, scale)
  {
    assert rows[..i + 1][..i] == rows[..i];
  }

  /** The loop over rows. */
  method StageRows(rows: seq<Row>, rule: Rule, scale: nat)
    returns (readable: bool, allocations: seq<Entry>, unallocated: int)
    ensures readable <==> Readable(rows, scale)
    ensures readable ==> allocations == PrintEntries(StagedEntries(rows, rule, scale), scale)
    ensures readable ==> unallocated == StagedUnallocated(rows, rule, scale)
  {
    hide PrintEntries, RowEntries, RowUnallocated, ToScaled;
    readable, allocations, unallocated := true, [], 0;
    var i := 0;
    assert rows[..0] == [];
    while i < |rows|
      invariant 0 <= i <= |rows|
      invariant forall k :: 0 <= k < i ==> ToScaled(rows[k].amount, scale).Some?
      invariant allocations == PrintEntries(StagedEntries(rows[..i], rule, scale), scale)
      invariant unallocated == StagedUnallocated(rows[..i], rule, scale)
    {
      if ToScaled(rows[i].amount, scale).None? {
        readable := false;
        return;
      }
      StagedStep(rows, i, rule, scale);
      PrintEntriesAppend(StagedEntries(rows[..i], rule, scale), RowEntries(rows[i], rule, scale), scale);
      allocations, unallocated := AllocateRow(rows[i], rule, scale, allocations, unallocated);
      i := i + 1;
    }
    assert rows[..i] == rows;
  }

  /** The second phase of the proportional rule. */
  method AllocateStaged(rows: seq<Row>, scale: nat, pushed: seq<Entry>, before: int)
    returns (allocations: seq<Entry>, unallocated: int)
    ensures Splits(rows, ProportionalToAttributed, scale) ==>
              allocations == pushed + PrintEntries(ProportionalEntries(rows, Projects(rows), Base(rows, scale), scale), scale)
              && unallocated == before - SharedTotal(rows, scale)
    ensures !Splits(rows, ProportionalToAttributed, scale) ==> allocations == pushed && unallocated == before
  {
    hide DirectProjects, DirectOf, FirstSeen, Sort, SharedTotal, ProportionalEntries, Sum;
    allocations, unallocated := pushed, before;
    var keys, cost := DirectByProject(rows, scale);
    var projects := Projects(rows);
    SortedKeys(keys, cost);
    var weights := seq(|projects|, k requires 0 <= k < |projects| => if projects[k] in cost then cost[projects[k]] else 0);
    assert weights == Base(rows, scale);
    var shared := exists k :: 0 <= k < |rows| && rows[k].kind == Shared;
    if !shared {
      NoSharedNoSplit(rows, projects, weights, scale);
      assert pushed + [] == pushed;
    }
    if shared && Sum(weights) != 0 {
      allocations := SplitShared(rows, projects, weights, scale, allocations);
      unallocated := unallocated - SharedTotal(rows, scale);
    }
  }

  method AllocateSharedCost(currency: string, rows: seq<Row>, rule: Rule) returns (r: Result<Allocated, Refusal>)
    ensures r == Outcome(currency, rows, rule)
  {
    hide StagedEntries, StagedUnallocated, ProportionalEntries, SharedTotal, Report, PrintEntries, Readable, Splits;
    if MixesCurrencies(currency, rows) {
      return Err(MixedCurrencies);
    }
    var scale := UnionScale(rows);
    var readable, allocations, unallocated := StageRows(rows, rule, scale);
    if !readable {
      return Err(NotADecimal);
    }
    var staged := StagedEntries(rows, rule, scale);
    assert staged + [] == staged;
    SplitsOnlyProportionally(rows, rule, scale);
    if rule == ProportionalToAttributed {
      PrintEntriesAppend(staged, ProportionalEntries(rows, Projects(rows), Base(rows, scale), scale), scale);
      allocations, unallocated := AllocateStaged(rows, scale, allocations, unallocated);
    }
    r := Ok(Report(rows, allocations, unallocated, scale));
  }

  lemma SplitsOnlyProportionally(rows: seq<Row>, rule: Rule, scale: nat)
    ensures Splits(rows, rule, scale) ==> rule == ProportionalToAttributed
  {
  }

  lemma SortedKeys(keys: seq<string>, cost: map<string, int>)
    requires forall p :: p in cost <==> p in keys
    ensures forall k :: 0 <= k < |Sort(keys, TextLeq)| ==> Sort(keys, TextLeq)[k] in cost
  {
    TextOrder();
    var sorted := Sort(keys, TextLeq);
    SortCorrect(keys, TextLeq);
    forall k | 0 <= k < |sorted|
      ensures sorted[k] in cost
    {
      assert sorted[k] in multiset(sorted);
      assert sorted[k] in multiset(keys);
    }
  }
}
