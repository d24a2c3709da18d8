/**
 Who is charged what by src/attribution/allocation.ts: the entries of every row, stated without the way they are
 computed. A split row charges each project its exact share to within one unit, rounded by largest remainder.
 */
module AllocationFairness {
  import opened Basics
  import opened Digits
  import opened Sequences
  import opened ScaledMoney
  import opened LargestRemainder
  import opened Allocation
  import opened AllocationLaws

  // ----------------------------------------------------------- what is fair

  /** The units charged to a project. */
  function Charge(entries: seq<ScaledEntry>, project: string): int {
    if entries == [] then 0
    else
      var e := entries[|entries| - 1];
      Charge(entries[..|entries| - 1], project) + if e.projectId == project then e.units else 0
  }

  predicate Precedes(a: string, b: string) { a != b && TextLeq(a, b) }

  /** Non-zero entries of one row, at most one for each project, in project order. */
  predicate Lists(entries: seq<ScaledEntry>, row: Row, projects: set<string>, rule: Rule) {
    && (forall i :: 0 <= i < |entries| ==>
          entries[i].rowKey == row.rowKey && entries[i].rule == rule && entries[i].projectId in projects
          && entries[i].units != 0)
    && (forall i, j :: 0 <= i < j < |entries| ==> Precedes(entries[i].projectId, entries[j].projectId))
  }

  /** The charge of a project, times the weight sum, is its exact share to within one unit. */
  predicate Within(entries: seq<ScaledEntry>, amount: int, p: string, weight: int, weightSum: int) {
    Abs(Charge(entries, p) * weightSum - amount * weight) < weightSum
  }

  /** The same for a negative weight sum, to within two units. */
  predicate Near(entries: seq<ScaledEntry>, amount: int, p: string, weight: int, weightSum: int) {
    Abs(Charge(entries, p) * weightSum - amount * weight) < 2 * Abs(weightSum)
  }

  /** `p` is overcharged by at most a unit more than `q`, and by a whole unit only if it comes earlier. */
  predicate Balanced(entries: seq<ScaledEntry>, amount: int, p: string, q: string, x: int, y: int, weightSum: int) {
    var over := Excess(Charge(entries, p), amount, x, weightSum) - Excess(Charge(entries, q), amount, y, weightSum);
    over <= weightSum && (over == weightSum ==> Precedes(p, q))
  }

  /** The entries split an amount over projects in proportion to their weights. */
  ghost predicate Divides(entries: seq<ScaledEntry>, amount: int, projects: set<string>, weight: string -> int,
                          weightSum: int)
  {
    && (forall p :: p in projects ==> Within(entries, amount, p, weight(p), weightSum))
    && (forall p, q :: p in projects && q in projects && weight(p) >= 0 && weight(q) >= 0 ==>
          Balanced(entries, amount, p, q, weight(p), weight(q), weightSum))
    && ((forall p :: p in projects ==> weight(p) >= 0) ==> EntryTotal(entries) == amount)
  }

  /** The projects a shared row asks to be split over. */
  function Sharers(row: Row): set<string> {
    if row.targets.None? then {} else set p | p in row.targets.value
  }

  /** The projects with direct cost, and what they cost directly. */
  function Bearers(rows: seq<Row>): set<string> {
    set i | 0 <= i < |rows| && rows[i].kind == Direct && rows[i].projectId.Some? :: rows[i].projectId.value
  }

  function Borne(rows: seq<Row>, project: string, scale: nat): int {
    if rows == [] then 0
    else
      var row := rows[|rows| - 1];
      Borne(rows[..|rows| - 1], project, scale)
      + if row.kind == Direct && row.projectId == Some(project) then Units(row, scale) else 0
  }

  /** What all of them cost directly. */
  function BorneByAll(rows: seq<Row>, scale: nat): int {
    if rows == [] then 0
    else
      var row := rows[|rows| - 1];
      BorneByAll(rows[..|rows| - 1], scale)
      + if row.kind == Direct && row.projectId != None then Units(row, scale) else 0
  }

  /** What one row of a slice is to be charged under a rule. */
  ghost predicate FairRow(rows: seq<Row>, row: Row, entries: seq<ScaledEntry>, rule: Rule, scale: nat) {
    var amount := Units(row, scale);
    if row.kind != Shared then entries == []
    else
      match rule
      case KeyedTag =>
        (match row.projectId
         case None => entries == []
         case Some(p) => entries == [ScaledEntry(row.rowKey, p, amount, KeyedTag)])
      case EvenSplit =>
        && Lists(entries, row, Sharers(row), EvenSplit)
        && (Sharers(row) != {} ==> Divides(entries, amount, Sharers(row), _ => 1, |Sharers(row)|))
      case ProportionalToAttributed =>
        var base := BorneByAll(rows, scale);
        && Lists(entries, row, Bearers(rows), ProportionalToAttributed)
        && (base == 0 ==> entries == [])
        && (base > 0 ==> Divides(entries, amount, Bearers(rows), p => Borne(rows, p, scale), base))
        && (base < 0 ==> forall p :: p in Bearers(rows) ==> Near(entries, amount, p, Borne(rows, p, scale), base))
  }

  /** The entries are those of the first `n` rows one after the other, each row's fair. */
  ghost predicate Fair(rows: seq<Row>, n: nat, entries: seq<ScaledEntry>, rule: Rule, scale: nat)
    requires n <= |rows|
  {
    if n == 0 then entries == []
    else
      exists k :: 0 <= k <= |entries| && Fair(rows, n - 1, entries[..k], rule, scale)
                  && FairRow(rows, rows[n - 1], entries[k..], rule, scale)
  }

  // ------------------------------------------------------- entries of a split

  lemma ChargeSnoc(entries: seq<ScaledEntry>, e: ScaledEntry, p: string)
    ensures Charge(entries + [e], p) == Charge(entries, p) + if e.projectId == p then e.units else 0
  {
    assert (entries + [e])[..|entries|] == entries;
  }

  lemma SplitChargeStep(row: Row, projects: seq<string>, parts: seq<int>, rule: Rule, p: string)
    requires |projects| == |parts| && projects != []
    ensures var n := |projects| - 1;
            Charge(SplitEntries(row, projects, parts, rule), p)
            == Charge(SplitEntries(row, projects[..n], parts[..n], rule), p) + if projects[n] == p then parts[n] else 0
  {
    hide Charge;
    var n := |projects| - 1;
    var front := SplitEntries(row, projects[..n], parts[..n], rule);
    ChargeSnoc(front, ScaledEntry(row.rowKey, projects[n], parts[n], rule), p);
    assert front + [] == front;
  }

  lemma {:induction false} OthersUncharged(row: Row, projects: seq<string>, parts: seq<int>, rule: Rule, p: string)
    requires |projects| == |parts| && p !in projects
    ensures Charge(SplitEntries(row, projects, parts, rule), p) == 0
  {
    hide Charge, SplitEntries;
    if projects == [] {
      NoCharge(row, parts, rule, p);
    } else {
      var n := |projects| - 1;
      OthersUncharged(row, projects[..n], parts[..n], rule, p);
      SplitChargeStep(row, projects, parts, rule, p);
    }
  }

  lemma {:induction false} SplitCharges(row: Row, projects: seq<string>, parts: seq<int>, rule: Rule, k: nat)
    requires |projects| == |parts| && Distinct(projects) && k < |projects|
    ensures Charge(SplitEntries(row, projects, parts, rule), projects[k]) == parts[k]
  {
    hide Charge, SplitEntries;
    var n := |projects| - 1;
    SplitChargeStep(row, projects, parts, rule, projects[k]);
    if k == n {
      OthersUncharged(row, projects[..n], parts[..n], rule, projects[n]);
    } else {
      SplitCharges(row, projects[..n], parts[..n], rule, k);
    }
  }

  lemma NoCharge(row: Row, parts: seq<int>, rule: Rule, p: string)
    requires |parts| == 0
    ensures Charge(SplitEntries(row, [], parts, rule), p) == 0
  {
  }

  predicate Ordered(projects: seq<string>) {
    forall i, j :: 0 <= i < j < |projects| ==> Precedes(projects[i], projects[j])
  }

  lemma ListsMore(front: seq<ScaledEntry>, e: ScaledEntry, row: Row, names: set<string>, rule: Rule)
    requires Lists(front, row, names, rule)
    requires e.rowKey == row.rowKey && e.rule == rule && e.projectId in names && e.units != 0
    requires forall i :: 0 <= i < |front| ==> Precedes(front[i].projectId, e.projectId)
    ensures Lists(front + [e], row, names, rule)
  {
    hide Precedes;
  }

  lemma SplitMore(front: seq<ScaledEntry>, row: Row, projects: seq<string>, part: int, rule: Rule, names: set<string>)
    requires projects != [] && Ordered(projects) && Lists(front, row, names, rule)
    requires projects[|projects| - 1] in names
    requires forall i :: 0 <= i < |front| ==> front[i].projectId in projects[..|projects| - 1]
    ensures part != 0 ==>
              Lists(front + [ScaledEntry(row.rowKey, projects[|projects| - 1], part, rule)], row, names, rule)
  {
    hide Precedes, Lists;
    var n := |projects| - 1;
    forall i | 0 <= i < |front|
      ensures Precedes(front[i].projectId, projects[n])
    {
      var earlier := projects[..n];
      assert front[i].projectId in earlier;
      var k :| 0 <= k < |earlier| && earlier[k] == front[i].projectId;
      OrderedIndex(projects, k, n);
    }
    if part != 0 {
      ListsMore(front, ScaledEntry(row.rowKey, projects[n], part, rule), row, names, rule);
    }
  }

  lemma {:induction false} SplitLists(row: Row, projects: seq<string>, parts: seq<int>, rule: Rule, names: set<string>)
    requires |projects| == |parts| && Ordered(projects)
    requires forall i :: 0 <= i < |projects| ==> projects[i] in names
    ensures var e := SplitEntries(row, projects, parts, rule);
            Lists(e, row, names, rule) && forall i :: 0 <= i < |e| ==> e[i].projectId in projects
  {
    if projects == [] {
      NothingSplit(row, rule, parts);
    } else {
      hide Precedes, Lists;
      var n := |projects| - 1;
      assert projects == projects[..n] + [projects[n]];
      OrderedPrefix(projects);
      SplitLists(row, projects[..n], parts[..n], rule, names);
      SplitMore(SplitEntries(row, projects[..n], parts[..n], rule), row, projects, parts[n], rule, names);
    }
  }

  lemma OrderedPrefix(projects: seq<string>)
    requires Ordered(projects) && projects != []
    ensures Ordered(projects[..|projects| - 1])
  {
    hide Precedes;
  }

  /** A listing of names in order, each once. */
  ghost predicate ListsNames(projects: seq<string>, names: set<string>) {
    Ordered(projects) && forall p :: p in projects <==> p in names
  }

  lemma SortedNames(names: seq<string>, all: set<string>)
    requires forall p :: p in all <==> p in names
    ensures ListsNames(Sort(FirstSeen(names), TextLeq), all)
  {
    hide Sort, FirstSeen, TextLeq;
    var seen, sorted := FirstSeen(names), Sort(FirstSeen(names), TextLeq);
    TextOrder();
    SortCorrect(seen, TextLeq);
    PermutationDistinct(seen, sorted);
    forall p
      ensures p in sorted <==> p in names
    {
      assert (p in sorted <==> p in multiset(sorted)) && (p in seen <==> p in multiset(seen));
    }
  }

  lemma {:induction false} SizeOfNames(projects: seq<string>, names: set<string>)
    requires Distinct(projects) && forall p :: p in projects <==> p in names
    ensures |names| == |projects|
  {
    if projects != [] {
      var n := |projects| - 1;
      assert projects == projects[..n] + [projects[n]];
      assert projects[n] !in projects[..n];
      SizeOfNames(projects[..n], names - {projects[n]});
    }
  }

  lemma OrderedIsDistinct(projects: seq<string>)
    requires Ordered(projects)
    ensures Distinct(projects)
  {
  }

  lemma OrderedIndex(projects: seq<string>, i: nat, j: nat)
    requires Ordered(projects) && i < j < |projects|
    ensures Precedes(projects[i], projects[j])
  {
  }

  /** The largest-remainder split of an amount over ordered projects divides it in proportion. */
  lemma SplitDivides(row: Row, projects: seq<string>, weights: seq<int>, rule: Rule, amount: int, names: set<string>,
                     weight: string -> int)
    requires |projects| == |weights| && ListsNames(projects, names) && Sum(weights) > 0
    requires forall i :: 0 <= i < |projects| ==> weights[i] == weight(projects[i])
    ensures var e := SplitEntries(row, projects, Distribute(amount, weights), rule);
            Lists(e, row, names, rule) && Divides(e, amount, names, weight, Sum(weights))
  {
    hide Distribute, Sum, SplitEntries, Lists, Charge, Ordered, Precedes, EntryTotal, Excess;
    var parts := Distribute(amount, weights);
    var e := SplitEntries(row, projects, parts, rule);
    OrderedIsDistinct(projects);
    SplitLists(row, projects, parts, rule, names);
    forall p | p in names
      ensures Within(e, amount, p, weight(p), Sum(weights))
    {
      var i :| 0 <= i < |projects| && projects[i] == p;
      SplitCharges(row, projects, parts, rule, i);
      WithinOneUnit(amount, weights, i);
    }
    forall p, q | p in names && q in names && weight(p) >= 0 && weight(q) >= 0
      ensures Balanced(e, amount, p, q, weight(p), weight(q), Sum(weights))
    {
      var i :| 0 <= i < |projects| && projects[i] == p;
      var j :| 0 <= j < |projects| && projects[j] == q;
      SplitCharges(row, projects, parts, rule, i);
      SplitCharges(row, projects, parts, rule, j);
      RoundsTheLargestRemaindersUp(amount, weights, i, j);
      if i < j { OrderedIndex(projects, i, j); }
    }
    if forall p :: p in names ==> weight(p) >= 0 {
      SplitEntriesTotal(row, projects, parts, rule);
      SplitIsExact(amount, weights);
    }
  }

  // ----------------------------------------------------------- the three rules

  lemma EvenRowIsFair(rows: seq<Row>, row: Row, scale: nat)
    requires row.kind == Shared
    ensures FairRow(rows, row, RowEntries(row, EvenSplit, scale), EvenSplit, scale)
  {
    hide Units, Distribute, Divides, Sort, FirstSeen, Lists, SplitEntries;
    var targets := Targets(row);
    if row.targets.Some? {
      SortedNames(row.targets.value, Sharers(row));
    }
    OrderedIsDistinct(targets);
    SizeOfNames(targets, Sharers(row));
    SumOfOnes(|targets|);
    if targets == [] {
      NothingSplit(row, EvenSplit, Distribute(Units(row, scale), Ones(0)));
    } else {
      SplitDivides(row, targets, Ones(|targets|), EvenSplit, Units(row, scale), Sharers(row), _ => 1);
    }
  }

  lemma NothingSplit(row: Row, rule: Rule, parts: seq<int>)
    requires |parts| == 0
    ensures SplitEntries(row, [], parts, rule) == [] && forall names, r :: Lists([], row, names, r)
  {
  }

  lemma {:induction false} BorneIs(rows: seq<Row>, p: string, scale: nat)
    ensures DirectOf(rows, p, scale) == Borne(rows, p, scale)
    ensures DirectAttributed(rows, scale) == BorneByAll(rows, scale)
    ensures p in DirectProjects(rows) <==> p in Bearers(rows)
  {
    hide Units;
    if rows != [] {
      var n := |rows| - 1;
      BorneIs(rows[..n], p, scale);
      assert forall i :: 0 <= i < n ==> rows[..n][i] == rows[i];
      if p in Bearers(rows) {
        var i :| 0 <= i < |rows| && rows[i].kind == Direct && rows[i].projectId == Some(p);
        assert i == n || rows[..n][i].projectId == Some(p);
      }
      if p in Bearers(rows[..n]) {
        var i :| 0 <= i < n && rows[..n][i].kind == Direct && rows[..n][i].projectId == Some(p);
        assert rows[i].projectId == Some(p);
      }
    }
  }

  lemma ProportionalRowIsFair(rows: seq<Row>, row: Row, scale: nat)
    requires row.kind == Shared
    ensures BorneByAll(rows, scale) == Sum(Base(rows, scale))
    ensures FairRow(rows, row,
                    if Sum(Base(rows, scale)) != 0
                    then SplitEntries(row, Projects(rows), Distribute(Units(row, scale), Base(rows, scale)),
                                      ProportionalToAttributed)
                    else [],
                    ProportionalToAttributed, scale)
  {
    hide Units, Distribute, Divides, Sort, FirstSeen, Lists, SplitEntries, Sum, DirectOf, Borne, BorneByAll, Bearers;
    hide DirectProjects, DirectAttributed;
    var projects, weights := Projects(rows), Base(rows, scale);
    BaseIsTheAttributedCost(rows, scale);
    forall p: string
      ensures DirectOf(rows, p, scale) == Borne(rows, p, scale) && (p in Bearers(rows) <==> p in DirectProjects(rows))
      ensures DirectAttributed(rows, scale) == BorneByAll(rows, scale)
    {
      BorneIs(rows, p, scale);
    }
    assert DirectAttributed(rows, scale) == BorneByAll(rows, scale) by { BorneIs(rows, "", scale); }
    SortedNames(DirectProjects(rows), Bearers(rows));
    NothingSplit(row, ProportionalToAttributed, []);
    if Sum(weights) > 0 {
      SplitDivides(row, projects, weights, ProportionalToAttributed, Units(row, scale), Bearers(rows),
                   p => Borne(rows, p, scale));
    } else if Sum(weights) < 0 {
      var parts := Distribute(Units(row, scale), weights);
      SplitLists(row, projects, parts, ProportionalToAttributed, Bearers(rows));
      OrderedIsDistinct(projects);
      forall p | p in Bearers(rows)
        ensures Near(SplitEntries(row, projects, parts, ProportionalToAttributed), Units(row, scale), p,
                     Borne(rows, p, scale), Sum(weights))
      {
        var i :| 0 <= i < |projects| && projects[i] == p;
        SplitCharges(row, projects, parts, ProportionalToAttributed, i);
        WithinTwoUnits(Units(row, scale), weights, i);
      }
    }
  }

  /** The entries of one row under a rule, wherever the program makes them. */
  function EntriesOf(rows: seq<Row>, row: Row, rule: Rule, scale: nat): seq<ScaledEntry> {
    if row.kind == Shared && Splits(rows, rule, scale)
    then SplitEntries(row, Projects(rows), Distribute(Units(row, scale), Base(rows, scale)), ProportionalToAttributed)
    else RowEntries(row, rule, scale)
  }

  lemma RowIsFair(rows: seq<Row>, row: Row, rule: Rule, scale: nat)
    ensures FairRow(rows, row, EntriesOf(rows, row, rule, scale), rule, scale)
  {
    hide Units, Distribute, Divides, Base, Projects, Lists, SplitEntries, Sum, BorneByAll, Bearers;
    if row.kind == Shared {
      match rule {
        case EvenSplit => EvenRowIsFair(rows, row, scale);
        case ProportionalToAttributed => ProportionalRowIsFair(rows, row, scale);
        case KeyedTag =>
      }
    }
  }

  lemma {:induction false} NothingStaged(rows: seq<Row>, scale: nat)
    ensures StagedEntries(rows, ProportionalToAttributed, scale) == []
  {
    if rows != [] {
      NothingStaged(rows[..|rows| - 1], scale);
    }
  }

  /** The entries of the first `n` rows, in either way they are made. */
  function FirstEntries(rows: seq<Row>, n: nat, rule: Rule, scale: nat): seq<ScaledEntry>
    requires n <= |rows|
  {
    if Splits(rows, rule, scale) then ProportionalEntries(rows[..n], Projects(rows), Base(rows, scale), scale)
    else StagedEntries(rows[..n], rule, scale)
  }

  lemma FirstEntriesStep(rows: seq<Row>, n: nat, rule: Rule, scale: nat)
    requires n < |rows|
    ensures FirstEntries(rows, n + 1, rule, scale)
            == FirstEntries(rows, n, rule, scale) + EntriesOf(rows, rows[n], rule, scale)
  {
    hide Units, Distribute, Base, Projects, SplitEntries, Sum;
    assert rows[..n + 1][..n] == rows[..n];
  }

  lemma {:induction false} PrefixIsFair(rows: seq<Row>, n: nat, rule: Rule, scale: nat)
    requires n <= |rows|
    ensures Fair(rows, n, FirstEntries(rows, n, rule, scale), rule, scale)
    decreases n
  {
    hide FirstEntries, FairRow, EntriesOf;
    if n == 0 {
      NoEntries(rows, rule, scale);
    } else {
      PrefixIsFair(rows, n - 1, rule, scale);
      FirstEntriesStep(rows, n - 1, rule, scale);
      RowIsFair(rows, rows[n - 1], rule, scale);
      var before, here := FirstEntries(rows, n - 1, rule, scale), EntriesOf(rows, rows[n - 1], rule, scale);
      assert (before + here)[..|before|] == before && (before + here)[|before|..] == here;
    }
  }

  lemma NoEntries(rows: seq<Row>, rule: Rule, scale: nat)
    ensures FirstEntries(rows, 0, rule, scale) == []
  {
    assert rows[..0] == [];
  }

  /**
   Every rule charges every row fairly. The keyed tag charges the tagged project the amount; the even split charges
   each distinct target an equal share; the proportional rule charges each project by its direct cost.
   */
  lemma EveryRowIsFair(rows: seq<Row>, rule: Rule, scale: nat)
    ensures Fair(rows, |rows|, Entries(rows, rule, scale), rule, scale)
  {
    hide ProportionalEntries, StagedEntries, Base, Projects, Sum, Fair;
    PrefixIsFair(rows, |rows|, rule, scale);
    assert rows[..|rows|] == rows;
    var entries := FirstEntries(rows, |rows|, rule, scale);
    assert [] + entries == entries && entries + [] == entries;
    if Splits(rows, rule, scale) {
      NothingStaged(rows, scale);
    }
  }

  /** An even split leaves no target with two units more than another, and no later one with more than an earlier. */
  lemma EvenSharesAreEven(row: Row, scale: nat, p: string, q: string)
    requires row.kind == Shared && p in Sharers(row) && q in Sharers(row) && TextLeq(p, q)
    ensures var e := RowEntries(row, EvenSplit, scale);
            Abs(Charge(e, q)) <= Abs(Charge(e, p)) <= Abs(Charge(e, q)) + 1
  {
    hide Units, RowEntries, Charge, TextLeq, Lists, EntryTotal;
    var e, n := RowEntries(row, EvenSplit, scale), |Sharers(row)|;
    EvenRowIsFair([], row, scale);
    assert Balanced(e, Units(row, scale), p, q, 1, 1, n) && Balanced(e, Units(row, scale), q, p, 1, 1, n);
    TextLeqTotal(p, q);
    DifferBy(Abs(Charge(e, p)), Abs(Charge(e, q)), n);
  }

  lemma DifferBy(x: int, y: int, n: nat)
    requires n > 0 && x * n - y * n <= n && y * n - x * n < n
    ensures y <= x <= y + 1
  {
    Distributes(x, -y, n);
    NegatedProduct(y, n);
    if x < y {
      MulMonotone(x + 1, y, n);
    } else if x > y + 1 {
      MulMonotone(y + 2, x, n);
    }
  }

  // ------------------------------------------------------------- the outcome

  /** An optional minus, digits, and optionally a point and digits; whatever follows a second point is ignored. */
  predicate Spelled(amount: string, negative: bool, whole: string, frac: string, tail: string) {
    && amount == (if negative then "-" else "") + (whole + tail) && AllDigits(whole) && AllDigits(frac)
    && if tail == "" then frac == ""
       else tail[0] == '.' && |frac| < |tail| && tail[1..|frac| + 1] == frac
            && (|frac| + 1 < |tail| ==> tail[|frac| + 1] == '.')
  }

  ghost predicate Numeric(amount: string) {
    exists negative, whole, frac, tail :: Spelled(amount, negative, whole, frac, tail)
  }

  lemma ReadWhenDigits(amount: string, scale: nat)
    ensures ToScaled(amount, scale).Some? <==> AllDigits(WholePart(Body(amount))) && AllDigits(FracPart(Body(amount)))
  {
    hide Body, FracPart, WholePart, Parse, Before;
    var whole, frac := WholePart(Body(amount)), FracPart(Body(amount));
    var shown := if whole == "" then "0" else whole;
    assert AllDigits(shown + PadEnd(frac, scale)) <==> AllDigits(shown) && AllDigits(PadEnd(frac, scale)) by {
      DigitsConcat(shown, PadEnd(frac, scale));
    }
    DigitsConcat(frac, Zeros(if |frac| < scale then scale - |frac| else 0));
  }

  lemma DigitsConcat(a: string, b: string)
    ensures AllDigits(a + b) <==> AllDigits(a) && AllDigits(b)
  {
    if AllDigits(a + b) {
      assert forall i :: 0 <= i < |a| ==> a[i] == (a + b)[i];
      assert forall i :: 0 <= i < |b| ==> b[i] == (a + b)[|a| + i];
    }
  }

  lemma SpelledIsRead(amount: string, negative: bool, whole: string, frac: string, tail: string)
    requires Spelled(amount, negative, whole, frac, tail)
    ensures WholePart(Body(amount)) == whole && FracPart(Body(amount)) == frac
  {
    hide Before, AllDigits;
    var body := whole + tail;
    assert Body(amount) == body by { SignStripped(negative, whole, tail); }
    DigitsWithout(whole, '.');
    BeforeUnique(whole, '.', tail);
    if tail != "" {
      var rest := tail[|frac| + 1..];
      assert body[|whole| + 1..] == frac + rest;
      DigitsWithout(frac, '.');
      BeforeUnique(frac, '.', rest);
    }
  }

  lemma SignStripped(negative: bool, whole: string, tail: string)
    requires AllDigits(whole) && (tail == "" || tail[0] == '.')
    ensures Body((if negative then "-" else "") + (whole + tail)) == whole + tail
  {
    var body := whole + tail;
    assert "" + body == body && ("-" + body)[1..] == body;
    assert body != "" ==> body[0] != '-';
  }

  /** An amount is read exactly when it is spelled as a number. */
  lemma NumericMeans(amount: string, scale: nat)
    ensures ToScaled(amount, scale).Some? <==> Numeric(amount)
  {
    hide ToScaled, Spelled, Body, WholePart, FracPart;
    ReadWhenDigits(amount, scale);
    if negative, whole, frac, tail :| Spelled(amount, negative, whole, frac, tail) {
      SpelledIsRead(amount, negative, whole, frac, tail);
      SpelledHasDigits(amount, negative, whole, frac, tail);
    }
    if AllDigits(WholePart(Body(amount))) && AllDigits(FracPart(Body(amount))) {
      SpelledOut(amount);
    }
  }

  lemma SpelledHasDigits(amount: string, negative: bool, whole: string, frac: string, tail: string)
    requires Spelled(amount, negative, whole, frac, tail)
    ensures AllDigits(whole) && AllDigits(frac)
  {
  }

  lemma SpelledOut(amount: string)
    requires AllDigits(WholePart(Body(amount))) && AllDigits(FracPart(Body(amount)))
    ensures Numeric(amount)
  {
    hide AllDigits, WholePart, FracPart, Body;
    var body, negative := Body(amount), amount != "" && amount[0] == '-';
    SignPutBack(amount);
    BodySplits(body);
    assert Spelled(amount, negative, WholePart(body), FracPart(body), body[|WholePart(body)|..]);
  }

  lemma SignPutBack(amount: string)
    ensures amount == (if amount != "" && amount[0] == '-' then "-" else "") + Body(amount)
  {
  }

  /** A body is its whole part, and from the first point its fraction up to the second. */
  lemma BodySplits(body: string)
    ensures |WholePart(body)| <= |body| && body == WholePart(body) + body[|WholePart(body)|..]
    ensures var tail, frac := body[|WholePart(body)|..], FracPart(body);
            if tail == "" then frac == ""
            else tail[0] == '.' && |frac| < |tail| && tail[1..|frac| + 1] == frac
                 && (|frac| + 1 < |tail| ==> tail[|frac| + 1] == '.')
  {
    hide Before, Without;
    var tail := body[|WholePart(body)|..];
    if tail != "" {
      var rest := tail[1..];
      assert rest == body[|WholePart(body)| + 1..];
      assert rest[..|FracPart(body)|] == tail[1..|FracPart(body)| + 1];
    }
  }

  /** The scale is the largest of the amounts, and zero without any. */
  predicate LargestScale(rows: seq<Row>, scale: nat) {
    && (forall i :: 0 <= i < |rows| ==> Scaling(rows[i].amount) <= scale)
    && (scale == 0 || exists i :: 0 <= i < |rows| && Scaling(rows[i].amount) == scale)
  }

  lemma {:induction false} ScaleIsLargest(rows: seq<Row>)
    ensures LargestScale(rows, UnionScale(rows))
  {
    hide Scaling;
    if rows != [] {
      var n := |rows| - 1;
      var before := UnionScale(rows[..n]);
      ScaleIsLargest(rows[..n]);
      assert forall i :: 0 <= i < n ==> rows[..n][i] == rows[i];
      if before != 0 {
        var i :| 0 <= i < n && Scaling(rows[..n][i].amount) == before;
        assert Scaling(rows[i].amount) == before;
      }
    }
  }

  /** The allocations are the printed entries. */
  predicate Shows(allocations: seq<Entry>, entries: seq<ScaledEntry>, scale: nat) {
    && |allocations| == |entries|
    && forall i :: 0 <= i < |entries| ==>
         allocations[i]
         == Entry(entries[i].rowKey, entries[i].projectId, Printed(entries[i].units, scale), entries[i].rule)
  }

  /**
   A slice is refused for a foreign currency first and for an amount that is no number next, and for nothing else;
   otherwise it is charged fairly at the largest scale of its amounts.
   */
  lemma OutcomeMeans(currency: string, rows: seq<Row>, rule: Rule)
    ensures match Outcome(currency, rows, rule)
            case Err(MixedCurrencies) => exists i :: 0 <= i < |rows| && rows[i].currency != currency
            case Err(NotADecimal) =>
              && (forall i :: 0 <= i < |rows| ==> rows[i].currency == currency)
              && (exists i :: 0 <= i < |rows| && !Numeric(rows[i].amount))
            case Ok(done) =>
              && (forall i :: 0 <= i < |rows| ==> rows[i].currency == currency && Numeric(rows[i].amount))
              && exists entries, scale: nat ::
                   LargestScale(rows, scale) && Fair(rows, |rows|, entries, rule, scale)
                   && Shows(done.allocations, entries, scale)
  {
    hide ToScaled, Entries, Unallocated, Fair, LargestScale, UnionScale, Numeric, Attributed, Total, Printed, Permille;
    var scale := UnionScale(rows);
    forall i | 0 <= i < |rows|
      ensures ToScaled(rows[i].amount, scale).Some? <==> Numeric(rows[i].amount)
    {
      NumericMeans(rows[i].amount, scale);
    }
    ScaleIsLargest(rows);
    EveryRowIsFair(rows, rule, scale);
    if Outcome(currency, rows, rule).Ok? {
      assert Shows(Outcome(currency, rows, rule).value.allocations, Entries(rows, rule, scale), scale);
    }
  }
}
