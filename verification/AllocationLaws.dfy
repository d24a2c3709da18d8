/** What the allocation keeps: control totals before and after printing, and the coverage figure. */
module AllocationLaws {
  import opened Basics
  import opened Sequences
  import opened ScaledMoney
  import opened LargestRemainder
  import opened Allocation

  // ------------------------------------------------------------- exact totals

  lemma {:induction false} SplitEntriesTotal(row: Row, projects: seq<string>, parts: seq<int>, rule: Rule)
    requires |projects| == |parts|
    ensures EntryTotal(SplitEntries(row, projects, parts, rule)) == Sum(parts)
  {
    if projects != [] {
      var n := |projects| - 1;
      SplitEntriesTotal(row, projects[..n], parts[..n], rule);
      var last := if parts[n] != 0 then [ScaledEntry(row.rowKey, projects[n], parts[n], rule)] else [];
      EntryTotalAppend(SplitEntries(row, projects[..n], parts[..n], rule), last);
      assert |last| == 1 ==> last[..0] == [];
    }
  }

  lemma {:induction false} SumOfOnes(n: nat)
    ensures Sum(Ones(n)) == n
  {
    if n != 0 {
      assert Ones(n)[..n - 1] == Ones(n - 1);
      SumOfOnes(n - 1);
    }
  }

  /** Every row is accounted for once: evidenced, allocated or unallocated. */
  lemma RowConserves(row: Row, rule: Rule, scale: nat)
    ensures EntryTotal(RowEntries(row, rule, scale)) + RowUnallocated(row, rule, scale)
            + (if Evidenced(row) then Units(row, scale) else 0) == Units(row, scale)
  {
    hide Units, Distribute, Targets, Sum;
    if row.kind == Shared && rule == EvenSplit {
      var targets := Targets(row);
      SplitEntriesTotal(row, targets, Distribute(Units(row, scale), Ones(|targets|)), rule);
      SumOfOnes(|targets|);
      if |targets| > 0 {
        SplitIsExact(Units(row, scale), Ones(|targets|));
      } else {
        assert RowEntries(row, rule, scale) == [];
      }
    } else if row.kind == Shared && rule == KeyedTag && row.projectId.Some? {
      var e := RowEntries(row, rule, scale);
      assert |e| == 1 && e[..0] == [];
    }
  }

  lemma {:induction false} StagingConserves(rows: seq<Row>, rule: Rule, scale: nat)
    ensures DirectAttributed(rows, scale) + EntryTotal(StagedEntries(rows, rule, scale))
            + StagedUnallocated(rows, rule, scale) == Total(rows, scale)
  {
    if rows != [] {
      var n := |rows| - 1;
      StagingConserves(rows[..n], rule, scale);
      RowConserves(rows[n], rule, scale);
      EntryTotalAppend(StagedEntries(rows[..n], rule, scale), RowEntries(rows[n], rule, scale));
    }
  }

  /** By how much the splits of the shared rows miss their amounts, added up. */
  function ImbalanceSum(rows: seq<Row>, weights: seq<int>, scale: nat): int
    requires Sum(weights) != 0
  {
    if rows == [] then 0
    else
      var row := rows[|rows| - 1];
      ImbalanceSum(rows[..|rows| - 1], weights, scale)
      + if row.kind == Shared then Imbalance(Units(row, scale), weights) else 0
  }

  lemma {:induction false} ProportionalTotal(rows: seq<Row>, projects: seq<string>, weights: seq<int>, scale: nat)
    requires |projects| == |weights| && Sum(weights) != 0
    ensures EntryTotal(ProportionalEntries(rows, projects, weights, scale))
            == SharedTotal(rows, scale) + ImbalanceSum(rows, weights, scale)
  {
    hide Distribute, Units, Sum, SplitEntries, Imbalance;
    if rows != [] {
      var n := |rows| - 1;
      var before := ProportionalEntries(rows[..n], projects, weights, scale);
      ProportionalTotal(rows[..n], projects, weights, scale);
      if rows[n].kind == Shared {
        var parts := Distribute(Units(rows[n], scale), weights);
        var here := SplitEntries(rows[n], projects, parts, ProportionalToAttributed);
        SplitEntriesTotal(rows[n], projects, parts, ProportionalToAttributed);
        SplitMissesBy(Units(rows[n], scale), weights);
        EntryTotalAppend(before, here);
      } else {
        assert before + [] == before;
      }
    }
  }

  /** Attributed direct cost, allocated entries and unallocated cost add up to the control total. */
  predicate Conserves(rows: seq<Row>, rule: Rule, scale: nat) {
    DirectAttributed(rows, scale) + EntryTotal(Entries(rows, rule, scale)) + Unallocated(rows, rule, scale)
    == Total(rows, scale)
  }

  /** What a rule adds to the control total of a slice: the imbalance of its staged splits, if it makes any. */
  function Gap(rows: seq<Row>, rule: Rule, scale: nat): int {
    if Splits(rows, rule, scale) then ImbalanceSum(rows, Base(rows, scale), scale) else 0
  }

  /** For every slice and rule the three parts exceed the control total by exactly the gap. */
  lemma ControlTotalGap(rows: seq<Row>, rule: Rule, scale: nat)
    ensures DirectAttributed(rows, scale) + EntryTotal(Entries(rows, rule, scale)) + Unallocated(rows, rule, scale)
            == Total(rows, scale) + Gap(rows, rule, scale)
  {
    hide Base, ImbalanceSum, ProportionalEntries, StagedEntries, SharedTotal, Total, DirectAttributed, Projects;
    StagingConserves(rows, rule, scale);
    var staged := StagedEntries(rows, rule, scale);
    if Splits(rows, rule, scale) {
      var split := ProportionalEntries(rows, Projects(rows), Base(rows, scale), scale);
      ProportionalTotal(rows, Projects(rows), Base(rows, scale), scale);
      EntryTotalAppend(staged, split);
    } else {
      assert staged + [] == staged;
    }
  }

  /** The even split and the keyed tag keep the control total of every slice. */
  lemma TaggedAndEvenRulesConserve(rows: seq<Row>, rule: Rule, scale: nat)
    requires rule != ProportionalToAttributed
    ensures Conserves(rows, rule, scale)
  {
    ControlTotalGap(rows, rule, scale);
  }

  predicate SharedRowsBalance(rows: seq<Row>, weights: seq<int>, scale: nat) {
    forall i :: 0 <= i < |rows| && rows[i].kind == Shared ==> KeepsTotal(Units(rows[i], scale), weights)
  }

  /** No shared row's split misses on the other side than another's. */
  predicate OneSided(rows: seq<Row>, weights: seq<int>, scale: nat)
    requires Sum(weights) != 0
  {
    || (forall i :: 0 <= i < |rows| && rows[i].kind == Shared ==> Imbalance(Units(rows[i], scale), weights) >= 0)
    || (forall i :: 0 <= i < |rows| && rows[i].kind == Shared ==> Imbalance(Units(rows[i], scale), weights) <= 0)
  }

  lemma {:induction false} BalancedRows(rows: seq<Row>, weights: seq<int>, scale: nat)
    requires Sum(weights) != 0
    ensures SharedRowsBalance(rows, weights, scale) ==> ImbalanceSum(rows, weights, scale) == 0
    ensures (forall i :: 0 <= i < |rows| && rows[i].kind == Shared ==> Imbalance(Units(rows[i], scale), weights) >= 0) ==>
              ImbalanceSum(rows, weights, scale) >= 0
              && (ImbalanceSum(rows, weights, scale) == 0 ==> SharedRowsBalance(rows, weights, scale))
    ensures (forall i :: 0 <= i < |rows| && rows[i].kind == Shared ==> Imbalance(Units(rows[i], scale), weights) <= 0) ==>
              ImbalanceSum(rows, weights, scale) <= 0
              && (ImbalanceSum(rows, weights, scale) == 0 ==> SharedRowsBalance(rows, weights, scale))
  {
    hide Units, Sum, Imbalance, KeepsTotal;
    if rows != [] {
      var n := |rows| - 1;
      BalancedRows(rows[..n], weights, scale);
      assert forall i :: 0 <= i < n ==> rows[..n][i] == rows[i];
      if rows[n].kind == Shared {
        SplitMissesBy(Units(rows[n], scale), weights);
      }
    }
  }

  lemma NonNegativeBaseKeepsTotals(weights: seq<int>, total: int)
    requires Sum(weights) != 0
    requires forall i :: 0 <= i < |weights| ==> weights[i] >= 0
    ensures KeepsTotal(total, weights)
  {
    SumNonNegative(weights);
    SplitIsExact(total, weights);
    SplitKeepsTotalExactlyWhen(total, weights);
  }

  /** The proportional rule keeps the control total of every slice whose projects all have a
      non-negative direct total. */
  lemma ProportionalRuleConserves(rows: seq<Row>, scale: nat)
    requires forall k :: 0 <= k < |Base(rows, scale)| ==> Base(rows, scale)[k] >= 0
    ensures Conserves(rows, ProportionalToAttributed, scale)
  {
    hide Base, Units, KeepsTotal, ImbalanceSum;
    var base := Base(rows, scale);
    ControlTotalGap(rows, ProportionalToAttributed, scale);
    if Sum(base) != 0 {
      forall i | 0 <= i < |rows| && rows[i].kind == Shared
        ensures KeepsTotal(Units(rows[i], scale), base)
      {
        NonNegativeBaseKeepsTotals(base, Units(rows[i], scale));
      }
      BalancedRows(rows, base, scale);
    }
  }

  /** For every slice: the proportional rule keeps the control total exactly when the base is zero or the imbalances
      of the shared rows cancel; unless they point both ways, that is when every shared row passes its guards. */
  lemma ProportionalRuleConservesExactlyWhen(rows: seq<Row>, scale: nat)
    ensures var base := Base(rows, scale);
            && (Conserves(rows, ProportionalToAttributed, scale) <==>
                (Sum(base) != 0 ==> ImbalanceSum(rows, base, scale) == 0))
            && (Sum(base) != 0 && OneSided(rows, base, scale) ==>
                  (Conserves(rows, ProportionalToAttributed, scale) <==> SharedRowsBalance(rows, base, scale)))
  {
    hide Base, Units, Imbalance, KeepsTotal;
    var base := Base(rows, scale);
    ControlTotalGap(rows, ProportionalToAttributed, scale);
    if Sum(base) != 0 {
      BalancedRows(rows, base, scale);
    }
  }

  // ------------------------------------------- the base is the attributed cost

  lemma WithoutOne(rows: seq<Row>, b: seq<string>, i: nat, scale: nat)
    requires i < |b|
    ensures Sum(Weights(rows, b, scale))
            == Sum(Weights(rows, b[..i] + b[i + 1..], scale)) + DirectOf(rows, b[i], scale)
  {
    hide DirectOf;
    var front, back := Weights(rows, b[..i], scale), Weights(rows, b[i + 1..], scale);
    var one := [DirectOf(rows, b[i], scale)];
    assert Weights(rows, b, scale) == (front + one) + back;
    assert Weights(rows, b[..i] + b[i + 1..], scale) == front + back;
    SumAppend(front + one, back);
    SumAppend(front, one);
    SumAppend(front, back);
    SumSingleton(one[0]);
  }

  lemma {:induction false} WeightsPermute(rows: seq<Row>, a: seq<string>, b: seq<string>, scale: nat)
    requires multiset(a) == multiset(b)
    ensures Sum(Weights(rows, a, scale)) == Sum(Weights(rows, b, scale))
  {
    hide DirectOf, Weights, Sum;
    assert |a| == |multiset(a)| && |b| == |multiset(b)|;
    if a == [] {
      assert a == b;
    } else {
      var n := |a| - 1;
      InitMultiset(a);
      var i := RemoveOne(b, a[n]);
      WeightsPermute(rows, a[..n], b[..i] + b[i + 1..], scale);
      WithoutOne(rows, b, i, scale);
      WithoutOne(rows, a, n, scale);
      assert a[..n] + a[n + 1..] == a[..n];
    }
  }

  lemma {:induction false} UnlistedProjectHasNoCost(rows: seq<Row>, p: string, scale: nat)
    requires p !in DirectProjects(rows)
    ensures DirectOf(rows, p, scale) == 0
  {
    if rows != [] {
      UnlistedProjectHasNoCost(rows[..|rows| - 1], p, scale);
    }
  }

  lemma {:induction false} OneWeightGrows(before: seq<Row>, rows: seq<Row>, projects: seq<string>,
                                          p: string, units: int, scale: nat)
    requires Distinct(projects)
    requires forall q :: DirectOf(rows, q, scale) == DirectOf(before, q, scale) + if q == p then units else 0
    ensures Sum(Weights(rows, projects, scale))
            == Sum(Weights(before, projects, scale)) + if p in projects then units else 0
  {
    hide DirectOf;
    if projects != [] {
      var n := |projects| - 1;
      assert projects == projects[..n] + [projects[n]];
      OneWeightGrows(before, rows, projects[..n], p, units, scale);
      assert Weights(rows, projects, scale)[..n] == Weights(rows, projects[..n], scale);
      assert Weights(before, projects, scale)[..n] == Weights(before, projects[..n], scale);
      if projects[n] == p {
        assert p !in projects[..n];
      }
    }
  }

  lemma SameWeights(before: seq<Row>, rows: seq<Row>, projects: seq<string>, scale: nat)
    requires forall q :: DirectOf(rows, q, scale) == DirectOf(before, q, scale)
    ensures Weights(rows, projects, scale) == Weights(before, projects, scale)
  {
    hide DirectOf;
  }

  /** One more row for project `p`: its weight grows, or it is appended. */
  lemma EvidencedRowWeights(before: seq<Row>, rows: seq<Row>, p: string, units: int, scale: nat)
    requires forall q :: DirectOf(rows, q, scale) == DirectOf(before, q, scale) + if q == p then units else 0
    requires DirectProjects(rows) == DirectProjects(before) + [p]
    ensures Sum(Weights(rows, FirstSeen(DirectProjects(rows)), scale))
            == Sum(Weights(before, FirstSeen(DirectProjects(before)), scale)) + units
  {
    hide DirectOf, DirectProjects, FirstSeen;
    var seen := DirectProjects(before);
    var projects := FirstSeen(seen);
    FirstSeenStep(seen, p);
    OneWeightGrows(before, rows, projects, p, units, scale);
    if p !in seen {
      UnlistedProjectHasNoCost(before, p, scale);
      assert Weights(rows, projects + [p], scale)[..|projects|] == Weights(rows, projects, scale);
    }
  }

  lemma {:induction false} FirstSeenWeights(rows: seq<Row>, scale: nat)
    ensures Sum(Weights(rows, FirstSeen(DirectProjects(rows)), scale)) == DirectAttributed(rows, scale)
  {
    hide DirectOf, DirectProjects, FirstSeen, Weights, Units;
    if rows == [] {
      NothingDirect(scale);
      assert Weights(rows, [], scale) == [];
    } else {
      var n := |rows| - 1;
      FirstSeenWeights(rows[..n], scale);
      assert rows[..n + 1] == rows;
      DirectStep(rows, n, scale);
      if Evidenced(rows[n]) {
        EvidencedRowWeights(rows[..n], rows, rows[n].projectId.value, Units(rows[n], scale), scale);
      } else {
        assert DirectProjects(rows[..n]) + [] == DirectProjects(rows[..n]);
        SameWeights(rows[..n], rows, FirstSeen(DirectProjects(rows)), scale);
      }
    }
  }

  /** The denominator of the proportional rule is the cost already attributed to projects. */
  lemma BaseIsTheAttributedCost(rows: seq<Row>, scale: nat)
    ensures Sum(Base(rows, scale)) == DirectAttributed(rows, scale)
  {
    hide DirectProjects, DirectAttributed, Weights;
    FirstSeenWeights(rows, scale);
    TextOrder();
    SortCorrect(FirstSeen(DirectProjects(rows)), TextLeq);
    WeightsPermute(rows, Projects(rows), FirstSeen(DirectProjects(rows)), scale);
  }

  // --------------------------------------------------------- after printing

  predicate PrintsFaithfully(entries: seq<ScaledEntry>, scale: nat) {
    forall i :: 0 <= i < |entries| ==> Faithful(entries[i].units, scale)
  }

  predicate NonNegativeEntries(entries: seq<ScaledEntry>) {
    forall i :: 0 <= i < |entries| ==> entries[i].units >= 0
  }

  /** By how much the printed entries are off together. */
  function MisprintSum(entries: seq<ScaledEntry>, scale: nat): int {
    if entries == [] then 0
    else MisprintSum(entries[..|entries| - 1], scale) + Misprint(entries[|entries| - 1].units, scale)
  }

  lemma {:induction false} PrintedEntryTotal(entries: seq<ScaledEntry>, scale: nat)
    ensures ReadTotal(PrintEntries(entries, scale), scale) == EntryTotal(entries) + MisprintSum(entries, scale)
    ensures PrintsFaithfully(entries, scale) ==> MisprintSum(entries, scale) == 0
    ensures NonNegativeEntries(entries) ==>
              MisprintSum(entries, scale) >= 0
              && (MisprintSum(entries, scale) == 0 ==> PrintsFaithfully(entries, scale))
    ensures scale <= 2 ==> PrintsFaithfully(entries, scale)
  {
    hide Faithful, Misprint, ToScaled, Printed;
    if entries != [] {
      var n := |entries| - 1;
      PrintedEntryTotal(entries[..n], scale);
      MisprintIsTheError(entries[n].units, scale);
      assert PrintEntries(entries, scale)[..n] == PrintEntries(entries[..n], scale);
      assert forall i :: 0 <= i < n ==> entries[..n][i] == entries[i];
    }
  }

  function ReadAmount(text: string, scale: nat): int {
    match ToScaled(text, scale)
    case Some(x) => x
    case None => 0
  }

  /** The promise on the returned strings: carried direct cost, allocations and unallocated cost add up. */
  predicate PrintedConserves(rows: seq<Row>, outcome: Allocated, scale: nat) {
    DirectAttributed(rows, scale) + ReadTotal(outcome.allocations, scale) + ReadAmount(outcome.unallocated, scale)
    == Total(rows, scale)
  }

  predicate AllFaithful(amounts: seq<int>, scale: nat) {
    forall i :: 0 <= i < |amounts| ==> Faithful(amounts[i], scale)
  }

  lemma AllThree(a: int, b: int, c: int, scale: nat)
    ensures AllFaithful([a, b, c], scale) ==> Faithful(a, scale) && Faithful(b, scale) && Faithful(c, scale)
  {
    hide Faithful;
    var amounts := [a, b, c];
    assert amounts[0] == a && amounts[1] == b && amounts[2] == c;
  }

  /** The promise on the coverage strings: attributed plus unallocated is the total. */
  predicate CoverageAddsUp(a: Allocated, scale: nat) {
    ReadAmount(a.coverage.attributedAmount, scale) + ReadAmount(a.unallocated, scale)
    == ReadAmount(a.coverage.totalAmount, scale)
  }

  lemma ReadPrinted(v: int, scale: nat)
    ensures ReadAmount(Printed(v, scale), scale) == v + Misprint(v, scale)
    ensures Misprint(v, scale) == 0 <==> Faithful(v, scale)
  {
    hide ToScaled, Printed, Misprint, Faithful;
    MisprintIsTheError(v, scale);
  }

  /**
   For every slice: the coverage strings add up, attributed plus unallocated being the total, exactly when the
   misprints of the entries, of the attributed and of the unallocated amount and the gap of the rule make up
   that of the total. When all these amounts print faithfully, that is when the rule conserves.
   */
  lemma PrintedCoverageExactlyWhen(currency: string, rows: seq<Row>, rule: Rule)
    requires Outcome(currency, rows, rule).Ok?
    ensures var a, scale := Outcome(currency, rows, rule).value, UnionScale(rows);
            var entries, unallocated := Entries(rows, rule, scale), Unallocated(rows, rule, scale);
            var total := Total(rows, scale);
            var used := DirectAttributed(rows, scale) + EntryTotal(entries) + MisprintSum(entries, scale);
            var addsUp := CoverageAddsUp(a, scale);
            && (addsUp <==>
                MisprintSum(entries, scale) + Misprint(used, scale) + Misprint(unallocated, scale) + Gap(rows, rule, scale)
                == Misprint(total, scale))
            && (PrintsFaithfully(entries, scale) && AllFaithful([used, unallocated, total], scale) ==>
                  (addsUp <==> Conserves(rows, rule, scale)))
  {
    hide Entries, Unallocated, DirectAttributed, Total, Printed, ToScaled, Faithful, Misprint, Gap, ReadAmount;
    hide UnionScale, MixesCurrencies;
    var scale := UnionScale(rows);
    var entries := Entries(rows, rule, scale);
    PrintedEntryTotal(entries, scale);
    ControlTotalGap(rows, rule, scale);
    ReadPrinted(Attributed(rows, PrintEntries(entries, scale), scale), scale);
    ReadPrinted(Unallocated(rows, rule, scale), scale);
    ReadPrinted(Total(rows, scale), scale);
    AllThree(Attributed(rows, PrintEntries(entries, scale), scale), Unallocated(rows, rule, scale), Total(rows, scale), scale);
  }

  /** Up to two decimals the returned strings keep the control total, and the printed coverage adds up, exactly
      when the rule conserves. */
  lemma CentsAreConserved(currency: string, rows: seq<Row>, rule: Rule)
    requires Outcome(currency, rows, rule).Ok? && UnionScale(rows) <= 2
    ensures var a, scale := Outcome(currency, rows, rule).value, UnionScale(rows);
            && (PrintedConserves(rows, a, scale) <==> Conserves(rows, rule, scale))
            && (CoverageAddsUp(a, scale) <==> Conserves(rows, rule, scale))
  {
    hide Outcome, Entries, Unallocated, DirectAttributed, Total, Printed, ToScaled, Faithful, Misprint, Gap;
    hide UnionScale, PrintedConserves, Conserves, CoverageAddsUp;
    var scale := UnionScale(rows);
    PrintedTotalsExactlyWhen(currency, rows, rule);
    PrintedCoverageExactlyWhen(currency, rows, rule);
    PrintedEntryTotal(Entries(rows, rule, scale), scale);
    forall v: int
      ensures Faithful(v, scale)
    {
      MisprintIsTheError(v, scale);
    }
  }

  // ------------------------------------ amounts that are not negative stay so

  lemma PartsNonNegative(total: nat, weights: seq<int>, i: nat)
    requires i < |weights|
    requires forall k :: 0 <= k < |weights| ==> weights[k] >= 0
    ensures Distribute(total, weights)[i] >= 0
  {
    hide Sum;
    if Sum(weights) != 0 {
      SumNonNegative(weights);
      assert Sum(weights) > 0;
      var bump := ShareOf(total, weights, i);
      Products(total, 0, weights[i]);
      TruncDivLaw(total * weights[i], Sum(weights));
    }
  }

  lemma {:induction false} SplitEntriesNonNegative(row: Row, projects: seq<string>, parts: seq<int>, rule: Rule)
    requires |projects| == |parts| && forall i :: 0 <= i < |parts| ==> parts[i] >= 0
    ensures NonNegativeEntries(SplitEntries(row, projects, parts, rule))
  {
    if projects != [] {
      var n := |projects| - 1;
      SplitEntriesNonNegative(row, projects[..n], parts[..n], rule);
    }
  }

  lemma RowEntriesNonNegative(row: Row, rule: Rule, scale: nat)
    requires Units(row, scale) >= 0
    ensures NonNegativeEntries(RowEntries(row, rule, scale)) && RowUnallocated(row, rule, scale) >= 0
  {
    hide Units, Distribute, Targets;
    if row.kind == Shared && rule == EvenSplit {
      var ones := Ones(|Targets(row)|);
      var parts := Distribute(Units(row, scale), ones);
      forall i | 0 <= i < |parts|
        ensures parts[i] >= 0
      {
        PartsNonNegative(Units(row, scale), ones, i);
      }
      SplitEntriesNonNegative(row, Targets(row), parts, rule);
    }
  }

  lemma {:induction false} StagedNonNegative(rows: seq<Row>, rule: Rule, scale: nat)
    requires forall i :: 0 <= i < |rows| ==> Units(rows[i], scale) >= 0
    ensures NonNegativeEntries(StagedEntries(rows, rule, scale))
    ensures StagedUnallocated(rows, rule, scale) >= 0
    ensures rule == ProportionalToAttributed ==> StagedUnallocated(rows, rule, scale) >= SharedTotal(rows, scale)
  {
    hide Units, RowEntries;
    if rows != [] {
      StagedNonNegative(rows[..|rows| - 1], rule, scale);
      RowEntriesNonNegative(rows[|rows| - 1], rule, scale);
    }
  }

  lemma {:induction false} ProportionalNonNegative(rows: seq<Row>, projects: seq<string>, weights: seq<int>, scale: nat)
    requires |projects| == |weights|
    requires forall i :: 0 <= i < |rows| ==> Units(rows[i], scale) >= 0
    requires forall i :: 0 <= i < |weights| ==> weights[i] >= 0
    ensures NonNegativeEntries(ProportionalEntries(rows, projects, weights, scale))
  {
    hide Units, Distribute;
    if rows != [] {
      var n := |rows| - 1;
      ProportionalNonNegative(rows[..n], projects, weights, scale);
      if rows[n].kind == Shared {
        var parts := Distribute(Units(rows[n], scale), weights);
        forall i | 0 <= i < |parts|
          ensures parts[i] >= 0
        {
          PartsNonNegative(Units(rows[n], scale), weights, i);
        }
        SplitEntriesNonNegative(rows[n], projects, parts, ProportionalToAttributed);
      }
    }
  }

  lemma {:induction false} DirectNonNegative(rows: seq<Row>, p: string, scale: nat)
    requires forall i :: 0 <= i < |rows| ==> Units(rows[i], scale) >= 0
    ensures DirectOf(rows, p, scale) >= 0
  {
    hide Units;
    if rows != [] {
      DirectNonNegative(rows[..|rows| - 1], p, scale);
    }
  }

  lemma BaseNonNegative(rows: seq<Row>, scale: nat)
    requires forall i :: 0 <= i < |rows| ==> Units(rows[i], scale) >= 0
    ensures forall k :: 0 <= k < |Base(rows, scale)| ==> Base(rows, scale)[k] >= 0
  {
    hide Units, DirectOf, Projects;
    forall k | 0 <= k < |Base(rows, scale)|
      ensures Base(rows, scale)[k] >= 0
    {
      DirectNonNegative(rows, Projects(rows)[k], scale);
    }
  }

  lemma EntriesNonNegative(rows: seq<Row>, rule: Rule, scale: nat)
    requires forall i :: 0 <= i < |rows| ==> Units(rows[i], scale) >= 0
    ensures NonNegativeEntries(Entries(rows, rule, scale)) && Unallocated(rows, rule, scale) >= 0
    ensures Conserves(rows, rule, scale)
  {
    hide Base, StagedEntries, ProportionalEntries, StagedUnallocated, SharedTotal, Units, Conserves;
    StagedNonNegative(rows, rule, scale);
    BaseNonNegative(rows, scale);
    if Splits(rows, rule, scale) {
      ProportionalNonNegative(rows, Projects(rows), Base(rows, scale), scale);
    }
    if rule == ProportionalToAttributed {
      ProportionalRuleConserves(rows, scale);
    } else {
      TaggedAndEvenRulesConserve(rows, rule, scale);
    }
  }

  /**
   For every slice, at any scale: the returned strings keep the control total exactly when the misprints of the
   entries and of the unallocated amount and the gap of the rule cancel. Without negative amounts that is when
   every returned amount lies where the printer is faithful; and where all do, it is when the rule conserves.
   */
  lemma PrintedTotalsExactlyWhen(currency: string, rows: seq<Row>, rule: Rule)
    requires Outcome(currency, rows, rule).Ok?
    ensures var a, scale := Outcome(currency, rows, rule).value, UnionScale(rows);
            var entries, unallocated := Entries(rows, rule, scale), Unallocated(rows, rule, scale);
            var faithful := PrintsFaithfully(entries, scale) && Faithful(unallocated, scale);
            && (PrintedConserves(rows, a, scale) <==>
                MisprintSum(entries, scale) + Misprint(unallocated, scale) + Gap(rows, rule, scale) == 0)
            && ((forall i :: 0 <= i < |rows| ==> Units(rows[i], scale) >= 0) ==>
                  (PrintedConserves(rows, a, scale) <==> faithful))
            && (faithful ==> (PrintedConserves(rows, a, scale) <==> Conserves(rows, rule, scale)))
  {
    hide Entries, Unallocated, DirectAttributed, Total, Printed, ToScaled, Faithful, Misprint, Gap, ReadAmount;
    hide UnionScale, MixesCurrencies, Units, PrintsFaithfully, NonNegativeEntries;
    var scale := UnionScale(rows);
    var entries, unallocated := Entries(rows, rule, scale), Unallocated(rows, rule, scale);
    PrintedEntryTotal(entries, scale);
    ControlTotalGap(rows, rule, scale);
    ReadPrinted(unallocated, scale);
    MisprintIsTheError(unallocated, scale);
    if forall i :: 0 <= i < |rows| ==> Units(rows[i], scale) >= 0 {
      EntriesNonNegative(rows, rule, scale);
    }
  }

  // --------------------------------------------------- who may receive what

  /** Which projects a rule may charge for a shared row. */
  predicate MayReceive(rows: seq<Row>, row: Row, rule: Rule, project: string) {
    row.kind == Shared
    && match rule
       case KeyedTag => row.projectId == Some(project)
       case EvenSplit => row.targets.Some? && project in row.targets.value
       case ProportionalToAttributed => project in DirectProjects(rows)
  }

  predicate Grounded(rows: seq<Row>, e: ScaledEntry, rule: Rule) {
    && e.rule == rule
    && exists i :: 0 <= i < |rows| && rows[i].rowKey == e.rowKey && MayReceive(rows, rows[i], rule, e.projectId)
  }

  lemma {:induction false} SplitEntriesNamed(row: Row, projects: seq<string>, parts: seq<int>, rule: Rule)
    requires |projects| == |parts|
    ensures forall e :: e in SplitEntries(row, projects, parts, rule) ==>
              e.rowKey == row.rowKey && e.rule == rule && e.projectId in projects && e.units != 0
  {
    if projects != [] {
      var n := |projects| - 1;
      SplitEntriesNamed(row, projects[..n], parts[..n], rule);
      assert projects == projects[..n] + [projects[n]];
    }
  }

  lemma SortedMembers(names: seq<string>)
    ensures forall p :: p in Sort(FirstSeen(names), TextLeq) ==> p in names
  {
    hide FirstSeen, Sort;
    TextOrder();
    SortCorrect(FirstSeen(names), TextLeq);
    forall p | p in Sort(FirstSeen(names), TextLeq)
      ensures p in names
    {
      assert p in multiset(Sort(FirstSeen(names), TextLeq));
      assert p in FirstSeen(names);
    }
  }

  lemma RowEntriesGrounded(rows: seq<Row>, i: nat, rule: Rule, scale: nat)
    requires i < |rows|
    ensures forall e :: e in RowEntries(rows[i], rule, scale) ==> Grounded(rows, e, rule)
  {
    hide Units, Distribute, Sort, FirstSeen;
    var row := rows[i];
    if row.kind == Shared && rule == EvenSplit {
      var parts := Distribute(Units(row, scale), Ones(|Targets(row)|));
      SplitEntriesNamed(row, Targets(row), parts, rule);
      if row.targets.Some? {
        SortedMembers(row.targets.value);
      }
    }
  }

  lemma {:induction false} StagedGrounded(rows: seq<Row>, n: nat, rule: Rule, scale: nat)
    requires n <= |rows|
    ensures forall e :: e in StagedEntries(rows[..n], rule, scale) ==> Grounded(rows, e, rule)
  {
    hide Grounded, RowEntries;
    if n > 0 {
      StagedGrounded(rows, n - 1, rule, scale);
      StagedStep(rows, n - 1, rule, scale);
      RowEntriesGrounded(rows, n - 1, rule, scale);
    }
  }

  lemma {:induction false} ProportionalGrounded(rows: seq<Row>, n: nat, weights: seq<int>, scale: nat)
    requires n <= |rows| && |weights| == |Projects(rows)|
    ensures forall e :: e in ProportionalEntries(rows[..n], Projects(rows), weights, scale) ==>
              Grounded(rows, e, ProportionalToAttributed)
  {
    hide DirectProjects, Sort, FirstSeen, Distribute, Units, SplitEntries;
    if n > 0 {
      ProportionalGrounded(rows, n - 1, weights, scale);
      ProportionalStep(rows, n - 1, Projects(rows), weights, scale);
      var row := rows[n - 1];
      SplitEntriesNamed(row, Projects(rows), Distribute(Units(row, scale), weights), ProportionalToAttributed);
      SortedMembers(DirectProjects(rows));
    }
  }

  /** Every allocation charges a shared row to a project its rule may charge: the row's own tag, one of its
      targets, or a project with direct cost. */
  lemma AllocationsAreGrounded(rows: seq<Row>, rule: Rule, scale: nat)
    ensures forall e :: e in Entries(rows, rule, scale) ==> Grounded(rows, e, rule)
  {
    hide Grounded, Base, Projects, StagedEntries, ProportionalEntries;
    assert rows[..|rows|] == rows;
    StagedGrounded(rows, |rows|, rule, scale);
    ProportionalGrounded(rows, |rows|, Base(rows, scale), scale);
  }

  // ----------------------------------------------------------------- coverage

  lemma PermilleBounds(attributed: int, total: int)
    requires total != 0
    ensures var p := Permille(attributed, total).value;
            p * Abs(total) <= 1000 * Abs(attributed) < (p + 1) * Abs(total)
    ensures var share := if total > 0 then attributed else -attributed;
            Permille(attributed, total).value * Abs(total) <= 1000 * share <==> share >= 0
  {
    var n: int, d: int := Abs(attributed) * 1000, Abs(total);
    assert n == d * (n / d) + n % d;
    var p := Permille(attributed, total).value;
    assert p * d <= n < (p + 1) * d;
    var share := if total > 0 then attributed else -attributed;
    if share < 0 {
      assert p * d >= 0;
    }
  }

  /** What the slice attributes before anything is printed. */
  function TrueAttributed(rows: seq<Row>, rule: Rule, scale: nat): int {
    DirectAttributed(rows, scale) + EntryTotal(Entries(rows, rule, scale))
  }

  /** The attributed amount that is reported is the true one plus the misprints of the entries: without negative
      amounts the two agree exactly when every entry prints faithfully. */
  lemma ReportedAttributionExactlyWhen(currency: string, rows: seq<Row>, rule: Rule)
    requires Outcome(currency, rows, rule).Ok?
    ensures var a, scale := Outcome(currency, rows, rule).value, UnionScale(rows);
            var entries := Entries(rows, rule, scale);
            var used := DirectAttributed(rows, scale) + ReadTotal(a.allocations, scale);
            && used == TrueAttributed(rows, rule, scale) + MisprintSum(entries, scale)
            && (PrintsFaithfully(entries, scale) ==> used == TrueAttributed(rows, rule, scale))
            && ((forall i :: 0 <= i < |rows| ==> Units(rows[i], scale) >= 0) ==>
                  used >= TrueAttributed(rows, rule, scale)
                  && (used == TrueAttributed(rows, rule, scale) <==> PrintsFaithfully(entries, scale)))
  {
    hide Entries, Unallocated, DirectAttributed, Total, Printed, ToScaled, Faithful, Misprint, UnionScale, Units;
    hide MixesCurrencies, PrintsFaithfully, NonNegativeEntries;
    var scale := UnionScale(rows);
    PrintedEntryTotal(Entries(rows, rule, scale), scale);
    if forall i :: 0 <= i < |rows| ==> Units(rows[i], scale) >= 0 {
      EntriesNonNegative(rows, rule, scale);
    }
  }

  lemma PermilleOrder(reported: int, actual: int, total: int)
    requires total != 0
    ensures var p, share := Permille(reported, total).value, if total > 0 then actual else -actual;
            p * Abs(total) <= 1000 * share <==> share >= 0 && p <= Permille(actual, total).value
  {
    var p, q, d: int := Permille(reported, total).value, Permille(actual, total).value, Abs(total);
    PermilleBounds(actual, total);
    Steps(p, q, d);
    var share := if total > 0 then actual else -actual;
    if share < 0 {
      NotNegative(p, d);
    }
  }

  lemma Steps(p: int, q: int, d: int)
    requires d > 0
    ensures p <= q ==> p * d <= q * d
    ensures p > q ==> p * d >= (q + 1) * d
  {
    if p <= q {
      NotNegative(q - p, d);
      assert q * d == p * d + (q - p) * d;
    } else {
      NotNegative(p - q - 1, d);
      assert p * d == (q + 1) * d + (p - q - 1) * d;
    }
  }

  lemma NotNegative(k: int, d: int)
    requires k >= 0 && d >= 0
    ensures k * d >= 0
  {
  }

  /**
   Against the true attributed amount, for every slice: the coverage figure is absent exactly for a zero total, and
   it does not overstate exactly when attributed and total cost do not have opposite signs and the misprints do not
   lift the rounded share. When every entry prints faithfully it is the true share rounded down, overstated exactly
   for opposite signs.
   */
  lemma CoverageOverstatesExactlyWhen(currency: string, rows: seq<Row>, rule: Rule)
    requires Outcome(currency, rows, rule).Ok?
    ensures var a, scale := Outcome(currency, rows, rule).value, UnionScale(rows);
            var actual, total := TrueAttributed(rows, rule, scale), Total(rows, scale);
            var reported := actual + MisprintSum(Entries(rows, rule, scale), scale);
            && (a.coverage.attributedPermille.None? <==> total == 0)
            && (total != 0 ==>
                  var p, share := a.coverage.attributedPermille.value, if total > 0 then actual else -actual;
                  var figure := Abs(actual) * 1000 / Abs(total);
                  && (p * Abs(total) <= 1000 * share <==> share >= 0 && Abs(reported) * 1000 / Abs(total) <= figure)
                  && (PrintsFaithfully(Entries(rows, rule, scale), scale) ==>
                        p == figure
                        && p * Abs(total) <= 1000 * Abs(actual) < (p + 1) * Abs(total)
                        && (p * Abs(total) <= 1000 * share <==> share >= 0)))
  {
    hide Entries, Unallocated, DirectAttributed, EntryTotal, Total, Printed, ToScaled, UnionScale, MisprintSum;
    hide PrintsFaithfully, MixesCurrencies, ReadTotal, PrintEntries;
    var scale := UnionScale(rows);
    var actual, total := TrueAttributed(rows, rule, scale), Total(rows, scale);
    var reported := actual + MisprintSum(Entries(rows, rule, scale), scale);
    ReportedAttributionExactlyWhen(currency, rows, rule);
    FigureOf(currency, rows, rule, reported);
    PrintedEntryTotal(Entries(rows, rule, scale), scale);
    NoTotalNoFigure(reported, total);
    if total != 0 {
      PermilleOrder(reported, actual, total);
      PermilleBounds(actual, total);
    }
  }

  lemma FigureOf(currency: string, rows: seq<Row>, rule: Rule, reported: int)
    requires Outcome(currency, rows, rule).Ok?
    requires var a, scale := Outcome(currency, rows, rule).value, UnionScale(rows);
             reported == DirectAttributed(rows, scale) + ReadTotal(a.allocations, scale)
    ensures Outcome(currency, rows, rule).value.coverage.attributedPermille
            == Permille(reported, Total(rows, UnionScale(rows)))
  {
    hide Entries, Unallocated, DirectAttributed, Total, Printed, ToScaled, UnionScale, Permille, ReadTotal, MixesCurrencies;
  }

  lemma NoTotalNoFigure(attributed: int, total: int)
    ensures Permille(attributed, total).None? <==> total == 0
  {
  }
}
