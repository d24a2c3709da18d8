/**
 Slices on which the allocation of src/attribution/allocation.ts breaks its promises: control totals
 lost to negative direct totals, and coverage overstated by refunds and by misprinted entries.
 */
module AllocationCounterexamples {
  import opened Allocation
  import opened AllocationLaws
  import opened Basics
  import opened Digits
  import opened LargestRemainder
  import opened ScaledMoney
  import opened Sequences

  predicate RefundedSlice(rows: seq<Row>) {
    && |rows| == 2
    && rows[0].kind == Direct && rows[0].projectId == Some("a") && rows[0].amount == "1"
    && rows[1].kind == Unattributed && rows[1].amount == "-3"
  }

  /** One unit of charge against a net refund of two reads as half covered. */
  lemma OppositeSignsOverstate(currency: string, rows: seq<Row>, rule: Rule)
    requires RefundedSlice(rows) && Outcome(currency, rows, rule).Ok?
    ensures Outcome(currency, rows, rule).value.coverage.attributedPermille == Some(500)
    ensures Total(rows, UnionScale(rows)) == -2 && DirectAttributed(rows, UnionScale(rows)) == 1
  {
    hide ToScaled, Units, Scaling, SharedTotal, Printed, Base, Projects;
    WholeNumbers(rows);
    OneDigit(false, "1");
    OneDigit(true, "3");
    assert "" + "1" == "1" && "-" + "3" == "-3";
    UnitsOf(rows[0], 1);
    UnitsOf(rows[1], -3);
    var one := rows[..1];
    assert rows[..|rows| - 1] == one && one[..|one| - 1] == [];
    assert Total(one, 0) == 1 && DirectAttributed(one, 0) == 1;
    assert StagedEntries(one, rule, 0) == [] && StagedEntries(rows, rule, 0) == [];
    assert ProportionalEntries(one, Projects(rows), Base(rows, 0), 0) == [];
    assert Entries(rows, rule, 0) == [];
    assert ReadTotal(PrintEntries([], 0), 0) == 0;
  }

  lemma WholeNumbers(rows: seq<Row>)
    requires RefundedSlice(rows)
    ensures UnionScale(rows) == 0
  {
    var one := rows[..1];
    assert rows[..|rows| - 1] == one && one[..|one| - 1] == [];
    NoPoint("1");
    NoPoint("-3");
    assert UnionScale([]) == 0 && UnionScale(one) == 0;
  }

  lemma NoPoint(amount: string)
    requires Without(amount, '.')
    ensures Scaling(amount) == 0
  {
    BeforeUnique(amount, '.', "");
    assert amount + "" == amount;
  }

  /** A project whose direct total is negative breaks the proportional rule: one cent of shared cost
      over direct totals of 4, -1 and -1 cents is allocated twice. */
  lemma NegativeProjectBreaksTheTotal(rows: seq<Row>)
    requires BrokenSlice(rows)
    ensures !Conserves(rows, ProportionalToAttributed, 0)
  {
    hide Units, Distribute, ToScaled, Base, Imbalance, Entries, Unallocated, DirectAttributed, Total;
    OneDigit(false, "1");
    assert "" + "1" == "1";
    BrokenBase(rows);
    NegativeWeightOvershoots();
    var w := [4, -1, -1];
    assert w[..2] == [4, -1] && w[..2][..1] == [4] && [4][..0] == [];
    assert Sum(w[..2]) == 3 && Sum(w) == 2;
    NothingSharedNoImbalance(rows[..3], w, 0);
    assert Units(rows[3], 0) == 1 by { UnitsOf(rows[3], 1); }
    SplitMissesBy(1, w);
    ControlTotalGap(rows, ProportionalToAttributed, 0);
  }

  predicate BrokenSlice(rows: seq<Row>) {
    && |rows| == 4
    && rows[0].kind == Direct && rows[0].projectId == Some("a") && rows[0].amount == "4"
    && rows[1].kind == Direct && rows[1].projectId == Some("b") && rows[1].amount == "-1"
    && rows[2].kind == Direct && rows[2].projectId == Some("c") && rows[2].amount == "-1"
    && rows[3].kind == Shared && rows[3].amount == "1"
  }

  lemma UnitsOf(row: Row, v: int)
    requires ToScaled(row.amount, 0) == Some(v)
    ensures Units(row, 0) == v
  {
  }

  lemma OneDigit(negative: bool, digit: string)
    requires |digit| == 1 && AllDigits(digit)
    ensures ToScaled((if negative then "-" else "") + digit, 0) == Some(Signed(negative, DigitValue(digit[0])))
  {
    hide ToScaled;
    var d := Decimal(negative, digit, false, "");
    ReadsTheDecimal(d, 0);
    UnitScale(Unscaled(d));
    assert digit + "" == digit && digit[..|digit| - 1] == "";
    assert Parse(digit) == DigitValue(digit[0]);
    assert Text(d) == (if negative then "-" else "") + digit;
  }

  lemma BrokenBase(rows: seq<Row>)
    requires BrokenSlice(rows)
    ensures Base(rows, 0) == [4, -1, -1]
  {
    hide DirectOf, ToScaled, Units, DirectProjects, Sort, FirstSeen;
    assert rows[..4] == rows && rows[..0] == [];
    NothingDirect(0);
    DirectStep(rows, 0, 0);
    DirectStep(rows, 1, 0);
    DirectStep(rows, 2, 0);
    DirectStep(rows, 3, 0);
    assert DirectProjects(rows) == ["a", "b", "c"];
    SmallSort();
    assert Projects(rows) == ["a", "b", "c"];
    FourDirectTotals(rows);
  }

  lemma SmallSort()
    ensures Sort(FirstSeen(["a", "b", "c"]), TextLeq) == ["a", "b", "c"]
  {
    hide FirstSeen;
    SmallSet();
    assert Sort(["c"], TextLeq) == ["c"] by { assert ["c"][1..] == []; }
    assert Sort(["b", "c"], TextLeq) == ["b", "c"] by { assert ["b", "c"][1..] == ["c"]; }
    assert ["a", "b", "c"][1..] == ["b", "c"];
  }

  lemma SmallSet()
    ensures FirstSeen(["a", "b", "c"]) == ["a", "b", "c"]
  {
    hide FirstSeen;
    FirstSeenStep(["a", "b"], "c");
    FirstSeenStep(["a"], "b");
    FirstSeenStep([], "a");
    NothingSeen();
    assert ["a", "b"] + ["c"] == ["a", "b", "c"] && ["a"] + ["b"] == ["a", "b"] && [] + ["a"] == ["a"];
  }

  lemma NothingSeen()
    ensures FirstSeen<string>([]) == []
  {
  }

  lemma FourDirectTotals(rows: seq<Row>)
    requires BrokenSlice(rows)
    ensures DirectOf(rows, "a", 0) == 4 && DirectOf(rows, "b", 0) == -1 && DirectOf(rows, "c", 0) == -1
  {
    hide DirectOf, ToScaled, Units;
    OneDigit(false, "4");
    OneDigit(true, "1");
    assert "" + "4" == "4" && "-" + "1" == "-1";
    UnitsOf(rows[0], 4);
    UnitsOf(rows[1], -1);
    UnitsOf(rows[2], -1);
    FourSteps(rows, "a");
    FourSteps(rows, "b");
    FourSteps(rows, "c");
  }

  lemma FourSteps(rows: seq<Row>, p: string)
    requires BrokenSlice(rows)
    ensures DirectOf(rows, p, 0) ==
            (if p == "a" then Units(rows[0], 0) else 0) + (if p == "b" then Units(rows[1], 0) else 0)
            + if p == "c" then Units(rows[2], 0) else 0
  {
    hide Units;
    var three, two, one := rows[..3], rows[..2], rows[..1];
    assert three[..2] == two && two[..1] == one && one[..0] == [];
    assert DirectOf(one, p, 0) == if p == "a" then Units(rows[0], 0) else 0;
    assert DirectOf(two, p, 0) == DirectOf(one, p, 0) + if p == "b" then Units(rows[1], 0) else 0;
    assert DirectOf(three, p, 0) == DirectOf(two, p, 0) + if p == "c" then Units(rows[2], 0) else 0;
  }

  lemma {:induction false} NothingSharedNoImbalance(rows: seq<Row>, weights: seq<int>, scale: nat)
    requires Sum(weights) != 0 && forall i :: 0 <= i < |rows| ==> rows[i].kind != Shared
    ensures ImbalanceSum(rows, weights, scale) == 0
  {
    if rows != [] {
      NothingSharedNoImbalance(rows[..|rows| - 1], weights, scale);
    }
  }

  predicate NetCreditSlice(rows: seq<Row>) {
    && |rows| == 3
    && rows[0].kind == Direct && rows[0].projectId == Some("a") && rows[0].amount == "-1"
    && rows[1].kind == Direct && rows[1].projectId == Some("b") && rows[1].amount == "-2"
    && rows[2].kind == Shared && rows[2].amount == "1"
  }

  /** So does a base of credits, though nothing overshoots: one cent of shared cost over direct totals of -1 and -2
      cents is dropped. */
  lemma NegativeBaseLosesAUnit(rows: seq<Row>)
    requires NetCreditSlice(rows)
    ensures Base(rows, 0) == [-1, -2] && Leftover(1, [-1, -2]) == 1
    ensures !Conserves(rows, ProportionalToAttributed, 0)
  {
    hide Units, Distribute, ToScaled, Base, Imbalance, Leftover, Entries, Unallocated, DirectAttributed, Total;
    OneDigit(false, "1");
    assert "" + "1" == "1";
    UnitsOf(rows[2], 1);
    NetCreditBase(rows);
    NegativeWeightsLoseAUnit();
    NothingSharedNoImbalance(rows[..2], [-1, -2], 0);
    ControlTotalGap(rows, ProportionalToAttributed, 0);
  }

  lemma NetCreditBase(rows: seq<Row>)
    requires NetCreditSlice(rows)
    ensures Base(rows, 0) == [-1, -2]
  {
    hide DirectOf, ToScaled, Units, DirectProjects, Sort, FirstSeen;
    assert rows[..3] == rows && rows[..0] == [];
    NothingDirect(0);
    DirectStep(rows, 0, 0);
    DirectStep(rows, 1, 0);
    DirectStep(rows, 2, 0);
    assert DirectProjects(rows) == ["a", "b"];
    PairSort();
    OneDigit(true, "1");
    OneDigit(true, "2");
    assert "-" + "1" == "-1" && "-" + "2" == "-2";
    UnitsOf(rows[0], -1);
    UnitsOf(rows[1], -2);
    ThreeSteps(rows, "a");
    ThreeSteps(rows, "b");
  }

  lemma ThreeSteps(rows: seq<Row>, p: string)
    requires NetCreditSlice(rows)
    ensures DirectOf(rows, p, 0) ==
            (if p == "a" then Units(rows[0], 0) else 0) + if p == "b" then Units(rows[1], 0) else 0
  {
    hide Units;
    var two, one := rows[..2], rows[..1];
    assert two[..1] == one && one[..0] == [];
    assert DirectOf(one, p, 0) == if p == "a" then Units(rows[0], 0) else 0;
    assert DirectOf(two, p, 0) == DirectOf(one, p, 0) + if p == "b" then Units(rows[1], 0) else 0;
  }

  lemma PairSort()
    ensures Sort(FirstSeen(["a", "b"]), TextLeq) == ["a", "b"]
  {
    PairSeen();
    hide FirstSeen;
    assert Sort(["b"], TextLeq) == ["b"] by { assert ["b"][1..] == []; }
    assert ["a", "b"][1..] == ["b"];
  }

  lemma PairSeen()
    ensures FirstSeen(["a", "b"]) == ["a", "b"]
  {
    FirstSeenStep(["a"], "b");
    FirstSeenStep([], "a");
    assert ["a"] + ["b"] == ["a", "b"] && [] + ["a"] == ["a"];
  }

  predicate ThousandthsSlice(rows: seq<Row>) {
    |rows| == 1 && rows[0].kind == Shared && rows[0].projectId == Some("a") && rows[0].amount == "0.012"
  }

  /** A misprinted entry is read back for the coverage: twelve thousandths, wholly attributed, are reported as
      8350 per cent covered. */
  lemma MisprintOverstates(currency: string, rows: seq<Row>)
    requires ThousandthsSlice(rows) && Outcome(currency, rows, KeyedTag).Ok?
    ensures UnionScale(rows) == 3
    ensures TrueAttributed(rows, KeyedTag, 3) == Total(rows, 3) == 12
    ensures Outcome(currency, rows, KeyedTag).value.coverage.attributedPermille == Some(83500)
  {
    hide ToScaled, Units, Printed, Misprint, Outcome, Entries, UnionScale, Total, DirectAttributed;
    ThousandthsFacts(rows);
    ThousandthsEntries(rows);
    ReportedAttributionExactlyWhen(currency, rows, KeyedTag);
    FigureOf(currency, rows, KeyedTag, 1002);
    assert Permille(1002, 12) == Some(83500);
  }

  lemma ThousandthsFacts(rows: seq<Row>)
    requires ThousandthsSlice(rows)
    ensures UnionScale(rows) == 3 && Units(rows[0], 3) == 12 && Total(rows, 3) == 12 && DirectAttributed(rows, 3) == 0
  {
    hide ToScaled, Scaling, Units;
    TwelveIsRead();
    UnitsAre(rows[0], 3, 12);
    assert rows[..|rows| - 1] == [];
  }

  lemma ThousandthsEntries(rows: seq<Row>)
    requires ThousandthsSlice(rows)
    ensures EntryTotal(Entries(rows, KeyedTag, 3)) == 12 && MisprintSum(Entries(rows, KeyedTag, 3), 3) == 990
  {
    hide ToScaled, Units, Misprint, Total, Distribute, Base, Projects;
    ThousandthsFacts(rows);
    var e := ScaledEntry(rows[0].rowKey, "a", 12, KeyedTag);
    assert rows[..|rows| - 1] == [] && [e][..0] == [];
    assert StagedEntries([], KeyedTag, 3) == [] && RowEntries(rows[0], KeyedTag, 3) == [e];
    assert [] + [e] == [e] && [e] + [] == [e];
    assert StagedEntries(rows, KeyedTag, 3) == [e];
    assert Entries(rows, KeyedTag, 3) == [e] + [];
    TwelveMisprints();
  }

  lemma UnitsAre(row: Row, scale: nat, v: int)
    requires ToScaled(row.amount, scale) == Some(v)
    ensures Units(row, scale) == v
  {
  }

  lemma TwelveIsRead()
    ensures Scaling("0.012") == 3 && ToScaled("0.012", 3) == Some(12)
  {
    hide ToScaled, Scaling;
    var d := Decimal(false, "0", true, "012");
    OwnScale(d);
    UnitScale(Unscaled(d));
    ParseAppend("0", "012");
    ParseTwelve();
    assert Text(d) == "0.012";
  }

  lemma ParseSnoc(s: string, c: char)
    requires AllDigits(s) && IsDigit(c)
    ensures AllDigits(s + [c]) && Parse(s + [c]) == 10 * Parse(s) + DigitValue(c)
  {
    assert (s + [c])[..|s|] == s;
  }

  lemma ParseTwelve()
    ensures Parse("0" + "012") == 12
  {
    hide Parse;
    assert Parse("") == 0 by { NoDigits(); }
    ParseSnoc("", '0');
    ParseSnoc("0", '0');
    ParseSnoc("00", '1');
    ParseSnoc("001", '2');
    assert "" + "0" == "0" && "0" + "0" == "00" && "00" + "1" == "001" && "001" + "2" == "0" + "012";
  }

  lemma NoDigits()
    ensures Parse("") == 0
  {
  }

  lemma TwelveMisprints()
    ensures Misprint(12, 3) == 990
  {
    assert Print(1) == "1" && Print(12) == "12";
    assert Pow10(1) == 10 && Pow10(2) == 100 && Pow10(3) == 1000;
  }
}
