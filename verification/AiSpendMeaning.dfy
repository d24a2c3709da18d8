/**
 What each figure of the AI spend report of src/costsource/aiSpendRatio.ts says about the input, row by row:
 which rows a currency and a service stand for, and what the ratio is.
 */
module AiSpendMeaning {
  import opened Basics
  import opened AiSpend
  import opened AiSpendLaws
  import opened Sequences
  import opened Tallies

  // ------------------------------------------------------------ row by row

  /** A usable cost under a currency code of three capital letters. */
  predicate BilledIn(r: FocusRow, c: string) {
    r.nanos.Some? && r.currency == c
    && |c| == 3 && 'A' <= c[0] <= 'Z' && 'A' <= c[1] <= 'Z' && 'A' <= c[2] <= 'Z'
  }

  predicate AiBilledIn(r: FocusRow, c: string) { BilledIn(r, c) && r.category == "AI and Machine Learning" }

  /** A row without a service name counts as unnamed. */
  predicate Served(r: FocusRow, c: string, name: string) {
    AiBilledIn(r, c) && if r.service == "" then name == "(unnamed service)" else name == r.service
  }

  function CostWhere(rows: seq<FocusRow>, p: FocusRow -> bool): int {
    if rows == [] then 0
    else
      var r := rows[|rows| - 1];
      CostWhere(rows[..|rows| - 1], p) + if p(r) && r.nanos.Some? then r.nanos.value else 0
  }

  function CountWhere(rows: seq<FocusRow>, p: FocusRow -> bool): nat {
    if rows == [] then 0 else CountWhere(rows[..|rows| - 1], p) + if p(rows[|rows| - 1]) then 1 else 0
  }

  function In(c: string): FocusRow -> bool { (r: FocusRow) => BilledIn(r, c) }

  function AiIn(c: string): FocusRow -> bool { (r: FocusRow) => AiBilledIn(r, c) }

  function By(c: string, name: string): FocusRow -> bool { (r: FocusRow) => Served(r, c, name) }

  lemma {:induction false} FilterSums(rows: seq<FocusRow>, p: FocusRow -> bool)
    ensures Cost(Filter(rows, p)) == CostWhere(rows, p) && |Filter(rows, p)| == CountWhere(rows, p)
  {
    hide Cost;
    if rows == [] {
      NoCost();
    } else {
      var n := |rows| - 1;
      FilterSums(rows[..n], p);
      CostSnoc(Filter(rows[..n], p), rows[n]);
    }
  }

  lemma {:induction false} FilterTwice(rows: seq<FocusRow>, p: FocusRow -> bool, q: FocusRow -> bool,
                                       both: FocusRow -> bool)
    requires forall r :: both(r) <==> p(r) && q(r)
    ensures Filter(Filter(rows, p), q) == Filter(rows, both)
  {
    if rows != [] {
      var n := |rows| - 1;
      FilterTwice(rows[..n], p, q, both);
      if p(rows[n]) {
        FilterStep(Filter(rows[..n], p), rows[n], q);
      }
    }
  }

  lemma UsableMeans(r: FocusRow, c: string)
    ensures Usable(r) && r.currency == c <==> BilledIn(r, c)
  {
  }

  lemma AiMeans(r: FocusRow, c: string)
    ensures BilledIn(r, c) && IsAi(r) <==> AiBilledIn(r, c)
  {
  }

  lemma ServedMeans(r: FocusRow, c: string, name: string)
    ensures AiBilledIn(r, c) && ServiceName(r) == name <==> Served(r, c, name)
  {
  }

  lemma BilledMeans(rows: seq<FocusRow>, c: string)
    ensures Billed(rows, c) == Filter(rows, In(c))
    ensures Filter(Billed(rows, c), AiRow()) == Filter(rows, AiIn(c))
  {
    hide Filter, Usable, BilledIn, AiBilledIn;
    forall r
      ensures (UsableRow()(r) && InCurrency(c)(r) <==> In(c)(r)) && (In(c)(r) && AiRow()(r) <==> AiIn(c)(r))
    {
      UsableMeans(r, c);
      AiMeans(r, c);
    }
    FilterTwice(rows, UsableRow(), InCurrency(c), In(c));
    FilterTwice(rows, In(c), AiRow(), AiIn(c));
  }

  lemma ServiceMeans(rows: seq<FocusRow>, c: string, name: string)
    ensures ServiceCost(Filter(rows, AiIn(c)), name) == CostWhere(rows, By(c, name))
  {
    hide Filter, AiBilledIn, Served, Cost;
    forall r
      ensures AiIn(c)(r) && OfService(name)(r) <==> By(c, name)(r)
    {
      ServedMeans(r, c, name);
    }
    FilterTwice(rows, AiIn(c), OfService(name), By(c, name));
    FilterSums(rows, By(c, name));
  }

  // ------------------------------------------------------------- an entry

  /** The ratio is given exactly when the total is positive, and is then the AI share of the total. */
  predicate RatioFits(s: CurrencySpend) {
    && (s.ratio.Some? <==> s.totalCost > 0)
    && (s.ratio.Some? ==> s.ratio.value * s.totalCost as real == s.aiCost as real)
  }

  /** The figures are those of the rows billed in the currency. */
  predicate FiguresFit(rows: seq<FocusRow>, s: CurrencySpend) {
    && s.totalCost == CostWhere(rows, In(s.currency))
    && s.aiCost == CostWhere(rows, AiIn(s.currency))
    && s.rowCount == CountWhere(rows, In(s.currency))
  }

  function ServiceOf(): ServiceSpend -> string { (s: ServiceSpend) => s.service }

  /** Each service of an AI row is listed once, with the cost of its rows. */
  ghost predicate ServicesFit(rows: seq<FocusRow>, s: CurrencySpend) {
    && Distinct(Map(s.services, ServiceOf()))
    && (forall n :: n in Map(s.services, ServiceOf()) <==> exists r :: r in rows && Served(r, s.currency, n))
    && (forall i :: 0 <= i < |s.services| ==>
          s.services[i].aiCost == CostWhere(rows, By(s.currency, s.services[i].service)))
  }

  lemma DivisionUndone(ai: int, total: int)
    requires total > 0
    ensures ai as real / total as real * total as real == ai as real
  {
  }

  lemma RatioMeans(leq: (string, string) -> bool, rows: seq<FocusRow>, c: string)
    ensures RatioFits(SpendIn(leq, rows, c))
  {
    hide Cost, Billed, Services, Filter;
    if Cost(Billed(rows, c)) > 0 {
      DivisionUndone(Cost(Filter(Billed(rows, c), AiRow())), Cost(Billed(rows, c)));
    }
  }

  lemma FiguresMean(leq: (string, string) -> bool, rows: seq<FocusRow>, c: string)
    ensures FiguresFit(rows, SpendIn(leq, rows, c))
  {
    hide Cost, Billed, Services, Filter, CostWhere, CountWhere, Ratio;
    BilledMeans(rows, c);
    FilterSums(rows, In(c));
    FilterSums(rows, AiIn(c));
  }

  lemma ServedIsNamed(rows: seq<FocusRow>, c: string, n: string)
    ensures n in Map(Filter(rows, AiIn(c)), NameOf()) <==> exists r :: r in rows && Served(r, c, n)
  {
    hide Filter, AiBilledIn, Served;
    var ai := Filter(rows, AiIn(c));
    forall r
      ensures r in ai <==> r in rows && AiBilledIn(r, c)
    {
      FilterCount(rows, AiIn(c), r);
      assert (r in ai <==> r in multiset(ai)) && (r in rows <==> r in multiset(rows));
    }
    if n in Map(ai, NameOf()) {
      var i :| 0 <= i < |ai| && Map(ai, NameOf())[i] == n;
      assert ai[i] in ai;
      ServedMeans(ai[i], c, n);
    }
    if r :| r in rows && Served(r, c, n) {
      ServedMeans(r, c, n);
      var i :| 0 <= i < |ai| && ai[i] == r;
      assert Map(ai, NameOf())[i] == n;
    }
  }

  lemma SortedServices(leq: (string, string) -> bool, ai: seq<FocusRow>)
    requires TotalOrder(leq)
    ensures var s := Services(leq, ai);
            && Distinct(Map(s, ServiceOf()))
            && (forall n :: n in Map(s, ServiceOf()) <==> n in Map(ai, NameOf()))
            && (forall i :: 0 <= i < |s| ==> s[i].aiCost == ServiceCost(ai, s[i].service))
  {
    hide FirstSeen, Sort, ServiceCost, TotalOrder, SpendLeq, Distinct;
    var s, names := Services(leq, ai), FirstSeen(Map(ai, NameOf()));
    var entries := Map(names, SpendOn(ai));
    SpendOrderIsTotal(leq);
    SortCorrect(entries, SpendOrder(leq));
    MapPermutes(s, entries, ServiceOf());
    assert Map(entries, ServiceOf()) == names;
    PermutationDistinct(names, Map(s, ServiceOf()));
    forall n
      ensures n in Map(s, ServiceOf()) <==> n in names
    {
      assert n in Map(s, ServiceOf()) <==> n in multiset(Map(s, ServiceOf()));
      assert n in names <==> n in multiset(names);
    }
    forall i | 0 <= i < |s|
      ensures s[i].aiCost == ServiceCost(ai, s[i].service)
    {
      assert s[i] in multiset(s);
      assert s[i] in entries;
    }
  }

  lemma ServicesMean(leq: (string, string) -> bool, rows: seq<FocusRow>, c: string)
    requires TotalOrder(leq)
    ensures ServicesFit(rows, SpendIn(leq, rows, c))
  {
    hide Cost, Billed, Services, Filter, ServiceCost, CostWhere, TotalOrder, Ratio, Distinct, Served;
    var s := SpendIn(leq, rows, c);
    BilledMeans(rows, c);
    var ai := Filter(rows, AiIn(c));
    SortedServices(leq, ai);
    forall n
      ensures n in Map(s.services, ServiceOf()) <==> exists r :: r in rows && Served(r, c, n)
    {
      ServedIsNamed(rows, c, n);
    }
    forall i | 0 <= i < |s.services|
      ensures s.services[i].aiCost == CostWhere(rows, By(c, s.services[i].service))
    {
      ServiceMeans(rows, c, s.services[i].service);
    }
  }

  // ------------------------------------------------------------ the report

  function CodeOf(): CurrencySpend -> string { (s: CurrencySpend) => s.currency }

  lemma BilledIsListed(rows: seq<FocusRow>, c: string)
    ensures c in CurrenciesIn(rows) <==> exists r :: r in rows && BilledIn(r, c)
  {
    hide Filter, Usable, BilledIn;
    var usable := Filter(rows, UsableRow());
    forall r
      ensures r in usable <==> r in rows && Usable(r)
    {
      FilterCount(rows, UsableRow(), r);
      assert (r in usable <==> r in multiset(usable)) && (r in rows <==> r in multiset(rows));
    }
    if c in CurrenciesIn(rows) {
      var i :| 0 <= i < |usable| && CurrenciesIn(rows)[i] == c;
      assert usable[i] in usable;
      UsableMeans(usable[i], c);
    }
    if r :| r in rows && BilledIn(r, c) {
      UsableMeans(r, c);
      assert r.currency == c by { BilledHasCode(r, c); }
      var i :| 0 <= i < |usable| && usable[i] == r;
      assert CurrenciesIn(rows)[i] == c;
    }
  }

  lemma BilledHasCode(r: FocusRow, c: string)
    requires BilledIn(r, c)
    ensures r.currency == c
  {
  }

  /**
   The report lists each currency with a usable row once, in order, and every figure of an entry is that of the rows
   themselves: total, AI cost, count, services and ratio.
   */
  lemma ReportMeans(leq: (string, string) -> bool, rows: seq<FocusRow>)
    requires TotalOrder(leq)
    ensures var spends := ReportOn(leq, rows).currencies;
            && Distinct(Map(spends, CodeOf())) && Sorted(Map(spends, CodeOf()), leq)
            && (forall c :: c in Map(spends, CodeOf()) <==> exists r :: r in rows && BilledIn(r, c))
            && (forall i :: 0 <= i < |spends| ==>
                  RatioFits(spends[i]) && FiguresFit(rows, spends[i]) && ServicesFit(rows, spends[i]))
  {
    hide SpendIn, CurrenciesIn, Filter, BilledIn, TotalOrder, Distinct, Sorted, RatioFits, FiguresFit, ServicesFit;
    hide SortedKeys;
    var spends, names := ReportOn(leq, rows).currencies, SortedKeys(CurrenciesIn(rows), leq);
    SortedKeysShape(CurrenciesIn(rows), leq);
    forall i | 0 <= i < |spends|
      ensures spends[i] == SpendIn(leq, rows, names[i]) && spends[i].currency == names[i]
      ensures RatioFits(spends[i]) && FiguresFit(rows, spends[i]) && ServicesFit(rows, spends[i])
    {
      EntryCode(leq, rows, names[i]);
      RatioMeans(leq, rows, names[i]);
      FiguresMean(leq, rows, names[i]);
      ServicesMean(leq, rows, names[i]);
    }
    assert Map(spends, CodeOf()) == names;
    forall c
      ensures c in names <==> exists r :: r in rows && BilledIn(r, c)
    {
      BilledIsListed(rows, c);
    }
  }

  lemma EntryCode(leq: (string, string) -> bool, rows: seq<FocusRow>, c: string)
    ensures SpendIn(leq, rows, c).currency == c
  {
    hide Cost, Billed, Services, Filter, Ratio;
  }

  // ------------------------------------------------------------- the ratio

  lemma {:induction false} PartOfTheCost(rows: seq<FocusRow>, part: FocusRow -> bool, whole: FocusRow -> bool)
    requires forall i :: 0 <= i < |rows| && whole(rows[i]) && rows[i].nanos.Some? ==> rows[i].nanos.value >= 0
    requires forall i :: 0 <= i < |rows| && part(rows[i]) ==> whole(rows[i])
    ensures 0 <= CostWhere(rows, part) <= CostWhere(rows, whole)
  {
    if rows != [] {
      PartOfTheCost(rows[..|rows| - 1], part, whole);
    }
  }

  lemma QuotientOfParts(ratio: real, part: real, whole: real)
    requires whole > 0.0 && 0.0 <= part <= whole && ratio * whole == part
    ensures 0.0 <= ratio <= 1.0
  {
  }

  /** Without refunds in a currency its ratio is a share: between 0 and 1. */
  lemma RatioIsAShare(leq: (string, string) -> bool, rows: seq<FocusRow>, c: string)
    requires forall i :: 0 <= i < |rows| && BilledIn(rows[i], c) ==> rows[i].nanos.value >= 0
    ensures var s := SpendIn(leq, rows, c); s.ratio.Some? ==> 0.0 <= s.ratio.value <= 1.0
  {
    hide SpendIn, CostWhere, CountWhere;
    var s := SpendIn(leq, rows, c);
    EntryCode(leq, rows, c);
    RatioMeans(leq, rows, c);
    FiguresMean(leq, rows, c);
    PartOfTheCost(rows, AiIn(c), In(c));
    if s.ratio.Some? {
      QuotientOfParts(s.ratio.value, s.aiCost as real, s.totalCost as real);
    }
  }

  /** Over two inputs with positive totals the ratio of the whole is the mean of the ratios, weighted by the totals. */
  lemma RatiosCombine(leq: (string, string) -> bool, a: seq<FocusRow>, b: seq<FocusRow>, c: string)
    requires SpendIn(leq, a, c).ratio.Some? && SpendIn(leq, b, c).ratio.Some?
    ensures var whole, x, y := SpendIn(leq, a + b, c), SpendIn(leq, a, c), SpendIn(leq, b, c);
            whole.ratio.Some?
            && whole.ratio.value * (x.totalCost + y.totalCost) as real
               == x.ratio.value * x.totalCost as real + y.ratio.value * y.totalCost as real
  {
    hide SpendIn;
    SpendAdds(leq, a, b, c);
    RatioMeans(leq, a, c);
    RatioMeans(leq, b, c);
    RatioMeans(leq, a + b, c);
  }
}
