/** Properties of the AI spend report of src/costsource/aiSpendRatio.ts. */
module AiSpendLaws {
  import opened AiSpend
  import opened Sequences
  import opened Tallies

  // ------------------------------------------------------------ row counts

  lemma {:induction false} CurrencyOccurs(usable: seq<FocusRow>, c: string)
    ensures |Filter(usable, InCurrency(c))| == multiset(Map(usable, CurrencyOf()))[c]
  {
    hide Map;
    if usable != [] {
      var n := |usable| - 1;
      CurrencyOccurs(usable[..n], c);
      assert usable == usable[..n] + [usable[n]];
      MapSnoc(usable[..n], usable[n], CurrencyOf());
    } else {
      NoCurrencies();
    }
  }

  lemma NoCurrencies()
    ensures Map<FocusRow, string>([], CurrencyOf()) == []
  {
  }

  function RowCounts(spends: seq<CurrencySpend>): (r: seq<int>)
    ensures |r| == |spends|
  {
    seq(|spends|, i requires 0 <= i < |spends| => spends[i].rowCount)
  }

  /** Every input row is counted once: under its currency, or as excluded. */
  lemma RowsAreCounted(leq: (string, string) -> bool, rows: seq<FocusRow>)
    requires TotalOrder(leq)
    ensures var r := ReportOn(leq, rows);
            && r.rowCount + r.excludedRows == |rows|
            && Sum(RowCounts(r.currencies)) == r.rowCount
  {
    hide Filter, Map, SortedKeys, Sum, Cost, Services, Ratio;
    var usable := Filter(rows, UsableRow());
    var names := SortedKeys(CurrenciesIn(rows), leq);
    SortedKeysShape(CurrenciesIn(rows), leq);
    CountsCover(CurrenciesIn(rows), names);
    FilterShrinks(rows, UsableRow());
    forall i | 0 <= i < |names|
      ensures Spends(leq, rows)[i].rowCount == multiset(CurrenciesIn(rows))[names[i]]
    {
      CurrencyOccurs(usable, names[i]);
    }
    assert RowCounts(Spends(leq, rows)) == CountsOf(CurrenciesIn(rows), names);
  }

  // --------------------------------------------------------------- services

  function ServiceCosts(ai: seq<FocusRow>, names: seq<string>): (r: seq<int>)
    ensures |r| == |names|
  {
    seq(|names|, i requires 0 <= i < |names| => ServiceCost(ai, names[i]))
  }

  lemma {:induction false} OneMoreRow(ai: seq<FocusRow>, r: FocusRow, names: seq<string>)
    requires Distinct(names)
    ensures Sum(ServiceCosts(ai + [r], names))
            == Sum(ServiceCosts(ai, names)) + if ServiceName(r) in names then Nanos(r) else 0
  {
    hide Cost, Filter;
    if names != [] {
      var n := |names| - 1;
      var front := names[..n];
      OneMoreRow(ai, r, front);
      assert names == front + [names[n]];
      assert ServiceCosts(ai, names)[..n] == ServiceCosts(ai, front);
      assert ServiceCosts(ai + [r], names)[..n] == ServiceCosts(ai + [r], front);
      FilterStep(ai, r, OfService(names[n]));
      CostSnoc(Filter(ai, OfService(names[n])), r);
    }
  }

  lemma {:induction false} NoRows(names: seq<string>)
    ensures Sum(ServiceCosts([], names)) == 0
  {
    if names != [] {
      var n := |names| - 1;
      NoRows(names[..n]);
      assert ServiceCosts([], names)[..n] == ServiceCosts([], names[..n]);
      assert ServiceCost([], names[n]) == 0;
    }
  }

  lemma {:induction false} ServicesCover(ai: seq<FocusRow>, names: seq<string>)
    requires Distinct(names) && forall i :: 0 <= i < |ai| ==> ServiceName(ai[i]) in names
    ensures Sum(ServiceCosts(ai, names)) == Cost(ai)
  {
    hide ServiceCosts, Map;
    if ai == [] {
      NoRows(names);
      NoCost();
    } else {
      var n := |ai| - 1;
      ServicesCover(ai[..n], names);
      assert ai == ai[..n] + [ai[n]];
      OneMoreRow(ai[..n], ai[n], names);
      CostSnoc(ai[..n], ai[n]);
    }
  }

  lemma NoCost()
    ensures Cost([]) == 0
  {
  }

  function AiCostOf(): ServiceSpend -> int { (s: ServiceSpend) => s.aiCost }

  lemma NamedInFirstSeen(ai: seq<FocusRow>)
    ensures forall i :: 0 <= i < |ai| ==> ServiceName(ai[i]) in FirstSeen(Map(ai, NameOf()))
  {
    hide FirstSeen;
    forall i | 0 <= i < |ai|
      ensures ServiceName(ai[i]) in FirstSeen(Map(ai, NameOf()))
    {
      assert Map(ai, NameOf())[i] == ServiceName(ai[i]);
    }
  }

  lemma SpendOrderIsTotal(leq: (string, string) -> bool)
    requires TotalOrder(leq)
    ensures TotalOrder(SpendOrder(leq))
    ensures Antisymmetric(leq) ==> Antisymmetric(SpendOrder(leq))
  {
  }

  /** The services of a currency sum exactly to its AI cost. */
  lemma ServicesSumToAiCost(leq: (string, string) -> bool, rows: seq<FocusRow>, c: string)
    requires TotalOrder(leq)
    ensures var s := SpendIn(leq, rows, c); Sum(Map(s.services, AiCostOf())) == s.aiCost
  {
    hide Filter, Cost, FirstSeen, Sort, TotalOrder, SpendLeq, ServiceCost;
    var ai := Filter(Billed(rows, c), AiRow());
    var names := FirstSeen(Map(ai, NameOf()));
    var entries := Map(names, SpendOn(ai));
    NamedInFirstSeen(ai);
    ServicesCover(ai, names);
    SpendOrderIsTotal(leq);
    SortCorrect(entries, SpendOrder(leq));
    MapPermutes(Services(leq, ai), entries, AiCostOf());
    SumPermutes(Map(Services(leq, ai), AiCostOf()), Map(entries, AiCostOf()));
    assert Map(entries, AiCostOf()) == ServiceCosts(ai, names);
  }

  /** The services are listed from the largest cost down. */
  lemma ServicesAreRanked(leq: (string, string) -> bool, rows: seq<FocusRow>, c: string, i: nat, j: nat)
    requires TotalOrder(leq) && i < j < |SpendIn(leq, rows, c).services|
    ensures SpendIn(leq, rows, c).services[i].aiCost >= SpendIn(leq, rows, c).services[j].aiCost
  {
    hide Filter, Cost, FirstSeen, Sort, TotalOrder, Map;
    var ai := Filter(Billed(rows, c), AiRow());
    SpendOrderIsTotal(leq);
    SortCorrect(Map(FirstSeen(Map(ai, NameOf())), SpendOn(ai)), SpendOrder(leq));
    assert SpendOrder(leq)(SpendIn(leq, rows, c).services[i], SpendIn(leq, rows, c).services[j]);
  }

  // ---------------------------------------------------------- concatenation

  lemma {:induction false} FilterAppend<T>(a: seq<T>, b: seq<T>, keep: T -> bool)
    ensures Filter(a + b, keep) == Filter(a, keep) + Filter(b, keep)
  {
    if b == [] {
      assert a + b == a;
    } else {
      var n := |b| - 1;
      assert a + b == (a + b[..n]) + [b[n]];
      assert b == b[..n] + [b[n]];
      FilterAppend(a, b[..n], keep);
      FilterStep(a + b[..n], b[n], keep);
      FilterStep(b[..n], b[n], keep);
    }
  }

  lemma CostAppend(a: seq<FocusRow>, b: seq<FocusRow>)
    ensures Cost(a + b) == Cost(a) + Cost(b)
  {
    assert Map(a + b, NanosOf()) == Map(a, NanosOf()) + Map(b, NanosOf());
    SumAppend(Map(a, NanosOf()), Map(b, NanosOf()));
  }

  lemma BilledAppend(a: seq<FocusRow>, b: seq<FocusRow>, c: string)
    ensures Billed(a + b, c) == Billed(a, c) + Billed(b, c)
    ensures Filter(Billed(a + b, c), AiRow()) == Filter(Billed(a, c), AiRow()) + Filter(Billed(b, c), AiRow())
  {
    hide Filter;
    FilterAppend(a, b, UsableRow());
    FilterAppend(Filter(a, UsableRow()), Filter(b, UsableRow()), InCurrency(c));
    FilterAppend(Billed(a, c), Billed(b, c), AiRow());
  }

  /** Reports add: totals, AI costs and counts of concatenated inputs are the sums of the parts. */
  lemma SpendAdds(leq: (string, string) -> bool, a: seq<FocusRow>, b: seq<FocusRow>, c: string)
    ensures var whole, x, y := SpendIn(leq, a + b, c), SpendIn(leq, a, c), SpendIn(leq, b, c);
            && whole.totalCost == x.totalCost + y.totalCost
            && whole.aiCost == x.aiCost + y.aiCost
            && whole.rowCount == x.rowCount + y.rowCount
  {
    hide Filter, Cost, Services, Billed;
    BilledAppend(a, b, c);
    CostAppend(Billed(a, c), Billed(b, c));
    CostAppend(Filter(Billed(a, c), AiRow()), Filter(Billed(b, c), AiRow()));
  }

  lemma {:induction false} NoneBilled(rows: seq<FocusRow>, c: string)
    requires forall i :: 0 <= i < |rows| ==> rows[i].currency != c
    ensures Billed(rows, c) == []
  {
    if rows != [] {
      var n := |rows| - 1;
      NoneBilled(rows[..n], c);
      assert rows == rows[..n] + [rows[n]];
      FilterStep(rows[..n], rows[n], UsableRow());
      FilterStep(Filter(rows[..n], UsableRow()), rows[n], InCurrency(c));
    }
  }

  /** Rows of other currencies, wherever they are, change nothing of a currency's entry. */
  lemma CurrenciesNeverMix(leq: (string, string) -> bool, a: seq<FocusRow>, others: seq<FocusRow>,
                            b: seq<FocusRow>, c: string)
    requires forall i :: 0 <= i < |others| ==> others[i].currency != c
    ensures SpendIn(leq, a + others + b, c) == SpendIn(leq, a + b, c)
  {
    hide Filter, Cost, Services, Billed;
    BilledAppend(a + others, b, c);
    BilledAppend(a, others, c);
    BilledAppend(a, b, c);
    NoneBilled(others, c);
    assert Billed(a, c) + [] == Billed(a, c);
  }

  // -------------------------------------------------------------- any order

  lemma ServicesPermute(leq: (string, string) -> bool, a: seq<FocusRow>, b: seq<FocusRow>)
    requires TotalOrder(leq) && Antisymmetric(leq)
    requires multiset(a) == multiset(b)
    ensures Services(leq, a) == Services(leq, b)
  {
    hide Filter, FirstSeen, Sort, TotalOrder, Antisymmetric, Map, SpendLeq;
    var x, y := FirstSeen(Map(a, NameOf())), FirstSeen(Map(b, NameOf()));
    MapPermutes(a, b, NameOf());
    forall n
      ensures n in x <==> n in y
    {
      assert (n in Map(a, NameOf()) <==> n in multiset(Map(a, NameOf())))
             && (n in Map(b, NameOf()) <==> n in multiset(Map(b, NameOf())));
    }
    DistinctSameElements(x, y);
    SameSpends(a, b, y);
    MapPermutes(x, y, SpendOn(a));
    SpendOrderIsTotal(leq);
    SortPermutes(Map(x, SpendOn(a)), Map(y, SpendOn(b)), SpendOrder(leq));
  }

  lemma CostPermutes(a: seq<FocusRow>, b: seq<FocusRow>)
    requires multiset(a) == multiset(b)
    ensures Cost(a) == Cost(b)
  {
    hide Map, Sum;
    MapPermutes(a, b, NanosOf());
    SumPermutes(Map(a, NanosOf()), Map(b, NanosOf()));
  }

  lemma SameSpends(a: seq<FocusRow>, b: seq<FocusRow>, names: seq<string>)
    requires multiset(a) == multiset(b)
    ensures Map(names, SpendOn(a)) == Map(names, SpendOn(b))
  {
    hide Filter, Cost;
    forall i | 0 <= i < |names|
      ensures SpendOn(a)(names[i]) == SpendOn(b)(names[i])
    {
      FilterPermutes(a, b, OfService(names[i]));
      CostPermutes(Filter(a, OfService(names[i])), Filter(b, OfService(names[i])));
    }
  }

  lemma SpendInPermutes(leq: (string, string) -> bool, a: seq<FocusRow>, b: seq<FocusRow>, c: string)
    requires TotalOrder(leq) && Antisymmetric(leq)
    requires multiset(a) == multiset(b)
    ensures SpendIn(leq, a, c) == SpendIn(leq, b, c)
  {
    hide Filter, Cost, Services, TotalOrder, Antisymmetric;
    FilterPermutes(a, b, UsableRow());
    FilterPermutes(Filter(a, UsableRow()), Filter(b, UsableRow()), InCurrency(c));
    var x, y := Billed(a, c), Billed(b, c);
    FilterPermutes(x, y, AiRow());
    CostPermutes(x, y);
    CostPermutes(Filter(x, AiRow()), Filter(y, AiRow()));
    ServicesPermute(leq, Filter(x, AiRow()), Filter(y, AiRow()));
    assert |x| == |multiset(x)| && |y| == |multiset(y)|;
  }

  /** The report does not depend on the order of the rows. */
  lemma ReportPermutes(leq: (string, string) -> bool, a: seq<FocusRow>, b: seq<FocusRow>)
    requires TotalOrder(leq) && Antisymmetric(leq)
    requires multiset(a) == multiset(b)
    ensures ReportOn(leq, a) == ReportOn(leq, b)
  {
    hide Filter, SpendIn, SortedKeys, TotalOrder, Antisymmetric, Map;
    FilterShrinks(a, UsableRow());
    FilterShrinks(b, UsableRow());
    FilterPermutes(a, b, UsableRow());
    var x, y := Filter(a, UsableRow()), Filter(b, UsableRow());
    assert |a| == |multiset(a)| && |b| == |multiset(b)| && |x| == |multiset(x)| && |y| == |multiset(y)|;
    MapPermutes(x, y, CurrencyOf());
    SortedKeysPermute(CurrenciesIn(a), CurrenciesIn(b), leq);
    var cs := SortedKeys(CurrenciesIn(a), leq);
    forall i | 0 <= i < |cs|
      ensures SpendIn(leq, a, cs[i]) == SpendIn(leq, b, cs[i])
    {
      SpendInPermutes(leq, a, b, cs[i]);
    }
  }
}
