/**
 `computeAiSpendRatio` of src/costsource/aiSpendRatio.ts in exact nano-units: per-currency totals,
 the AI share and its services. The locale order of names is a parameter.
 */
module AiSpend {
  import opened Basics
  import opened ConfigRules
  import opened Sequences
  import opened Tallies

  const AI_CATEGORY := "AI and Machine Learning"

  /** One FOCUS row; `nanos` is None when the cost is not a usable number. */
  datatype FocusRow = FocusRow(nanos: Option<int>, currency: string, category: string, service: string)

  predicate IsCode(s: string) { |s| == 3 && AllMatch(s, IsUpper) }

  predicate Usable(r: FocusRow) { r.nanos.Some? && IsCode(r.currency) }

  function Nanos(r: FocusRow): int { if r.nanos.Some? then r.nanos.value else 0 }

  predicate IsAi(r: FocusRow) { r.category == AI_CATEGORY }

  function ServiceName(r: FocusRow): string { if r.service == "" then "(unnamed service)" else r.service }

  // -------------------------------------------------------- what the sums are

  function UsableRow(): FocusRow -> bool { (r: FocusRow) => Usable(r) }

  function InCurrency(c: string): FocusRow -> bool { (r: FocusRow) => r.currency == c }

  function AiRow(): FocusRow -> bool { (r: FocusRow) => IsAi(r) }

  function OfService(n: string): FocusRow -> bool { (r: FocusRow) => ServiceName(r) == n }

  function NanosOf(): FocusRow -> int { (r: FocusRow) => Nanos(r) }

  function CurrencyOf(): FocusRow -> string { (r: FocusRow) => r.currency }

  function NameOf(): FocusRow -> string { (r: FocusRow) => ServiceName(r) }

  /** The summed cost of some rows. */
  function Cost(rows: seq<FocusRow>): int { Sum(Map(rows, NanosOf())) }

  /** The usable rows billed in a currency. */
  function Billed(rows: seq<FocusRow>, c: string): seq<FocusRow> { Filter(Filter(rows, UsableRow()), InCurrency(c)) }

  function ServiceCost(aiRows: seq<FocusRow>, n: string): int { Cost(Filter(aiRows, OfService(n))) }

  datatype ServiceSpend = ServiceSpend(service: string, aiCost: int)

  /** Largest first, then by name. */
  predicate SpendLeq(leq: (string, string) -> bool, a: ServiceSpend, b: ServiceSpend) {
    a.aiCost > b.aiCost || (a.aiCost == b.aiCost && leq(a.service, b.service))
  }

  function SpendOrder(leq: (string, string) -> bool): (ServiceSpend, ServiceSpend) -> bool {
    (a: ServiceSpend, b: ServiceSpend) => SpendLeq(leq, a, b)
  }

  function SpendOn(aiRows: seq<FocusRow>): string -> ServiceSpend {
    (n: string) => ServiceSpend(n, ServiceCost(aiRows, n))
  }

  /** Each distinct service with the cost of its rows, in order. */
  function Services(leq: (string, string) -> bool, aiRows: seq<FocusRow>): seq<ServiceSpend> {
    Sort(Map(FirstSeen(Map(aiRows, NameOf())), SpendOn(aiRows)), SpendOrder(leq))
  }

  datatype CurrencySpend = CurrencySpend(
    currency: string,
    totalCost: int,
    aiCost: int,
    ratio: Option<real>,
    services: seq<ServiceSpend>,
    rowCount: nat)

  function Ratio(ai: int, total: int): Option<real> {
    if total > 0 then Some(ai as real / total as real) else None
  }

  function SpendIn(leq: (string, string) -> bool, rows: seq<FocusRow>, c: string): CurrencySpend {
    var billed := Billed(rows, c);
    var ai := Filter(billed, AiRow());
    CurrencySpend(c, Cost(billed), Cost(ai), Ratio(Cost(ai), Cost(billed)), Services(leq, ai), |billed|)
  }

  datatype Report = Report(currencies: seq<CurrencySpend>, rowCount: int, excludedRows: nat)

  function CurrenciesIn(rows: seq<FocusRow>): seq<string> { Map(Filter(rows, UsableRow()), CurrencyOf()) }

  function Spends(leq: (string, string) -> bool, rows: seq<FocusRow>): (r: seq<CurrencySpend>)
    ensures |r| == |SortedKeys(CurrenciesIn(rows), leq)|
  {
    var cs := SortedKeys(CurrenciesIn(rows), leq);
    seq(|cs|, i requires 0 <= i < |cs| => SpendIn(leq, rows, cs[i]))
  }

  function ReportOn(leq: (string, string) -> bool, rows: seq<FocusRow>): Report {
    var usable := |Filter(rows, UsableRow())|;
    FilterShrinks(rows, UsableRow());
    Report(Spends(leq, rows), usable, |rows| - usable)
  }

  lemma {:induction false} FilterShrinks<T>(s: seq<T>, keep: T -> bool)
    ensures |Filter(s, keep)| <= |s|
  {
    if s != [] {
      FilterShrinks(s[..|s| - 1], keep);
    }
  }

  // ------------------------------------------------------------- the loop

  datatype Acc = Acc(total: int, ai: int, rows: nat, services: Dict<string, int>)

  const NOTHING := Acc(0, 0, 0, Empty())

  /** The accumulator of a currency holds the sums of its rows. */
  ghost predicate Holds(acc: Acc, billed: seq<FocusRow>) {
    var ai := Filter(billed, AiRow());
    && acc.total == Cost(billed)
    && acc.ai == Cost(ai)
    && acc.rows == |billed|
    && ServicesHold(acc.services, ai)
  }

  ghost predicate ServicesHold(services: Dict<string, int>, ai: seq<FocusRow>) {
    && Lists(services, Map(ai, NameOf()))
    && forall n :: Get(services, n, 0) == ServiceCost(ai, n)
  }

  ghost predicate AllHold(byCurrency: Dict<string, Acc>, rows: seq<FocusRow>) {
    && Lists(byCurrency, CurrenciesIn(rows))
    && forall c :: Holds(Get(byCurrency, c, NOTHING), Billed(rows, c))
  }

  lemma MapSnoc<T, U>(s: seq<T>, x: T, f: T -> U)
    ensures Map(s + [x], f) == Map(s, f) + [f(x)]
  {
  }

  lemma CostSnoc(rows: seq<FocusRow>, r: FocusRow)
    ensures Cost(rows + [r]) == Cost(rows) + Nanos(r)
  {
    MapSnoc(rows, r, NanosOf());
  }

  lemma ServicesGrow(services: Dict<string, int>, ai: seq<FocusRow>, r: FocusRow)
    requires ServicesHold(services, ai)
    ensures ServicesHold(Put(services, ServiceName(r), Get(services, ServiceName(r), 0) + Nanos(r)), ai + [r])
  {
    hide Lists, FirstSeen, Filter, Cost, Map;
    var name := ServiceName(r);
    var value := Get(services, name, 0) + Nanos(r);
    MapSnoc(ai, r, NameOf());
    PutLists(services, Map(ai, NameOf()), name, value);
    forall n
      ensures Get(Put(services, name, value), n, 0) == ServiceCost(ai + [r], n)
    {
      FilterStep(ai, r, OfService(n));
      CostSnoc(Filter(ai, OfService(n)), r);
      assert Get(services, n, 0) == ServiceCost(ai, n);
      assert OfService(n)(r) <==> n == name;
    }
  }

  function Grown(acc: Acc, r: FocusRow): Acc {
    var counted := acc.(total := acc.total + Nanos(r), rows := acc.rows + 1);
    if IsAi(r) then
      var name := ServiceName(r);
      counted.(ai := acc.ai + Nanos(r), services := Put(acc.services, name, Get(acc.services, name, 0) + Nanos(r)))
    else counted
  }

  lemma AccGrows(acc: Acc, billed: seq<FocusRow>, r: FocusRow)
    requires Holds(acc, billed)
    ensures Holds(Grown(acc, r), billed + [r])
  {
    hide ServicesHold, Filter, Cost, Map;
    var ai := Filter(billed, AiRow());
    CostSnoc(billed, r);
    FilterStep(billed, r, AiRow());
    if IsAi(r) {
      CostSnoc(ai, r);
      ServicesGrow(acc.services, ai, r);
    }
  }

  lemma RowGrows(byCurrency: Dict<string, Acc>, rows: seq<FocusRow>, r: FocusRow)
    requires AllHold(byCurrency, rows) && Usable(r)
    ensures AllHold(Put(byCurrency, r.currency, Grown(Get(byCurrency, r.currency, NOTHING), r)), rows + [r])
  {
    hide Lists, FirstSeen, Filter, Holds, Grown, Map, Usable;
    var value := Grown(Get(byCurrency, r.currency, NOTHING), r);
    FilterStep(rows, r, UsableRow());
    MapSnoc(Filter(rows, UsableRow()), r, CurrencyOf());
    PutLists(byCurrency, CurrenciesIn(rows), r.currency, value);
    forall c
      ensures Holds(Get(Put(byCurrency, r.currency, value), c, NOTHING), Billed(rows + [r], c))
    {
      FilterStep(Filter(rows, UsableRow()), r, InCurrency(c));
      assert Holds(Get(byCurrency, c, NOTHING), Billed(rows, c));
      if c == r.currency {
        AccGrows(Get(byCurrency, c, NOTHING), Billed(rows, c), r);
      }
    }
  }

  lemma RowSkipped(byCurrency: Dict<string, Acc>, rows: seq<FocusRow>, r: FocusRow)
    requires AllHold(byCurrency, rows) && !Usable(r)
    ensures AllHold(byCurrency, rows + [r])
  {
    hide Lists, FirstSeen, Filter, Holds, Map, Usable;
    FilterStep(rows, r, UsableRow());
    forall c
      ensures Billed(rows + [r], c) == Billed(rows, c)
    {
    }
  }

  lemma NothingHolds()
    ensures AllHold(Empty(), [])
  {
    forall c: string
      ensures Holds(NOTHING, Billed([], c))
    {
      assert forall n :: ServiceCost([], n) == 0;
    }
  }

  method ListServices(leq: (string, string) -> bool, services: Dict<string, int>, ghost ai: seq<FocusRow>)
    returns (r: seq<ServiceSpend>)
    requires ServicesHold(services, ai)
    ensures r == Services(leq, ai)
  {
    hide Filter, Cost, FirstSeen;
    var entries: seq<ServiceSpend> := [];
    for i := 0 to |services.keys|
      invariant entries == Map(services.keys, SpendOn(ai))[..i]
    {
      var n := services.keys[i];
      assert n in FirstSeen(Map(ai, NameOf()));
      assert Get(services, n, 0) == ServiceCost(ai, n);
      entries := entries + [ServiceSpend(n, services.at[n])];
    }
    assert entries == Map(services.keys, SpendOn(ai));
    r := Sort(entries, SpendOrder(leq));
  }

  method ListCurrencies(leq: (string, string) -> bool, byCurrency: Dict<string, Acc>, ghost rows: seq<FocusRow>)
    returns (r: seq<CurrencySpend>)
    requires TotalOrder(leq) && AllHold(byCurrency, rows)
    ensures r == Spends(leq, rows)
  {
    hide Filter, Cost, FirstSeen, ServicesHold, Services, TotalOrder, Ratio;
    var sorted := Sort(byCurrency.keys, leq);
    SortedKeysShape(CurrenciesIn(rows), leq);
    r := [];
    for i := 0 to |sorted|
      invariant r == Spends(leq, rows)[..i]
    {
      var c := sorted[i];
      assert c in CurrenciesIn(rows);
      var acc := byCurrency.at[c];
      assert Holds(Get(byCurrency, c, NOTHING), Billed(rows, c));
      var services := ListServices(leq, acc.services, Filter(Billed(rows, c), AiRow()));
      r := r + [CurrencySpend(c, acc.total, acc.ai, Ratio(acc.ai, acc.total), services, acc.rows)];
    }
  }

  method ComputeAiSpendRatio(leq: (string, string) -> bool, rows: seq<FocusRow>) returns (r: Report)
    requires TotalOrder(leq)
    ensures r == ReportOn(leq, rows)
  {
    hide AllHold, Filter, Usable, TotalOrder, Spends, Grown;
    var byCurrency: Dict<string, Acc> := Empty();
    var excluded := 0;
    NothingHolds();
    assert rows[..0] == [];
    assert Filter<FocusRow>([], UsableRow()) == [] by { EmptyFilter(); }
    for i := 0 to |rows|
      invariant AllHold(byCurrency, rows[..i])
      invariant excluded == i - |Filter(rows[..i], UsableRow())|
    {
      var row := rows[i];
      assert rows[..i + 1] == rows[..i] + [row];
      FilterStep(rows[..i], row, UsableRow());
      if !Usable(row) {
        RowSkipped(byCurrency, rows[..i], row);
        excluded := excluded + 1;
        continue;
      }
      RowGrows(byCurrency, rows[..i], row);
      byCurrency := Put(byCurrency, row.currency, Grown(Get(byCurrency, row.currency, NOTHING), row));
    }
    assert rows[..|rows|] == rows;
    FilterShrinks(rows, UsableRow());
    var currencies := ListCurrencies(leq, byCurrency, rows);
    return Report(currencies, |rows| - excluded, excluded);
  }

  lemma EmptyFilter()
    ensures Filter<FocusRow>([], UsableRow()) == []
  {
  }
}
