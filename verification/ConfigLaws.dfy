/**
 What acceptance by the validator of src/engagement/config.ts guarantees about the configuration:
 names are unique, every reference resolves, totals match the declared currencies and nothing
 declared is dropped.
 */
module ConfigLaws {
  import opened Basics
  import opened ConfigModel
  import opened ConfigRules
  import opened JsonValues
  import opened Sequences

  predicate Declared(cfg: Config, workload: string) {
    exists k :: 0 <= k < |cfg.allocation.workloads| && cfg.allocation.workloads[k].id == workload
  }

  predicate TargetsDeclared(cfg: Config, r: SharedRule) {
    r.targets.Some? ==> forall j :: 0 <= j < |r.targets.value| ==> Declared(cfg, r.targets.value[j])
  }

  lemma InIdSet(names: seq<string>, w: string) returns (k: nat)
    requires w in IdSet(names)
    ensures k < |names| && names[k] == w
  {
    k :| 0 <= k < |names| && names[k] == w;
  }

  lemma DeclaredWhenListed(v: Json, w: string)
    requires w in WorkloadIds(Get(Get(v, "allocation"), "workloads"))
    ensures Declared(ConfigOf(v), w)
  {
    hide SourceOf, RuleOf, BudgetOf, ScenarioOf, FlagsOf, Lower;
    var items := Items(Get(Get(v, "allocation"), "workloads"));
    var k := InIdSet(Column(items, "id"), w);
    assert ConfigOf(v).allocation.workloads[k] == WorkloadOf(items[k]);
  }

  /** Every workload an accepted configuration mentions is one it declares. */
  lemma WorkloadsResolve(x: Outside, v: Json)
    requires WellFormed(x, v)
    ensures var cfg := ConfigOf(v);
            && (forall a :: a in cfg.allocation.subAccountMap ==> Declared(cfg, cfg.allocation.subAccountMap[a]))
            && (forall i :: 0 <= i < |cfg.budgets| ==> Declared(cfg, cfg.budgets[i].workload))
            && (forall i :: 0 <= i < |cfg.scenarios| ==> Declared(cfg, cfg.scenarios[i].workload))
            && (forall i :: 0 <= i < |cfg.allocation.sharedCostRules| ==>
                  TargetsDeclared(cfg, cfg.allocation.sharedCostRules[i]))
  {
    hide SourcesOk, SourceOf, OnlyKeys, IsId, IsUuid, IsText, IsCurrency, IsFilePath, PlatformOk, WorkloadsOk, FlagsOf, Lower;
    hide Declared, WorkloadIds, IsBudget, AssumptionsOk, OneOf, HasControl;
    var cfg := ConfigOf(v);
    var wids := WorkloadIds(Get(Get(v, "allocation"), "workloads"));
    var a := Get(v, "allocation");
    forall w | w in wids
      ensures Declared(cfg, w)
    {
      DeclaredWhenListed(v, w);
    }
    AccountsResolve(Get(a, "subAccountMap"), wids);
    BudgetsResolve(Get(v, "budgets"), wids);
    ScenariosResolve(x, Get(v, "scenarios"), wids);
    RulesResolve(Get(a, "sharedCostRules"), wids);
  }

  lemma AccountsResolve(m: Json, wids: set<string>)
    requires AccountMapOk(m, wids)
    ensures forall a :: a in AccountMapOf(m) ==> AccountMapOf(m)[a] in wids
  {
    hide HasControl;
    forall a | a in AccountMapOf(m)
      ensures AccountMapOf(m)[a] in wids
    {
      var i :| 0 <= i < |m.keys| && m.keys[i] == a;
      assert MapEntryOk(m, m.keys[i], wids);
    }
  }

  lemma BudgetsResolve(v: Json, wids: set<string>)
    requires BudgetsOk(v, wids)
    ensures forall i :: 0 <= i < |Items(v)| ==> BudgetOf(Items(v)[i]).workload in wids
    ensures forall i, j :: 0 <= i < j < |Items(v)| ==> BudgetOf(Items(v)[i]).workload != BudgetOf(Items(v)[j]).workload
  {
    hide OnlyKeys, IsBudget, Get;
    var column := Column(v.items, "workload");
    forall i | 0 <= i < |v.items|
      ensures BudgetOf(v.items[i]).workload in wids && BudgetOf(v.items[i]).workload == column[i]
    {
      assert BudgetOk(v.items[i], wids);
    }
  }

  lemma ScenariosResolve(x: Outside, v: Json, wids: set<string>)
    requires ScenariosOk(x, v, wids)
    ensures forall i :: 0 <= i < |Items(v)| ==> ScenarioOf(Items(v)[i]).workload in wids
    ensures forall i, j :: 0 <= i < j < |Items(v)| ==> ScenarioOf(Items(v)[i]).id != ScenarioOf(Items(v)[j]).id
  {
    hide OnlyKeys, IsText, OneOf, AssumptionsOk, TokensIn, ShareIn, Get;
    var column := Column(v.items, "id");
    forall i | 0 <= i < |v.items|
      ensures ScenarioOf(v.items[i]).workload in wids && ScenarioOf(v.items[i]).id == column[i]
    {
      assert ScenarioOk(x, v.items[i], wids);
    }
  }

  lemma RulesResolve(v: Json, wids: set<string>)
    requires RulesOk(v, wids)
    ensures forall i, j :: 0 <= i < |Items(v)| && RuleOf(Items(v)[i]).targets.Some?
                           && 0 <= j < |RuleOf(Items(v)[i]).targets.value| ==>
              RuleOf(Items(v)[i]).targets.value[j] in wids
    ensures forall i :: 0 <= i < |Items(v)| && RuleOf(Items(v)[i]).rule == "even_split" ==>
              RuleOf(Items(v)[i]).targets.Some? && RuleOf(Items(v)[i]).targets.value != []
    ensures forall i, j :: 0 <= i < j < |Items(v)| ==> RuleOf(Items(v)[i]).id != RuleOf(Items(v)[j]).id
  {
    hide OnlyKeys, IsText, Get, Has;
    var column := Column(v.items, "id");
    forall i | 0 <= i < |v.items|
      ensures RuleOf(v.items[i]).id == column[i]
      ensures RuleOf(v.items[i]).rule == "even_split" ==>
                RuleOf(v.items[i]).targets.Some? && RuleOf(v.items[i]).targets.value != []
      ensures RuleOf(v.items[i]).targets.Some? ==>
                forall j :: 0 <= j < |RuleOf(v.items[i]).targets.value| ==> RuleOf(v.items[i]).targets.value[j] in wids
    {
      assert RuleOk(v.items[i], wids);
    }
  }

  // ----------------------------------------------------------------- sources

  predicate RelatedResolves(sources: seq<Source>, i: nat)
    requires i < |sources|
  {
    var overlap := sources[i].metadata.overlap;
    (overlap.related == "none" && overlap.also != "yes")
    || exists j :: 0 <= j < |sources| && j != i && sources[j].id == overlap.related
  }

  lemma SourceIdsAreColumn(x: Outside, items: seq<Json>, w: string) returns (j: nat)
    requires w in SourceIds(items)
    ensures j < |items| && Column(items, "id")[j] == w
  {
    hide IsSourceId;
    j :| 0 <= j < |items| && items[j].Object? && IsSourceId(Get(items[j], "id")) && Word(Get(items[j], "id")) == w;
  }

  lemma SourceMeans(x: Outside, s: Json, ids: set<string>)
    requires SourceOk(x, s, ids)
    ensures var o := SourceOf(s).metadata.overlap;
            (o.related == "none" && o.also != "yes") || (o.related in ids && o.related != SourceOf(s).id)
    ensures SourceOf(s).id == Word(Get(s, "id"))
  {
    hide OnlyKeys, IdentityOk, VersionsOk, ScopeOk, DeliveryOk, FinancialOk, RetrievalOk, ProvidersOk, IsSourceId;
    hide IdentityOf, VersionsOf, ScopeOf, DeliveryOf, FinancialOf, RetrievalOf, IsText, OneOf, Get;
    IdIsText(Get(s, "id"));
    var o := Get(Get(s, "metadata"), "overlap");
    OverlapIsText(o, ids, SelfId(s));
  }

  lemma IdIsText(v: Json)
    ensures IsSourceId(v) ==> v.Text?
  {
  }

  lemma OverlapIsText(o: Json, ids: set<string>, self: Option<string>)
    requires OverlapOk(o, ids, self)
    ensures var r := OverlapOf(o); (r.related == "none" && r.also != "yes") || Resolves(r.related, ids, self)
  {
  }

  /** Source ids are unique, and a related source is another declared one unless it is declared absent. */
  lemma SourcesResolve(x: Outside, v: Json)
    requires WellFormed(x, v)
    ensures var sources := ConfigOf(v).sources;
            && (forall i, j :: 0 <= i < j < |sources| ==> sources[i].id != sources[j].id)
            && (forall i :: 0 <= i < |sources| ==> RelatedResolves(sources, i))
  {
    hide AllocationOk, AllocationOf, BudgetsOk, ScenariosOk, BudgetOf, ScenarioOf, FlagsOf, Lower, PlatformOk;
    hide OnlyKeys, IsId, IsUuid, IsText, IsCurrency, IsFilePath, SourceOk, SourceOf, SourceIds, Get;
    var items := Items(Get(v, "sources"));
    var sources := ConfigOf(v).sources;
    var column := Column(items, "id");
    forall i | 0 <= i < |items|
      ensures sources[i].id == column[i]
    {
      SourceMeans(x, items[i], SourceIds(items));
    }
    forall i | 0 <= i < |items|
      ensures RelatedResolves(sources, i)
    {
      SourceMeans(x, items[i], SourceIds(items));
      var o := sources[i].metadata.overlap;
      if !(o.related == "none" && o.also != "yes") {
        var j := SourceIdsAreColumn(x, items, o.related);
        assert sources[j].id == o.related;
      }
    }
  }

  // ------------------------------------------------------------------ totals

  lemma {:induction false} DistinctSize(names: seq<string>)
    requires Distinct(names)
    ensures |IdSet(names)| == |names|
  {
    if names != [] {
      var n := |names| - 1;
      DistinctSize(names[..n]);
      assert IdSet(names) == IdSet(names[..n]) + {names[n]} by {
        forall w
          ensures w in IdSet(names) <==> w in IdSet(names[..n]) || w == names[n]
        {
          assert names == names[..n] + [names[n]];
          assert w in names <==> w in names[..n] || w == names[n];
          MemberOfIdSet(names, w);
          MemberOfIdSet(names[..n], w);
        }
      }
      MemberOfIdSet(names[..n], names[n]);
    }
  }

  lemma MemberOfIdSet(names: seq<string>, w: string)
    ensures w in IdSet(names) <==> w in names
  {
  }

  lemma SameSize<T>(a: set<T>, b: set<T>)
    requires a <= b && |a| == |b|
    ensures a == b
  {
    assert |b - a| == |b| - |a|;
    assert b == a + (b - a);
  }

  /** Totals have an amount for exactly the declared currencies. */
  lemma TotalsKeyedByCurrencies(v: Json, currencies: seq<string>)
    requires Distinct(currencies) && TotalsOk(v, currencies) && v.Object?
    ensures TotalsOf(v).PerCurrency?
    ensures forall c :: c in TotalsOf(v).amounts <==> c in currencies
    ensures forall c :: c in TotalsOf(v).amounts ==> IsSignedDecimal(TotalsOf(v).amounts[c])
  {
    hide IsSignedDecimal, Distinct;
    var keys: seq<string> := v.keys;
    DistinctSize(keys);
    DistinctSize(currencies);
    forall w
      ensures w in IdSet(keys) ==> w in IdSet(currencies)
    {
      MemberOfIdSet(keys, w);
      MemberOfIdSet(currencies, w);
    }
    SameSize(IdSet(keys), IdSet(currencies));
    forall c
      ensures c in TotalsOf(v).amounts <==> c in currencies
    {
      MemberOfIdSet(keys, c);
      MemberOfIdSet(currencies, c);
    }
  }

  /** Each source of an accepted configuration accounts for its currencies, and names the source of its totals
      exactly when it has any. */
  lemma FinancialsAreComplete(x: Outside, s: Json, ids: set<string>)
    requires SourceOk(x, s, ids)
    ensures var f := SourceOf(s).metadata.financial;
            && Distinct(f.currencies) && f.currencies != []
            && (f.billed.PerCurrency? ==> forall c :: c in f.billed.amounts <==> c in f.currencies)
            && (f.effective.PerCurrency? ==> forall c :: c in f.effective.amounts <==> c in f.currencies)
            && (f.controlTotalSource == "not_available" <==> f.billed.NotAvailable? && f.effective.NotAvailable?)
  {
    hide OnlyKeys, IdentityOk, VersionsOk, ScopeOk, DeliveryOk, OverlapOk, RetrievalOk, ProvidersOk, IsSourceId;
    hide IdentityOf, VersionsOf, ScopeOf, DeliveryOf, OverlapOf, RetrievalOf, IsText, TotalsOk, Get, Distinct;
    var f := Get(Get(s, "metadata"), "financial");
    var currencies := Words(Get(f, "currencies").items);
    TotalsCover(Get(f, "billed_cost_total"), currencies);
    TotalsCover(Get(f, "effective_cost_total"), currencies);
  }

  lemma TotalsCover(v: Json, currencies: seq<string>)
    requires Distinct(currencies) && TotalsOk(v, currencies)
    ensures TotalsOf(v).NotAvailable? <==> v == NOT_AVAILABLE
    ensures TotalsOf(v).PerCurrency? ==> forall c :: c in TotalsOf(v).amounts <==> c in currencies
  {
    hide IsAmount;
    if v.Object? {
      TotalsKeyedByCurrencies(v, currencies);
    }
  }

  /** At most one budget per workload, and distinct workload ids. */
  lemma BudgetsAreUnique(x: Outside, v: Json)
    requires WellFormed(x, v)
    ensures var cfg := ConfigOf(v);
            && (forall i, j :: 0 <= i < j < |cfg.budgets| ==> cfg.budgets[i].workload != cfg.budgets[j].workload)
            && (forall i, j :: 0 <= i < j < |cfg.allocation.workloads| ==>
                  cfg.allocation.workloads[i].id != cfg.allocation.workloads[j].id)
  {
    hide SourcesOk, SourceOf, OnlyKeys, IsId, IsUuid, IsText, IsCurrency, IsFilePath, PlatformOk, FlagsOf, Lower;
    hide ScenariosOk, ScenarioOf, RulesOk, RuleOf, AccountMapOk, AccountMapOf, WorkloadIds, Get, WorkloadOk;
    BudgetsResolve(Get(v, "budgets"), WorkloadIds(Get(Get(v, "allocation"), "workloads")));
    var items := Items(Get(Get(v, "allocation"), "workloads"));
    var column := Column(items, "id");
    assert Distinct(column);
    assert forall i :: 0 <= i < |items| ==> WorkloadOf(items[i]).id == column[i];
  }

  /** An accepted platform block turns a capability on only together with the platform. */
  lemma CapabilitiesNeedThePlatform(v: Json)
    requires PlatformOk(v)
    ensures |FlagsOf(v)| == 5
    ensures forall i :: 0 < i < 5 && FlagsOf(v)[i] ==> FlagsOf(v)[0]
  {
    forall i | 0 < i < 5 && FlagsOf(v)[i]
      ensures FlagsOf(v)[0]
    {
      assert PLATFORM_KEYS[i] == CAPABILITIES[i - 1];
    }
  }
}
