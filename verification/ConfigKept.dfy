/**
 What the validator of src/engagement/config.ts takes over from an accepted value: every declared
 figure, name and reference, each in its own place.
 */
module ConfigKept {
  import opened Basics
  import opened ConfigModel
  import opened ConfigRules
  import opened ConfigTexts
  import opened JsonValues
  import opened Sequences

  /** The words are those of the list, in order. */
  predicate WordsKept(words: seq<string>, v: Json) {
    v.Array? && |words| == |v.items| && forall i :: 0 <= i < |words| ==> v.items[i] == Text(words[i])
  }

  // --------------------------------------------------------------- retrieval

  predicate LeafKept(leaf: Leaf, v: Json) {
    match leaf
    case Str(t) => v == Text(t)
    case Num(n) => v == Number(n)
    case Flag(b) => v == Bool(b)
    case Strs(ts) => WordsKept(ts, v)
  }

  ghost predicate ParamKept(p: Param, v: Json) {
    match p
    case Single(leaf) => LeafKept(leaf, v)
    case Nested(entries) =>
      v.Object? && forall k :: (k in entries <==> Has(v, k)) && (k in entries ==> LeafKept(entries[k], Get(v, k)))
  }

  lemma LeafIsKept(x: Outside, v: Json)
    requires LeafOk(x, v)
    ensures LeafKept(LeafOf(v), v)
  {
    hide HasControl;
  }

  lemma ParamIsKept(x: Outside, connector: Json, params: Json, name: string)
    requires ParamOk(x, connector, params, name)
    ensures ParamKept(ParamOf(Get(params, name)), Get(params, name))
  {
    hide LeafOk, LeafOf, LeafKept, AllPlain;
    var v := Get(params, name);
    if IsAwsLocation(connector, name) {
      TextIsKept(v);
    } else if v.Object? {
      forall k | k in NestedOf(v)
        ensures LeafKept(NestedOf(v)[k], Get(v, k))
      {
        var i :| 0 <= i < |v.keys| && v.keys[i] == k;
        LeafIsKept(x, Get(v, v.keys[i]));
      }
    } else {
      LeafIsKept(x, v);
    }
  }

  lemma TextIsKept(v: Json)
    requires v.Text?
    ensures LeafKept(LeafOf(v), v)
  {
  }

  ghost predicate RetrievalKept(r: Retrieval, v: Json) {
    match r
    case FileDrop =>
      v == Absent
      || (OnlyKeys(v, RETRIEVAL_KEYS) && Get(v, "kind") == Text("file-drop")
          && !Has(v, "connector") && !Has(v, "params") && !Has(v, "secretRef"))
    case Managed(connector, params, secretRef) =>
      && OnlyKeys(v, RETRIEVAL_KEYS) && (Has(v, "params") ==> Get(v, "params").Object?)
      && Get(v, "kind") == Text("managed") && Get(v, "connector") == Text(connector)
      && (forall k :: k in params <==> Has(Get(v, "params"), k))
      && (forall k :: k in params ==> ParamKept(params[k], Get(Get(v, "params"), k)))
      && (if Has(v, "secretRef") then secretRef.Some? && Get(v, "secretRef") == Text(secretRef.value) else secretRef.None?)
  }

  lemma ParamsAreKept(x: Outside, o: Json)
    requires ParamsOk(x, o)
    ensures Has(o, "params") ==> Get(o, "params").Object?
    ensures forall k :: k in ParamsOf(Get(o, "params")) <==> Has(Get(o, "params"), k)
    ensures forall k :: k in ParamsOf(Get(o, "params")) ==>
              ParamKept(ParamsOf(Get(o, "params"))[k], Get(Get(o, "params"), k))
  {
    hide ParamOk, ParamOf, ParamKept;
    var p := Get(o, "params");
    forall k | k in ParamsOf(p)
      ensures ParamKept(ParamsOf(p)[k], Get(p, k))
    {
      var i :| 0 <= i < |p.keys| && p.keys[i] == k;
      ParamIsKept(x, Get(o, "connector"), p, p.keys[i]);
    }
  }

  lemma RetrievalIsKept(x: Outside, v: Json)
    requires RetrievalOk(x, v)
    ensures RetrievalKept(RetrievalOf(v), v)
  {
    hide OnlyKeys, ParamsOk, ParamsOf, ParamKept, AllMatch;
    if Get(v, "kind") == Text("managed") {
      ParamsAreKept(x, v);
    }
  }

  // ---------------------------------------------------------------- metadata

  predicate IdentityKept(c: Identity, m: Json) {
    && Get(m, "provider") == Text(c.provider) && Get(m, "source_kind") == Text(c.sourceKind)
    && Get(m, "schema_version") == Text(c.schemaVersion) && Get(m, "cost_basis") == Text(c.costBasis)
    && Get(m, "dataset") == Text(c.dataset) && Get(m, "source_role") == Text(c.sourceRole)
    && Get(m, "provenance") == Text(c.provenance) && Get(m, "sanitization") == Text(c.sanitization)
  }

  predicate VersionsKept(c: seq<string>, v: Json) {
    && OnlyKeys(v, VERSION_FIELDS) && |c| == 7
    && Get(v, "provider_product") == Text(c[0]) && Get(v, "api_version") == Text(c[1])
    && Get(v, "export_schema_version") == Text(c[2]) && Get(v, "schema_snapshot_hash") == Text(c[3])
    && Get(v, "focus_version") == Text(c[4]) && Get(v, "mapping_version") == Text(c[5])
    && Get(v, "canonical_model_version") == Text(c[6])
  }

  predicate AccountsKept(c: Accounts, v: Json) {
    match c
    case Described(word) => v == Text(word)
    case Listed(ids) => WordsKept(ids, v)
  }

  predicate ScopeKept(c: Scope, s: Json) {
    && OnlyKeys(s, SCOPE_KEYS)
    && AccountsKept(c.accounts, Get(s, "accounts"))
    && Get(s, "period_start") == Text(c.periodStart) && Get(s, "period_end") == Text(c.periodEnd)
    && Get(s, "period_end_semantics") == Text(c.periodEndSemantics)
    && Get(s, "timezone") == Text(c.timezone) && Get(s, "completeness") == Text(c.completeness)
    && (if c.completeness == "explicit-subset" then c.subset.Some? && Get(s, "subset_description") == Text(c.subset.value)
        else c.subset.None? && !Has(s, "subset_description"))
  }

  predicate DeliveryKept(c: Delivery, d: Json) {
    && OnlyKeys(d, DELIVERY_KEYS)
    && Get(d, "format") == Text(c.format) && Get(d, "compression") == Text(c.compression)
    && Get(d, "manifest") == Text(c.manifest) && Get(d, "refresh_behavior") == Text(c.refreshBehavior)
  }

  ghost predicate TotalsKept(c: Totals, v: Json) {
    match c
    case NotAvailable => v == NOT_AVAILABLE
    case PerCurrency(amounts) =>
      v.Object? && forall k :: (k in amounts <==> Has(v, k)) && (k in amounts ==> Get(v, k) == Text(amounts[k]))
  }

  ghost predicate FinancialKept(c: Financial, f: Json) {
    && OnlyKeys(f, FINANCIAL_KEYS)
    && WordsKept(c.currencies, Get(f, "currencies"))
    && TotalsKept(c.billed, Get(f, "billed_cost_total")) && TotalsKept(c.effective, Get(f, "effective_cost_total"))
    && Get(f, "credits_coverage") == Text(c.credits) && Get(f, "tax_coverage") == Text(c.tax)
    && Get(f, "control_total_source") == Text(c.controlTotalSource)
    && Get(f, "known_differences") == Text(c.knownDifferences)
  }

  predicate OverlapKept(c: Overlap, o: Json) {
    && OnlyKeys(o, ["also_present_in_other_source", "related_source"])
    && Get(o, "also_present_in_other_source") == Text(c.also) && Get(o, "related_source") == Text(c.related)
  }

  lemma IdentityIsKept(m: Json)
    requires IdentityOk(m)
    ensures IdentityKept(IdentityOf(m), m)
  {
    hide HasControl, Get;
  }

  lemma VersionsAreKept(v: Json)
    requires VersionsOk(v)
    ensures VersionsKept(VersionsOf(v), v)
  {
    hide HasControl, OnlyKeys, AllMatch, Get;
    forall i | 0 <= i < |VERSION_FIELDS|
      ensures Get(v, VERSION_FIELDS[i]) == Text(VersionsOf(v)[i])
    {
      assert VersionOk(v, VERSION_FIELDS[i]);
    }
  }

  lemma AccountsAreKept(v: Json)
    requires AccountsOk(v)
    ensures AccountsKept(AccountsOf(v), v)
  {
    hide HasControl;
  }

  lemma ScopeIsKept(x: Outside, s: Json)
    requires ScopeOk(x, s)
    ensures ScopeKept(ScopeOf(s), s)
  {
    hide HasControl, OnlyKeys, Get, AccountsOk, AccountsOf, AccountsKept, IsIsoShape, IsCalendarTime, Has;
    AccountsAreKept(Get(s, "accounts"));
  }

  lemma DeliveryIsKept(d: Json)
    requires DeliveryOk(d)
    ensures DeliveryKept(DeliveryOf(d), d)
  {
    hide HasControl, OnlyKeys, Get, IsFileName;
  }

  lemma TotalsAreKept(v: Json, currencies: seq<string>)
    requires TotalsOk(v, currencies)
    ensures TotalsKept(TotalsOf(v), v)
  {
    hide IsSignedDecimal;
    if v.Object? {
      forall k | k in TotalsOf(v).amounts
        ensures Get(v, k) == Text(TotalsOf(v).amounts[k])
      {
        var i :| 0 <= i < |v.keys| && v.keys[i] == k;
        assert IsAmount(Get(v, v.keys[i]));
      }
    }
  }

  lemma CurrenciesAreKept(v: Json)
    requires CurrenciesOk(v)
    ensures v.Array? && WordsOf(v) == Words(v.items) && WordsKept(WordsOf(v), v)
  {
    hide Distinct, AllMatch;
    forall i | 0 <= i < |v.items|
      ensures v.items[i] == Text(WordsOf(v)[i])
    {
      assert IsCurrency(v.items[i]);
    }
  }

  lemma FinancialIsKept(f: Json)
    requires FinancialOk(f)
    ensures FinancialKept(FinancialOf(f), f)
  {
    hide HasControl, OnlyKeys, Get, CurrenciesOk, TotalsOk, TotalsOf, TotalsKept, WordsKept, WordsOf;
    CurrenciesAreKept(Get(f, "currencies"));
    var currencies := Words(Get(f, "currencies").items);
    TotalsAreKept(Get(f, "billed_cost_total"), currencies);
    TotalsAreKept(Get(f, "effective_cost_total"), currencies);
  }

  lemma OverlapIsKept(o: Json, ids: set<string>, self: Option<string>)
    requires OverlapOk(o, ids, self)
    ensures OverlapKept(OverlapOf(o), o)
  {
    hide HasControl, OnlyKeys, Get;
  }

  ghost predicate MetadataKept(c: Metadata, m: Json) {
    && OnlyKeys(m, META_KEYS)
    && IdentityKept(c.identity, m)
    && VersionsKept(c.versions, Get(m, "versions"))
    && ScopeKept(c.scope, Get(m, "scope"))
    && DeliveryKept(c.delivery, Get(m, "delivery"))
    && FinancialKept(c.financial, Get(m, "financial"))
    && OverlapKept(c.overlap, Get(m, "overlap"))
  }

  lemma MetadataIsKept(x: Outside, m: Json, ids: set<string>, self: Option<string>)
    requires MetadataOk(x, m, ids, self)
    ensures MetadataKept(MetadataOf(m), m)
  {
    hide OnlyKeys, Get, IdentityOk, VersionsOk, ScopeOk, DeliveryOk, FinancialOk, OverlapOk;
    hide IdentityOf, VersionsOf, ScopeOf, DeliveryOf, FinancialOf, OverlapOf;
    hide IdentityKept, VersionsKept, ScopeKept, DeliveryKept, FinancialKept, OverlapKept;
    IdentityIsKept(m);
    VersionsAreKept(Get(m, "versions"));
    ScopeIsKept(x, Get(m, "scope"));
    DeliveryIsKept(Get(m, "delivery"));
    FinancialIsKept(Get(m, "financial"));
    OverlapIsKept(Get(m, "overlap"), ids, self);
  }

  // ------------------------------------------------------------------- items

  ghost predicate SourceKept(c: Source, s: Json) {
    && OnlyKeys(s, ["id", "providers", "layout", "retrieval", "metadata"])
    && Get(s, "id") == Text(c.id) && Get(s, "layout") == Text(c.layout)
    && WordsKept(c.providers, Get(s, "providers"))
    && RetrievalKept(c.retrieval, Get(s, "retrieval"))
    && MetadataKept(c.metadata, Get(s, "metadata"))
  }

  lemma ProvidersAreKept(v: Json)
    requires ProvidersOk(v)
    ensures WordsKept(WordsOf(v), v)
  {
    hide Distinct;
    forall i | 0 <= i < |v.items|
      ensures v.items[i] == Text(WordsOf(v)[i])
    {
      assert OneOf(v.items[i], FOCUS_PROVIDERS);
    }
  }

  /** A source is taken over as given: identity, providers, layout, retrieval parameters and all its metadata. */
  lemma SourceIsKept(x: Outside, s: Json, ids: set<string>)
    requires SourceOk(x, s, ids)
    ensures SourceKept(SourceOf(s), s)
  {
    hide OnlyKeys, Get, AllMatch, ProvidersOk, RetrievalOk, MetadataOk, RetrievalOf, MetadataOf, WordsOf, WordsKept;
    hide RetrievalKept, MetadataKept;
    ProvidersAreKept(Get(s, "providers"));
    RetrievalIsKept(x, Get(s, "retrieval"));
    MetadataIsKept(x, Get(s, "metadata"), ids, SelfId(s));
  }

  predicate ScenarioKept(c: Scenario, s: Json) {
    var a := Get(s, "assumptions");
    && OnlyKeys(s, ["id", "workload", "currentModel", "candidateModel", "assumptions"])
    && OnlyKeys(a, ["inputTokensPerMonth", "outputTokensPerMonth", "cachedInputShare", "batchShare"])
    && Get(s, "id") == Text(c.id) && Get(s, "workload") == Text(c.workload)
    && Get(s, "currentModel") == Text(c.currentModel) && Get(s, "candidateModel") == Text(c.candidateModel)
    && c.currentModel != c.candidateModel
    && Get(a, "inputTokensPerMonth") == Number(c.inputTokens as real) && c.inputTokens >= 0
    && Get(a, "outputTokensPerMonth") == Number(c.outputTokens as real) && c.outputTokens >= 0
    && (if Has(a, "cachedInputShare") then Get(a, "cachedInputShare") == Number(c.cachedInputShare)
        else c.cachedInputShare == 0.0)
    && (if Has(a, "batchShare") then Get(a, "batchShare") == Number(c.batchShare) else c.batchShare == 0.0)
    && 0.0 <= c.cachedInputShare <= 1.0 && 0.0 <= c.batchShare <= 1.0
  }

  /** A scenario is taken over as given, each model and figure in its own place. */
  lemma ScenarioIsKept(x: Outside, s: Json, wids: set<string>)
    requires ScenarioOk(x, s, wids)
    ensures ScenarioKept(ScenarioOf(s), s)
  {
    hide OnlyKeys, HasControl;
  }

  predicate RuleKept(c: SharedRule, r: Json) {
    && OnlyKeys(r, ["id", "rule", "serviceName", "targets"])
    && Get(r, "id") == Text(c.id) && Get(r, "rule") == Text(c.rule)
    && (if Has(r, "serviceName") then c.serviceName.Some? && Get(r, "serviceName") == Text(c.serviceName.value)
        else c.serviceName.None?)
    && (c.targets.Some? <==> c.rule == "even_split" || Has(r, "targets"))
    && (c.targets.Some? ==> WordsKept(c.targets.value, Get(r, "targets")))
  }

  /** A shared-cost rule is taken over as given; it lists targets when the input does, and for an even split. */
  lemma RuleIsKept(r: Json, wids: set<string>)
    requires RuleOk(r, wids)
    ensures RuleKept(RuleOf(r), r)
  {
    hide OnlyKeys, HasControl;
  }

  predicate WorkloadKept(c: Workload, w: Json) {
    OnlyKeys(w, ["id", "owner"]) && Get(w, "id") == Text(c.id) && Get(w, "owner") == Text(c.owner)
  }

  predicate BudgetKept(c: Budget, b: Json) {
    OnlyKeys(b, ["workload", "monthly"]) && Get(b, "workload") == Text(c.workload) && Get(b, "monthly") == Text(c.monthly)
  }

  ghost predicate AllocationKept(c: Allocation, a: Json) {
    && OnlyKeys(a, ALLOCATION_KEYS)
    && Get(a, "subAccountMap").Object? && Get(a, "workloads").Array? && Get(a, "sharedCostRules").Array?
    && Get(a, "workloadTagKey") == Text(c.workloadTagKey) && Get(a, "ownerTagKey") == Text(c.ownerTagKey)
    && (forall k :: k in c.subAccountMap <==> Has(Get(a, "subAccountMap"), k))
    && (forall k :: k in c.subAccountMap ==> Get(Get(a, "subAccountMap"), k) == Text(c.subAccountMap[k]))
    && |c.workloads| == |Items(Get(a, "workloads"))|
    && (forall i :: 0 <= i < |c.workloads| ==> WorkloadKept(c.workloads[i], Items(Get(a, "workloads"))[i]))
    && |c.sharedCostRules| == |Items(Get(a, "sharedCostRules"))|
    && (forall i :: 0 <= i < |c.sharedCostRules| ==> RuleKept(c.sharedCostRules[i], Items(Get(a, "sharedCostRules"))[i]))
  }

  lemma AccountMapIsKept(m: Json, wids: set<string>)
    requires AccountMapOk(m, wids)
    ensures m.Object?
    ensures forall k :: k in AccountMapOf(m) <==> Has(m, k)
    ensures forall k :: k in AccountMapOf(m) ==> Get(m, k) == Text(AccountMapOf(m)[k])
  {
    hide HasControl;
    forall k | k in AccountMapOf(m)
      ensures Get(m, k) == Text(AccountMapOf(m)[k])
    {
      var i :| 0 <= i < |m.keys| && m.keys[i] == k;
      assert MapEntryOk(m, m.keys[i], wids);
    }
  }

  lemma WorkloadsAreKept(v: Json)
    requires WorkloadsOk(v)
    ensures v.Array?
    ensures forall i :: 0 <= i < |Items(v)| ==> WorkloadKept(WorkloadOf(Items(v)[i]), Items(v)[i])
  {
    hide OnlyKeys, HasControl, Distinct, Get;
    forall i | 0 <= i < |v.items|
      ensures WorkloadKept(WorkloadOf(v.items[i]), v.items[i])
    {
      assert WorkloadOk(v.items[i]);
    }
  }

  lemma RulesAreKept(v: Json, wids: set<string>)
    requires RulesOk(v, wids)
    ensures v.Array?
    ensures forall i :: 0 <= i < |Items(v)| ==> RuleKept(RuleOf(Items(v)[i]), Items(v)[i])
  {
    hide RuleOk, RuleOf, RuleKept, Distinct;
    forall i | 0 <= i < |v.items|
      ensures RuleKept(RuleOf(v.items[i]), v.items[i])
    {
      RuleIsKept(v.items[i], wids);
    }
  }

  lemma AllocationIsKept(a: Json)
    requires AllocationOk(a)
    ensures AllocationKept(AllocationOf(a), a)
  {
    hide OnlyKeys, HasControl, Get, Has, WorkloadsOk, AccountMapOk, AccountMapOf, RulesOk, WorkloadIds, RuleOf, RuleKept;
    hide WorkloadOf, WorkloadKept, Items;
    var wids := WorkloadIds(Get(a, "workloads"));
    AccountMapIsKept(Get(a, "subAccountMap"), wids);
    WorkloadsAreKept(Get(a, "workloads"));
    RulesAreKept(Get(a, "sharedCostRules"), wids);
  }

  lemma BudgetsAreKept(v: Json, wids: set<string>)
    requires BudgetsOk(v, wids)
    ensures forall i :: 0 <= i < |Items(v)| ==> BudgetKept(BudgetOf(Items(v)[i]), Items(v)[i])
  {
    hide OnlyKeys, Distinct, Get, IsDecimal, AtLeastOneCent;
    forall i | 0 <= i < |v.items|
      ensures BudgetKept(BudgetOf(v.items[i]), v.items[i])
    {
      assert BudgetOk(v.items[i], wids);
    }
  }

  lemma ScenariosAreKept(x: Outside, v: Json, wids: set<string>)
    requires ScenariosOk(x, v, wids)
    ensures forall i :: 0 <= i < |Items(v)| ==> ScenarioKept(ScenarioOf(Items(v)[i]), Items(v)[i])
  {
    hide ScenarioOk, ScenarioOf, ScenarioKept, Distinct;
    forall i | 0 <= i < |v.items|
      ensures ScenarioKept(ScenarioOf(v.items[i]), v.items[i])
    {
      ScenarioIsKept(x, v.items[i], wids);
    }
  }

  lemma SourcesAreKept(x: Outside, v: Json)
    requires SourcesOk(x, v)
    ensures forall i :: 0 <= i < |Items(v)| ==> SourceKept(SourceOf(Items(v)[i]), Items(v)[i])
  {
    hide SourceOk, SourceOf, SourceKept, Distinct, SourceIds;
    forall i | 0 <= i < |v.items|
      ensures SourceKept(SourceOf(v.items[i]), v.items[i])
    {
      SourceIsKept(x, v.items[i], SourceIds(v.items));
    }
  }

  /** Each item of one list is the other's, in order. */
  ghost predicate AllKept<T>(items: seq<T>, v: Json, kept: (T, Json) -> bool) {
    v.Array? && |items| == |Items(v)| && forall i :: 0 <= i < |items| ==> kept(items[i], Items(v)[i])
  }

  /** Nothing declared is dropped or misplaced: every part of an accepted configuration is the input's. */
  lemma NothingIsDropped(x: Outside, v: Json)
    requires WellFormed(x, v)
    ensures var cfg := ConfigOf(v);
            && AllKept(cfg.sources, Get(v, "sources"), SourceKept) && cfg.sources != []
            && AllocationKept(cfg.allocation, Get(v, "allocation"))
            && AllKept(cfg.budgets, Get(v, "budgets"), BudgetKept)
            && AllKept(cfg.scenarios, Get(v, "scenarios"), ScenarioKept)
  {
    hide OnlyKeys, IsId, IsUuid, IsText, IsCurrency, IsFilePath, PlatformOk, FlagsOf, Lower, Get, Has, Distinct;
    hide SourceOk, SourceOf, SourceKept, AllocationOk, AllocationOf, AllocationKept, BudgetOk, BudgetOf, BudgetKept;
    hide ScenarioOk, ScenarioOf, ScenarioKept, WorkloadIds;
    var wids := WorkloadIds(Get(Get(v, "allocation"), "workloads"));
    SourcesAreKept(x, Get(v, "sources"));
    AllocationIsKept(Get(v, "allocation"));
    BudgetsAreKept(Get(v, "budgets"), wids);
    ScenariosAreKept(x, Get(v, "scenarios"), wids);
  }

  /** The names of the engagement are the input's, the tenant id in lower case. */
  lemma NamesAreKept(x: Outside, v: Json)
    requires WellFormed(x, v)
    ensures var cfg := ConfigOf(v);
            && Get(v, "engagementId") == Text(cfg.engagementId) && Get(v, "displayName") == Text(cfg.displayName)
            && Get(v, "currency") == Text(cfg.currency)
            && Get(v, "tenantId").Text? && cfg.tenantId == Lower(Get(v, "tenantId").text)
            && (if Has(v, "outcomesFile")
                then cfg.outcomesFile.Some? && Get(v, "outcomesFile") == Text(cfg.outcomesFile.value)
                else cfg.outcomesFile.None?)
            && (cfg.platform.Some? <==> Has(v, "platform"))
  {
    hide OnlyKeys, SourcesOk, AllocationOk, AllocationOf, BudgetsOk, ScenariosOk, PlatformOk, FlagsOf, Lower, Get, Has;
    hide AllMatch, IsHex, HasControl, WorkloadIds;
  }

  // ---------------------------------------------------------- the whole file

  /** A flag that is off may be left out. */
  predicate FlagKept(flag: bool, v: Json) { if flag then v == Bool(true) else v == Absent || v == Bool(false) }

  /** Each flag is that of its own key. */
  predicate PlatformKept(flags: seq<bool>, v: Json) {
    && |flags| == 5
    && (v == Absent || OnlyKeys(v, PLATFORM_KEYS))
    && FlagKept(flags[0], Get(v, "enabled")) && FlagKept(flags[1], Get(v, "economics"))
    && FlagKept(flags[2], Get(v, "adoption")) && FlagKept(flags[3], Get(v, "policyMonitor"))
    && FlagKept(flags[4], Get(v, "enforcement"))
  }

  lemma PlatformIsKept(v: Json)
    requires PlatformOk(v)
    ensures PlatformKept(FlagsOf(v), v)
  {
    hide OnlyKeys, Get;
    AbsentHasNothing();
    if v != Absent {
      forall i | 0 <= i < |PLATFORM_KEYS|
        ensures FlagKept(FlagsOf(v)[i], Get(v, PLATFORM_KEYS[i]))
      {
      }
    }
  }

  lemma AbsentHasNothing()
    ensures forall k :: Get(Absent, k) == Absent
  {
  }

  /** The value spells the configuration: every part under its key, in order, and no other key. */
  ghost predicate Spells(c: Config, v: Json) {
    && OnlyKeys(v, TOP_KEYS)
    && Get(v, "engagementId") == Text(c.engagementId) && Get(v, "displayName") == Text(c.displayName)
    && Get(v, "currency") == Text(c.currency)
    && Get(v, "tenantId").Text? && InLowerCase(Get(v, "tenantId").text, c.tenantId)
    && AllKept(c.sources, Get(v, "sources"), SourceKept)
    && AllocationKept(c.allocation, Get(v, "allocation"))
    && AllKept(c.budgets, Get(v, "budgets"), BudgetKept)
    && AllKept(c.scenarios, Get(v, "scenarios"), ScenarioKept)
    && (if Has(v, "outcomesFile") then c.outcomesFile.Some? && Get(v, "outcomesFile") == Text(c.outcomesFile.value)
        else c.outcomesFile.None?)
    && (if Has(v, "platform") then c.platform.Some? && PlatformKept(c.platform.value, Get(v, "platform"))
        else c.platform.None?)
  }

  /** An accepted value spells the configuration it stands for. */
  lemma AcceptedIsSpelled(x: Outside, v: Json)
    requires WellFormed(x, v)
    ensures Spells(ConfigOf(v), v)
  {
    hide OnlyKeys, IsId, IsText, IsCurrency, IsFilePath, PlatformOk, FlagsOf, Lower, Get, Has, Distinct, IsUuid;
    hide SourcesOk, SourceOf, SourceKept, AllocationOk, AllocationOf, AllocationKept, BudgetsOk, BudgetOf, BudgetKept;
    hide ScenariosOk, ScenarioOf, ScenarioKept, WorkloadIds, AllKept, InLowerCase, LowUuid;
    NothingIsDropped(x, v);
    NamesAreKept(x, v);
    UuidIsText(Get(v, "tenantId"));
    UuidLowered(Get(v, "tenantId").text);
    if Has(v, "platform") {
      PlatformIsKept(Get(v, "platform"));
    }
  }

  lemma UuidIsText(v: Json)
    ensures IsUuid(v) ==> v.Text? && v == Text(v.text)
  {
  }
}
