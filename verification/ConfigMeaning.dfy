/**
 The verdict of src/engagement/config.ts on the configuration itself: a value that spells a configuration is accepted
 exactly when the configuration is sound, and then stands for it.
 */
module ConfigMeaning {
  import opened Basics
  import opened ConfigKept
  import opened ConfigLaws
  import opened ConfigModel
  import opened ConfigMoments
  import opened ConfigRules
  import opened ConfigSound
  import opened ConfigTexts
  import opened JsonValues
  import opened Sequences

  // ---------------------------------------------------------------- metadata

  lemma IdentityMeans(c: Identity, m: Json)
    requires IdentityKept(c, m)
    ensures IdentityOk(m) <==> SoundIdentity(c)
    ensures IdentityOf(m) == c
  {
    hide Get, IsText, Line;
    LineMeans(c.schemaVersion, 32);
    LineMeans(c.dataset, 200);
    LineMeans(c.sanitization, 500);
  }

  lemma VersionFields(v: Json, c: seq<string>)
    requires VersionsKept(c, v)
    ensures |VERSION_FIELDS| == 7 && forall i :: 0 <= i < 7 ==> Get(v, VERSION_FIELDS[i]) == Text(c[i])
    ensures forall i :: 0 <= i < 7 ==> (VERSION_FIELDS[i] == "schema_snapshot_hash" <==> i == 3)
  {
    hide OnlyKeys, Get;
  }

  lemma VersionsMean(c: seq<string>, v: Json)
    requires VersionsKept(c, v)
    ensures VersionsOk(v) <==> SoundVersions(c)
    ensures VersionsOf(v) == c
  {
    hide Get, IsText, Line, IsHash, Fingerprint, OnlyKeys;
    VersionFields(v, c);
    assert OnlyKeys(v, VERSION_FIELDS);
    forall i | 0 <= i < 7
      ensures VersionOk(v, VERSION_FIELDS[i]) <==> if i == 3 then Fingerprint(c[i]) else Line(c[i], 200)
    {
      LineMeans(c[i], 200);
      FingerprintMeans(c[i]);
    }
    assert VersionsOf(v) == c;
  }

  lemma WordsMean(words: seq<string>, v: Json)
    requires WordsKept(words, v)
    ensures v.Array? && |v.items| == |words| && Words(v.items) == words && WordsOf(v) == words
  {
    assert Words(v.items) == words;
  }

  lemma AccountsMean(c: Accounts, v: Json)
    requires AccountsKept(c, v)
    ensures AccountsOk(v) <==> SoundAccounts(c)
    ensures AccountsOf(v) == c
  {
    hide HasControl, OneLine;
    if c.Listed? {
      WordsMean(c.ids, v);
      forall i | 0 <= i < |c.ids|
        ensures IsAccountId(v.items[i]) <==> c.ids[i] != "" && OneLine(c.ids[i], 128)
      {
        OneLineFits(c.ids[i], 128);
      }
    }
  }

  lemma OneLineFits(s: string, max: nat)
    ensures OneLine(s, max) <==> |s| <= max && !HasControl(s)
  {
    OneLineMeans(s);
  }

  lemma PeriodMeans(x: Outside, c: Scope, s: Json)
    requires Get(s, "period_start") == Text(c.periodStart) && Get(s, "period_end") == Text(c.periodEnd)
    ensures PeriodOk(x, s) <==> Forward(x.parseDate, c.periodStart, c.periodEnd)
  {
    hide Get, Timestamp, Dated;
    TimestampMeans(x.parseDate, c.periodStart);
    TimestampMeans(x.parseDate, c.periodEnd);
  }

  lemma ScopeMeans(x: Outside, c: Scope, s: Json)
    requires ScopeKept(c, s)
    ensures ScopeOk(x, s) <==> SoundScope(x, c)
    ensures ScopeOf(s) == c
  {
    hide Get, Has, IsText, Line, OnlyKeys, PeriodOk, Forward, AccountsOk, SoundAccounts, AccountsKept, AccountsOf;
    AccountsMean(c.accounts, Get(s, "accounts"));
    PeriodMeans(x, c, s);
    if c.subset.Some? {
      LineMeans(c.subset.value, 500);
    }
    CompletenessMeans(c, s);
  }

  lemma CompletenessMeans(c: Scope, s: Json)
    requires ScopeKept(c, s)
    ensures CompletenessOk(s) <==>
              if c.completeness == "explicit-subset" then c.subset.Some? && Line(c.subset.value, 500)
              else c.completeness == "full-period" && c.subset.None?
  {
    hide Get, Has, IsText, Line, OnlyKeys, AccountsKept;
    if c.subset.Some? {
      LineMeans(c.subset.value, 500);
    }
  }

  lemma DeliveryMeans(c: Delivery, d: Json)
    requires DeliveryKept(c, d)
    ensures DeliveryOk(d) <==> SoundDelivery(c)
    ensures DeliveryOf(d) == c
  {
    hide Get, IsText, Line, OnlyKeys, IsFileName, FileName;
    LineMeans(c.compression, 40);
    LineMeans(c.manifest, 255);
    LineMeans(c.refreshBehavior, 500);
    FileNameMeans(c.manifest);
  }

  // --------------------------------------------------------------- financial

  lemma SameKeys(keys: seq<string>, names: seq<string>)
    requires Distinct(keys) && Distinct(names)
    ensures (|keys| == |names| && forall k :: k in keys ==> k in names) <==> (forall k :: k in keys <==> k in names)
  {
    DistinctSize(keys);
    DistinctSize(names);
    forall k
      ensures (k in keys <==> k in IdSet(keys)) && (k in names <==> k in IdSet(names))
    {
      MemberOfIdSet(keys, k);
      MemberOfIdSet(names, k);
    }
    if |keys| == |names| && forall k :: k in keys ==> k in names {
      SameSize(IdSet(keys), IdSet(names));
    }
    if forall k :: k in keys <==> k in names {
      assert IdSet(keys) == IdSet(names);
    }
  }

  lemma TotalsMean(c: Totals, v: Json, currencies: seq<string>)
    requires TotalsKept(c, v) && Distinct(currencies)
    ensures TotalsOk(v, currencies) <==> SoundTotals(c, currencies)
    ensures TotalsOf(v) == c
  {
    hide IsSignedDecimal, AmountText, Distinct;
    if c.PerCurrency? {
      var keys: seq<string> := v.keys;
      SameKeys(keys, currencies);
      forall k | k in c.amounts
        ensures IsAmount(Get(v, k)) <==> AmountText(c.amounts[k])
      {
        AmountMeans(c.amounts[k]);
      }
      assert TotalsOf(v).amounts == c.amounts;
    }
  }

  lemma CurrenciesMean(words: seq<string>, v: Json)
    requires WordsKept(words, v)
    ensures CurrenciesOk(v) <==>
              1 <= |words| <= 20 && NoRepeats(words) && forall i :: 0 <= i < |words| ==> Code(words[i])
    ensures NoRepeats(words) <==> Distinct(words)
    ensures WordsOf(v) == words && v.Array? && Words(v.items) == words
  {
    hide Code;
    WordsMean(words, v);
    forall i | 0 <= i < |words|
      ensures IsCurrency(v.items[i]) <==> Code(words[i])
    {
      CodeMeans(words[i]);
    }
  }

  lemma FinancialMeans(c: Financial, f: Json)
    requires FinancialKept(c, f)
    ensures FinancialOk(f) <==> SoundFinancial(c)
    ensures FinancialOf(f) == c
  {
    hide Get, IsText, Line, OnlyKeys, WordsKept, CurrenciesOk, TotalsOk, SoundTotals, TotalsKept, TotalsOf, WordsOf;
    hide NoRepeats, Distinct, Code;
    CurrenciesMean(c.currencies, Get(f, "currencies"));
    LineMeans(c.knownDifferences, 1000);
    if NoRepeats(c.currencies) {
      TotalsMean(c.billed, Get(f, "billed_cost_total"), c.currencies);
      TotalsMean(c.effective, Get(f, "effective_cost_total"), c.currencies);
    }
    TotalsStand(c.billed, Get(f, "billed_cost_total"));
    TotalsStand(c.effective, Get(f, "effective_cost_total"));
  }

  lemma TotalsStand(c: Totals, v: Json)
    requires TotalsKept(c, v)
    ensures TotalsOf(v) == c && (c.NotAvailable? <==> v == NOT_AVAILABLE)
  {
    if c.PerCurrency? {
      assert TotalsOf(v).amounts == c.amounts;
    }
  }

  lemma OverlapMeans(c: Overlap, o: Json, ids: set<string>, self: string)
    requires OverlapKept(c, o)
    ensures OverlapOk(o, ids, Some(self)) <==> SoundOverlap(c, ids, self)
    ensures OverlapOf(o) == c
  {
    hide Get, IsText, Line, OnlyKeys;
    LineMeans(c.related, 63);
  }

  lemma MetadataMeans(x: Outside, c: Metadata, m: Json, ids: set<string>, self: string)
    requires MetadataKept(c, m)
    ensures MetadataOk(x, m, ids, Some(self)) <==> SoundMetadata(x, c, ids, self)
    ensures MetadataOf(m) == c
  {
    hide OnlyKeys, Get, IdentityOk, VersionsOk, ScopeOk, DeliveryOk, FinancialOk, OverlapOk;
    hide IdentityOf, VersionsOf, ScopeOf, DeliveryOf, FinancialOf, OverlapOf;
    hide IdentityKept, VersionsKept, ScopeKept, DeliveryKept, FinancialKept, OverlapKept;
    hide SoundIdentity, SoundVersions, SoundScope, SoundDelivery, SoundFinancial, SoundOverlap;
    IdentityMeans(c.identity, m);
    VersionsMean(c.versions, Get(m, "versions"));
    ScopeMeans(x, c.scope, Get(m, "scope"));
    DeliveryMeans(c.delivery, Get(m, "delivery"));
    FinancialMeans(c.financial, Get(m, "financial"));
    OverlapMeans(c.overlap, Get(m, "overlap"), ids, self);
  }

  // --------------------------------------------------------------- retrieval

  lemma HarmlessMeans(x: Outside, t: string)
    ensures PlainString(x, Text(t)) <==> Harmless(x, t)
  {
    hide HasControl, OneLine;
    OneLineFits(t, 1000);
  }

  lemma LeafMeans(x: Outside, c: Leaf, v: Json)
    requires LeafKept(c, v)
    ensures LeafOk(x, v) <==> SoundLeaf(x, c)
    ensures LeafOf(v) == c && !v.Object?
  {
    hide PlainString, Harmless;
    match c {
      case Str(t) => HarmlessMeans(x, t);
      case Strs(texts) =>
        WordsMean(texts, v);
        forall i | 0 <= i < |texts|
          ensures PlainString(x, v.items[i]) <==> Harmless(x, texts[i])
        {
          HarmlessMeans(x, texts[i]);
        }
        assert !PlainString(x, v) by { TextsOnly(x, v); }
      case Num(_) =>
      case Flag(_) =>
    }
  }

  lemma TextsOnly(x: Outside, v: Json)
    ensures PlainString(x, v) ==> v.Text?
  {
  }

  lemma NestedMeans(x: Outside, entries: map<string, Leaf>, v: Json)
    requires ParamKept(Nested(entries), v)
    ensures NestedOk(x, v) <==> forall k :: k in entries ==> SoundLeaf(x, entries[k])
    ensures NestedOf(v) == entries
  {
    hide LeafKept, LeafOk, LeafOf, SoundLeaf;
    forall k | k in entries
      ensures LeafOk(x, Get(v, k)) <==> SoundLeaf(x, entries[k])
      ensures LeafOf(Get(v, k)) == entries[k] && !Get(v, k).Object?
    {
      LeafMeans(x, entries[k], Get(v, k));
    }
    assert forall k :: k in entries <==> k in v.keys;
  }

  /** The parameters are those of the object. */
  ghost predicate ParamsKept(params: map<string, Param>, p: Json) {
    && (forall k :: k in params <==> Has(p, k))
    && (forall k :: k in params ==> ParamKept(params[k], Get(p, k)))
  }

  lemma ExportNameMeans(params: map<string, Param>, p: Json)
    requires ParamsKept(params, p)
    ensures ExportName(p) == ExportNameOf(params)
  {
    hide LeafKept;
    if "exportName" in params {
      assert ParamKept(params["exportName"], Get(p, "exportName"));
      if params["exportName"].Single? {
        StringLeaf(params["exportName"].leaf, Get(p, "exportName"));
      }
    }
  }

  lemma ParamMeans(x: Outside, connector: string, params: map<string, Param>, p: Json, name: string)
    requires ParamsKept(params, p) && name in params
    ensures ParamOk(x, Text(connector), p, name) <==> SoundParam(x, connector, params, name)
    ensures ParamOf(Get(p, name)) == params[name]
  {
    hide LeafKept, LeafOk, LeafOf, SoundLeaf, NestedOk, NestedOf, ExportName, ExportNameOf;
    ExportNameMeans(params, p);
    var v := Get(p, name);
    match params[name] {
      case Single(leaf) =>
        LeafMeans(x, leaf, v);
        StringLeaf(leaf, v);
      case Nested(entries) => NestedMeans(x, entries, v);
    }
  }

  lemma StringLeaf(leaf: Leaf, v: Json)
    requires LeafKept(leaf, v)
    ensures leaf.Str? <==> v.Text?
    ensures leaf.Str? ==> v.text == leaf.text
  {
  }

  lemma KeyCount<V>(m: map<string, V>, keys: seq<string>)
    requires Distinct(keys) && forall k :: k in m <==> k in keys
    ensures |m| == |keys|
  {
    DistinctSize(keys);
    forall k
      ensures k in keys <==> k in IdSet(keys)
    {
      MemberOfIdSet(keys, k);
    }
    assert m.Keys == IdSet(keys);
  }

  lemma ParamsMean(x: Outside, connector: string, params: map<string, Param>, o: Json)
    requires ParamsKept(params, Get(o, "params")) && (Has(o, "params") ==> Get(o, "params").Object?)
    requires Get(o, "connector") == Text(connector)
    ensures ParamsOk(x, o)
            <==> |params| <= 100 && forall name :: name in params ==> SoundParam(x, connector, params, name)
    ensures ParamsOf(Get(o, "params")) == params
  {
    hide ParamKept, ParamOk, ParamOf, SoundParam;
    var p := Get(o, "params");
    forall name | name in params
      ensures ParamOk(x, Text(connector), p, name) <==> SoundParam(x, connector, params, name)
      ensures ParamOf(Get(p, name)) == params[name]
    {
      ParamMeans(x, connector, params, p, name);
    }
    if p.Object? {
      var keys: seq<string> := p.keys;
      KeyCount(params, keys);
    } else {
      assert params == map[];
    }
  }

  lemma RetrievalMeans(x: Outside, c: Retrieval, v: Json)
    requires RetrievalKept(c, v)
    ensures RetrievalOk(x, v) <==> SoundRetrieval(x, c)
    ensures RetrievalOf(v) == c
  {
    hide OnlyKeys, ParamKept, ParamsOk, ParamsOf, SoundParam, IsSecretRef, SecretName, Get, Has;
    AbsentHasNothing();
    if c.Managed? {
      ParamsMean(x, c.connector, c.params, v);
      if c.secretRef.Some? {
        SecretNameMeans(c.secretRef.value);
      }
    }
  }

  // ----------------------------------------------------------------- sources

  lemma ProvidersMean(words: seq<string>, v: Json)
    requires WordsKept(words, v)
    ensures ProvidersOk(v) <==>
              && 1 <= |words| <= 4 && NoRepeats(words)
              && forall i :: 0 <= i < |words| ==> words[i] in ["AWS", "Microsoft", "Google Cloud", "Oracle"]
    ensures WordsOf(v) == words
  {
    WordsMean(words, v);
  }

  lemma SourceMeansSound(x: Outside, c: Source, s: Json, ids: set<string>)
    requires SourceKept(c, s)
    ensures SourceOk(x, s, ids) <==> SoundSource(x, c, ids)
    ensures SourceOf(s) == c && s.Object?
    ensures Word(Get(s, "id")) == c.id && (IsSourceId(Get(s, "id")) <==> SourceName(c.id))
  {
    hide OnlyKeys, Get, IsSourceId, SourceName, ProvidersOk, WordsKept, WordsOf;
    hide RetrievalOk, RetrievalKept, RetrievalOf, MetadataOk, MetadataKept, MetadataOf, SoundRetrieval, SoundMetadata;
    SourceNameMeans(c.id);
    ProvidersMean(c.providers, Get(s, "providers"));
    RetrievalMeans(x, c.retrieval, Get(s, "retrieval"));
    MetadataMeans(x, c.metadata, Get(s, "metadata"), ids, c.id);
    OnlyKeysObject(s, ["id", "providers", "layout", "retrieval", "metadata"]);
  }

  lemma OnlyKeysObject(v: Json, keys: seq<string>)
    ensures OnlyKeys(v, keys) ==> v.Object?
  {
  }

  lemma SourcesMean(x: Outside, sources: seq<Source>, v: Json)
    requires AllKept(sources, v, SourceKept)
    ensures SourcesOk(x, v) <==> SoundSources(x, sources)
    ensures Map(Items(v), SourceOf) == sources
  {
    hide SourceKept, SourceOk, SoundSource, SourceOf, IsSourceId, SourceName, Get;
    var column := Column(v.items, "id");
    forall i, ids | 0 <= i < |sources|
      ensures SourceOk(x, v.items[i], ids) <==> SoundSource(x, sources[i], ids)
    {
      SourceMeansSound(x, sources[i], v.items[i], ids);
    }
    forall i | 0 <= i < |sources|
      ensures SourceOf(v.items[i]) == sources[i] && column[i] == sources[i].id && v.items[i].Object?
      ensures IsSourceId(Get(v.items[i], "id")) <==> SourceName(sources[i].id)
    {
      SourceMeansSound(x, sources[i], v.items[i], {});
    }
    if forall i :: 0 <= i < |sources| ==> SourceName(sources[i].id) {
      IdsAreNames(sources, v.items);
    }
    NamesNeeded(x, sources, v);
  }

  lemma IdsAreNames(sources: seq<Source>, items: seq<Json>)
    requires |items| == |sources|
    requires forall i :: 0 <= i < |sources| ==>
               items[i].Object? && IsSourceId(Get(items[i], "id")) && Word(Get(items[i], "id")) == sources[i].id
    ensures SourceIds(items) == SourceNames(sources)
  {
    hide IsSourceId, Get;
  }

  /** Both conditions ask for proper names. */
  lemma NamesNeeded(x: Outside, sources: seq<Source>, v: Json)
    requires v.Array? && |v.items| == |sources|
    ensures SourcesOk(x, v) ==> forall i :: 0 <= i < |sources| ==> IsSourceId(Get(v.items[i], "id"))
    ensures SoundSources(x, sources) ==> forall i :: 0 <= i < |sources| ==> SourceName(sources[i].id)
  {
    hide IsSourceId, SourceName, Get, MetadataOk, RetrievalOk, ProvidersOk, SoundMetadata, SoundRetrieval;
  }

  // ------------------------------------------- allocation, budgets, scenarios

  lemma WorkloadMeans(c: Workload, w: Json)
    requires WorkloadKept(c, w)
    ensures WorkloadOk(w) <==> Line(c.id, 128) && Line(c.owner, 128)
    ensures WorkloadOf(w) == c && Word(Get(w, "id")) == c.id
  {
    hide OnlyKeys, Get, IsText, Line;
    LineMeans(c.id, 128);
    LineMeans(c.owner, 128);
  }

  lemma WorkloadsMean(workloads: seq<Workload>, v: Json)
    requires v.Array? && |v.items| == |workloads|
    requires forall i :: 0 <= i < |workloads| ==> WorkloadKept(workloads[i], v.items[i])
    ensures WorkloadsOk(v) <==> SoundWorkloads(workloads)
    ensures Map(Items(v), WorkloadOf) == workloads && WorkloadIds(v) == WorkloadNames(workloads)
  {
    hide WorkloadKept, WorkloadOk, WorkloadOf, Line, Get;
    var column := Column(v.items, "id");
    forall i | 0 <= i < |workloads|
      ensures WorkloadOk(v.items[i]) <==> Line(workloads[i].id, 128) && Line(workloads[i].owner, 128)
      ensures WorkloadOf(v.items[i]) == workloads[i] && column[i] == workloads[i].id
    {
      WorkloadMeans(workloads[i], v.items[i]);
    }
  }

  lemma AccountMapMeans(c: map<string, string>, m: Json, wids: set<string>)
    requires m.Object? && (forall k :: k in c <==> Has(m, k)) && (forall k :: k in c ==> Get(m, k) == Text(c[k]))
    ensures AccountMapOk(m, wids) <==> SoundAccountMap(c, wids)
    ensures AccountMapOf(m) == c
  {
    hide HasControl, OneLine;
    var keys: seq<string> := m.keys;
    KeyCount(c, keys);
    forall k | k in c
      ensures MapEntryOk(m, k, wids) <==> k != "" && OneLine(k, 128) && c[k] in wids
    {
      OneLineFits(k, 128);
    }
    assert AccountMapOf(m) == c;
  }

  lemma RuleMeans(c: SharedRule, r: Json, wids: set<string>)
    requires RuleKept(c, r)
    ensures RuleOk(r, wids) <==> SoundRule(c, wids)
    ensures RuleOf(r) == c && Word(Get(r, "id")) == c.id
  {
    hide OnlyKeys, Get, Has, IsText, Line, WordsKept, WordsOf, TargetsOk;
    LineMeans(c.id, 63);
    if c.serviceName.Some? {
      LineMeans(c.serviceName.value, 200);
    }
    if c.targets.Some? {
      TargetsMean(c.targets.value, Get(r, "targets"), wids);
    }
  }

  lemma TargetsMean(words: seq<string>, v: Json, wids: set<string>)
    requires WordsKept(words, v)
    ensures TargetsOk(v, wids) <==> 1 <= |words| <= 1000 && forall i :: 0 <= i < |words| ==> words[i] in wids
    ensures WordsOf(v) == words
  {
    WordsMean(words, v);
  }

  lemma RulesMean(rules: seq<SharedRule>, v: Json, wids: set<string>)
    requires v.Array? && |v.items| == |rules|
    requires forall i :: 0 <= i < |rules| ==> RuleKept(rules[i], v.items[i])
    ensures RulesOk(v, wids) <==> SoundRules(rules, wids)
    ensures Map(Items(v), RuleOf) == rules
  {
    hide RuleKept, RuleOk, RuleOf, SoundRule, Get;
    var column := Column(v.items, "id");
    forall i | 0 <= i < |rules|
      ensures RuleOk(v.items[i], wids) <==> SoundRule(rules[i], wids)
      ensures RuleOf(v.items[i]) == rules[i] && column[i] == rules[i].id
    {
      RuleMeans(rules[i], v.items[i], wids);
    }
  }

  lemma AllocationMeans(c: Allocation, a: Json)
    requires AllocationKept(c, a)
    ensures AllocationOk(a) <==> SoundAllocation(c)
    ensures AllocationOf(a) == c && WorkloadIds(Get(a, "workloads")) == WorkloadNames(c.workloads)
  {
    hide OnlyKeys, Get, Has, IsText, Line, WorkloadKept, RuleKept, WorkloadsOk, SoundWorkloads, AccountMapOk;
    hide SoundAccountMap, RulesOk, SoundRules, WorkloadIds, WorkloadNames, AccountMapOf, WorkloadOf, RuleOf, Map;
    LineMeans(c.workloadTagKey, 128);
    LineMeans(c.ownerTagKey, 128);
    WorkloadsMean(c.workloads, Get(a, "workloads"));
    AccountMapMeans(c.subAccountMap, Get(a, "subAccountMap"), WorkloadNames(c.workloads));
    RulesMean(c.sharedCostRules, Get(a, "sharedCostRules"), WorkloadNames(c.workloads));
  }

  lemma BudgetMeans(c: Budget, b: Json, wids: set<string>)
    requires BudgetKept(c, b)
    ensures BudgetOk(b, wids) <==> c.workload in wids && Money(c.monthly)
    ensures BudgetOf(b) == c && Word(Get(b, "workload")) == c.workload
  {
    hide OnlyKeys, Get, IsBudget, Money;
    MoneyMeans(c.monthly);
  }

  lemma BudgetsMean(budgets: seq<Budget>, v: Json, wids: set<string>)
    requires AllKept(budgets, v, BudgetKept)
    ensures BudgetsOk(v, wids) <==> SoundBudgets(budgets, wids)
    ensures Map(Items(v), BudgetOf) == budgets
  {
    hide BudgetKept, BudgetOk, BudgetOf, Money, Get;
    var column := Column(v.items, "workload");
    forall i | 0 <= i < |budgets|
      ensures BudgetOk(v.items[i], wids) <==> budgets[i].workload in wids && Money(budgets[i].monthly)
      ensures BudgetOf(v.items[i]) == budgets[i] && column[i] == budgets[i].workload
    {
      BudgetMeans(budgets[i], v.items[i], wids);
    }
  }

  lemma TokensMean(v: Json, n: int)
    requires v == Number(n as real)
    ensures IsTokenCount(v) <==> 0 <= n <= 0x1F_FFFF_FFFF_FFFF
    ensures v.num.Floor == n
  {
  }

  lemma ScenarioMeans(x: Outside, c: Scenario, s: Json, wids: set<string>)
    requires ScenarioKept(c, s)
    ensures ScenarioOk(x, s, wids) <==> SoundScenario(x, c, wids)
    ensures ScenarioOf(s) == c && Word(Get(s, "id")) == c.id
  {
    hide OnlyKeys, Get, Has, IsText, Line, IsTokenCount;
    var a := Get(s, "assumptions");
    LineMeans(c.id, 63);
    TokensMean(Get(a, "inputTokensPerMonth"), c.inputTokens);
    TokensMean(Get(a, "outputTokensPerMonth"), c.outputTokens);
    AbsentIsNothing(a, "cachedInputShare");
    AbsentIsNothing(a, "batchShare");
  }

  lemma AbsentIsNothing(v: Json, k: string)
    ensures !Has(v, k) ==> Get(v, k) == Absent
  {
  }

  lemma ScenariosMean(x: Outside, scenarios: seq<Scenario>, v: Json, wids: set<string>)
    requires AllKept(scenarios, v, ScenarioKept)
    ensures ScenariosOk(x, v, wids) <==> SoundScenarios(x, scenarios, wids)
    ensures Map(Items(v), ScenarioOf) == scenarios
  {
    hide ScenarioKept, ScenarioOk, ScenarioOf, SoundScenario, Get;
    var column := Column(v.items, "id");
    forall i | 0 <= i < |scenarios|
      ensures ScenarioOk(x, v.items[i], wids) <==> SoundScenario(x, scenarios[i], wids)
      ensures ScenarioOf(v.items[i]) == scenarios[i] && column[i] == scenarios[i].id
    {
      ScenarioMeans(x, scenarios[i], v.items[i], wids);
    }
  }

  // ---------------------------------------------------------- the whole file

  lemma PlatformFlags(flags: seq<bool>, v: Json)
    requires PlatformKept(flags, v)
    ensures |PLATFORM_KEYS| == 5 && forall i :: 0 <= i < 5 ==> FlagKept(flags[i], Get(v, PLATFORM_KEYS[i]))
    ensures forall i :: 0 <= i < 4 ==> CAPABILITIES[i] == PLATFORM_KEYS[i + 1]
    ensures PLATFORM_KEYS[0] == "enabled"
  {
    hide OnlyKeys, Get, FlagKept;
  }

  lemma PlatformMeans(flags: seq<bool>, v: Json)
    requires PlatformKept(flags, v)
    ensures PlatformOk(v) <==> SoundFlags(flags)
    ensures FlagsOf(v) == flags
  {
    hide OnlyKeys, Get;
    PlatformFlags(flags, v);
    AbsentHasNothing();
    forall i | 0 <= i < 5
      ensures IsOn(v, PLATFORM_KEYS[i]) <==> flags[i]
    {
      assert FlagKept(flags[i], Get(v, PLATFORM_KEYS[i]));
    }
    if PlatformOk(v) && v != Absent {
      forall i | 1 <= i < 5 && flags[i]
        ensures flags[0]
      {
        assert IsOn(v, CAPABILITIES[i - 1]);
      }
    }
    assert FlagsOf(v) == flags;
  }

  lemma TenantMeans(v: Json, low: string)
    requires v.Text? && InLowerCase(v.text, low)
    ensures IsUuid(v) <==> LowUuid(low)
    ensures Lower(Word(v)) == low
  {
    hide LowUuid;
    LoweredIs(v.text, low);
    if IsUuid(v) {
      UuidLowered(v.text);
    }
    if LowUuid(low) {
      LoweredUuid(v.text, low);
    }
  }

  lemma LoweredIs(s: string, low: string)
    requires InLowerCase(s, low)
    ensures Lower(s) == low
  {
  }

  /**
   A value that spells a configuration is accepted exactly when the configuration is sound, and it stands for the
   configuration it spells.
   */
  lemma SpelledIsAcceptedExactlyWhenSound(x: Outside, c: Config, v: Json)
    requires Spells(c, v)
    ensures WellFormed(x, v) <==> Sound(x, c)
    ensures ConfigOf(v) == c
  {
    hide OnlyKeys, Get, Has, IsId, Slug, IsUuid, LowUuid, IsText, Line, IsCurrency, Code, InLowerCase;
    hide IsFilePath, FilePath;
    hide SourceKept, AllocationKept, BudgetKept, ScenarioKept, AllKept, PlatformKept, PlatformOk, SoundFlags, FlagsOf;
    hide SourcesOk, SoundSources, AllocationOk, SoundAllocation, BudgetsOk, SoundBudgets, ScenariosOk, SoundScenarios;
    hide SourceOf, AllocationOf, BudgetOf, ScenarioOf, Map, Items, WorkloadIds, WorkloadNames, Lower;
    var wids := WorkloadNames(c.allocation.workloads);
    SlugMeans(c.engagementId);
    LineMeans(c.displayName, 120);
    CodeMeans(c.currency);
    TenantMeans(Get(v, "tenantId"), c.tenantId);
    SourcesMean(x, c.sources, Get(v, "sources"));
    AllocationMeans(c.allocation, Get(v, "allocation"));
    BudgetsMean(c.budgets, Get(v, "budgets"), wids);
    ScenariosMean(x, c.scenarios, Get(v, "scenarios"), wids);
    if c.outcomesFile.Some? {
      FilePathMeans(c.outcomesFile.value);
    }
    if c.platform.Some? {
      PlatformMeans(c.platform.value, Get(v, "platform"));
    }
  }
}
