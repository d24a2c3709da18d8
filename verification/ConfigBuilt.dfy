/**
 Every sound configuration can be written down: the JSON value built from it spells it, so src/engagement/config.ts
 accepts that value and hands out the configuration again.
 */
module ConfigBuilt {
  import opened Basics
  import opened ConfigKept
  import opened ConfigMeaning
  import opened ConfigModel
  import opened ConfigMoments
  import opened ConfigRules
  import opened ConfigSound
  import opened ConfigTexts
  import opened JsonValues
  import opened Sequences

  // ---------------------------------------------------------------- building

  /** The object with these keys and values. */
  ghost function Obj(names: seq<string>, values: seq<Json>): (o: Json)
    ensures o.Object?
  {
    if Distinct(names) && |names| == |values| then Object(names, map i | 0 <= i < |names| :: names[i] := values[i])
    else EMPTY
  }

  lemma ObjHas(names: seq<string>, values: seq<Json>, allowed: seq<string>)
    requires Distinct(names) && |names| == |values| && forall i :: 0 <= i < |names| ==> names[i] in allowed
    ensures OnlyKeys(Obj(names, values), allowed)
    ensures forall i :: 0 <= i < |names| ==> Get(Obj(names, values), names[i]) == values[i]
    ensures forall k :: Has(Obj(names, values), k) <==> k in names
    ensures forall k :: k !in names ==> Get(Obj(names, values), k) == Absent
  {
    forall i | 0 <= i < |names|
      ensures Get(Obj(names, values), names[i]) == values[i]
    {
      assert names[i] in names;
    }
  }

  /** The object with one more key when it applies. */
  ghost function Adding(o: Json, more: bool, name: string, value: Json): (r: Json)
    requires o.Object?
    ensures r.Object?
  {
    if more && name !in o.keys then Object(o.keys + [name], o.values[name := value]) else o
  }

  lemma AddingHas(o: Json, more: bool, name: string, value: Json, allowed: seq<string>)
    requires OnlyKeys(o, allowed) && !Has(o, name) && name in allowed
    ensures OnlyKeys(Adding(o, more, name, value), allowed)
    ensures Has(Adding(o, more, name, value), name) <==> more
    ensures more ==> Get(Adding(o, more, name, value), name) == value
    ensures forall k :: k != name ==>
              && (Has(Adding(o, more, name, value), k) <==> Has(o, k))
              && Get(Adding(o, more, name, value), k) == Get(o, k)
  {
  }

  /** The keys of a set in some order. */
  ghost function Listing(keys: set<string>): (r: seq<string>)
    ensures Distinct(r) && forall k :: k in r <==> k in keys
  {
    if keys == {} then []
    else
      var k :| k in keys;
      [k] + Listing(keys - {k})
  }

  ghost function MapObj<V>(m: map<string, V>, f: V -> Json): Json {
    var names := Listing(m.Keys);
    Obj(names, seq(|names|, i requires 0 <= i < |names| => f(m[names[i]])))
  }

  lemma MapObjHas<V>(m: map<string, V>, f: V -> Json)
    ensures MapObj(m, f).Object?
    ensures forall k :: Has(MapObj(m, f), k) <==> k in m
    ensures forall k :: k in m ==> Get(MapObj(m, f), k) == f(m[k])
  {
    hide Distinct;
    var names := Listing(m.Keys);
    var values := seq(|names|, i requires 0 <= i < |names| => f(m[names[i]]));
    ObjHas(names, values, names);
    forall k | k in m
      ensures Get(MapObj(m, f), k) == f(m[k])
    {
      assert k in names;
      var i :| 0 <= i < |names| && names[i] == k;
      assert values[i] == f(m[names[i]]);
    }
  }

  function WordsJson(words: seq<string>): Json { Array(seq(|words|, i requires 0 <= i < |words| => Text(words[i]))) }

  // ---------------------------------------------------------------- metadata

  ghost function VersionsJson(c: seq<string>): Json { Obj(VERSION_FIELDS, WordsJson(c).items) }

  lemma VersionNames()
    ensures Distinct(VERSION_FIELDS)
  {
  }

  lemma VersionsBuilt(c: seq<string>)
    requires |c| == 7
    ensures VersionsKept(c, VersionsJson(c))
  {
    hide Get, Distinct, OnlyKeys;
    VersionNames();
    var f := VERSION_FIELDS;
    ObjHas(f, WordsJson(c).items, f);
    assert f[0] == "provider_product" && f[1] == "api_version" && f[2] == "export_schema_version"
           && f[3] == "schema_snapshot_hash" && f[4] == "focus_version" && f[5] == "mapping_version"
           && f[6] == "canonical_model_version";
  }

  function AccountsJson(c: Accounts): Json {
    match c
    case Described(word) => Text(word)
    case Listed(ids) => WordsJson(ids)
  }

  const SCOPE_NAMES := ["accounts", "period_start", "period_end", "period_end_semantics", "timezone", "completeness"]

  /** The fields every scope has. */
  ghost function ScopeBase(c: Scope): Json
  {
    Obj(SCOPE_NAMES, [AccountsJson(c.accounts), Text(c.periodStart), Text(c.periodEnd), Text(c.periodEndSemantics),
                      Text(c.timezone), Text(c.completeness)])
  }

  ghost function ScopeJson(c: Scope): Json
  {
    Adding(ScopeBase(c), c.subset.Some?, "subset_description", Text(Or(c.subset)))
  }

  function Or(s: Option<string>): string { if s.Some? then s.value else "" }

  lemma ScopeNames()
    ensures Distinct(SCOPE_NAMES) && "subset_description" !in SCOPE_NAMES && "subset_description" in SCOPE_KEYS
    ensures forall i :: 0 <= i < |SCOPE_NAMES| ==> SCOPE_NAMES[i] in SCOPE_KEYS
  {
  }

  lemma ScopeBaseBuilt(c: Scope)
    ensures var o := ScopeBase(c);
            && OnlyKeys(o, SCOPE_KEYS) && Get(o, "accounts") == AccountsJson(c.accounts)
            && Get(o, "period_start") == Text(c.periodStart) && Get(o, "period_end") == Text(c.periodEnd)
            && Get(o, "period_end_semantics") == Text(c.periodEndSemantics)
            && Get(o, "timezone") == Text(c.timezone) && Get(o, "completeness") == Text(c.completeness)
            && !Has(o, "subset_description")
  {
    hide Get, Distinct, OnlyKeys, Has, AccountsJson;
    ScopeNames();
    var f := SCOPE_NAMES;
    ObjHas(f, [AccountsJson(c.accounts), Text(c.periodStart), Text(c.periodEnd), Text(c.periodEndSemantics),
               Text(c.timezone), Text(c.completeness)], SCOPE_KEYS);
    assert f[0] == "accounts" && f[1] == "period_start" && f[2] == "period_end" && f[3] == "period_end_semantics"
           && f[4] == "timezone" && f[5] == "completeness";
  }

  lemma ScopeBuilt(x: Outside, c: Scope)
    requires SoundScope(x, c)
    ensures ScopeKept(c, ScopeJson(c))
  {
    hide Get, OnlyKeys, Has, Line, Forward, SoundAccounts, Distinct, ScopeBase, Adding;
    ScopeNames();
    ScopeBaseBuilt(c);
    AddingHas(ScopeBase(c), c.subset.Some?, "subset_description", Text(Or(c.subset)), SCOPE_KEYS);
    AccountsBuilt(c.accounts);
  }

  lemma AccountsBuilt(c: Accounts)
    ensures AccountsKept(c, AccountsJson(c))
  {
  }

  ghost function DeliveryJson(c: Delivery): Json
  {
    Obj(DELIVERY_KEYS, [Text(c.format), Text(c.compression), Text(c.manifest), Text(c.refreshBehavior)])
  }

  lemma DeliveryBuilt(c: Delivery)
    ensures DeliveryKept(c, DeliveryJson(c))
  {
    hide Get, OnlyKeys;
    var f := DELIVERY_KEYS;
    ObjHas(f, [Text(c.format), Text(c.compression), Text(c.manifest), Text(c.refreshBehavior)], f);
    assert f[0] == "format" && f[1] == "compression" && f[2] == "manifest" && f[3] == "refresh_behavior";
  }

  // --------------------------------------------------------------- financial

  function AmountJson(): string -> Json { (t: string) => Text(t) }

  ghost function TotalsJson(c: Totals): Json {
    match c
    case NotAvailable => NOT_AVAILABLE
    case PerCurrency(amounts) => MapObj(amounts, AmountJson())
  }

  lemma TotalsBuilt(c: Totals)
    ensures TotalsKept(c, TotalsJson(c))
  {
    hide MapObj, Get, Has;
    if c.PerCurrency? {
      MapObjHas(c.amounts, AmountJson());
    }
  }

  ghost function FinancialJson(c: Financial): Json {
    Obj(FINANCIAL_KEYS, [WordsJson(c.currencies), TotalsJson(c.billed), TotalsJson(c.effective), Text(c.credits),
                         Text(c.tax), Text(c.controlTotalSource), Text(c.knownDifferences)])
  }

  lemma FinancialNames()
    ensures Distinct(FINANCIAL_KEYS)
  {
  }

  lemma FinancialBuilt(c: Financial)
    ensures FinancialKept(c, FinancialJson(c))
  {
    hide Get, OnlyKeys, Distinct, TotalsJson, TotalsKept;
    FinancialNames();
    TotalsBuilt(c.billed);
    TotalsBuilt(c.effective);
    var f := FINANCIAL_KEYS;
    ObjHas(f, [WordsJson(c.currencies), TotalsJson(c.billed), TotalsJson(c.effective), Text(c.credits),
               Text(c.tax), Text(c.controlTotalSource), Text(c.knownDifferences)], f);
    assert f[0] == "currencies" && f[1] == "billed_cost_total" && f[2] == "effective_cost_total"
           && f[3] == "credits_coverage" && f[4] == "tax_coverage" && f[5] == "control_total_source"
           && f[6] == "known_differences";
  }

  const OVERLAP_NAMES := ["also_present_in_other_source", "related_source"]

  ghost function OverlapJson(c: Overlap): Json { Obj(OVERLAP_NAMES, [Text(c.also), Text(c.related)]) }

  lemma OverlapBuilt(c: Overlap)
    ensures OverlapKept(c, OverlapJson(c))
  {
    hide Get, OnlyKeys;
    var f := OVERLAP_NAMES;
    ObjHas(f, [Text(c.also), Text(c.related)], f);
    assert f[0] == "also_present_in_other_source" && f[1] == "related_source";
  }

  function MetaIdentity(c: Identity): seq<Json> {
    [Text(c.provider), Text(c.sourceKind), Text(c.schemaVersion), Text(c.costBasis), Text(c.dataset),
     Text(c.sourceRole)]
  }

  ghost function MetaValues(c: Metadata): seq<Json> {
    MetaIdentity(c.identity)
    + [VersionsJson(c.versions), Text(c.identity.provenance), Text(c.identity.sanitization), ScopeJson(c.scope),
       DeliveryJson(c.delivery), FinancialJson(c.financial), OverlapJson(c.overlap)]
  }

  ghost function MetadataJson(c: Metadata): Json { Obj(META_KEYS, MetaValues(c)) }

  lemma MetaNames()
    ensures Distinct(META_KEYS)
  {
  }

  lemma MetaFields()
    ensures var f := META_KEYS;
            && |f| == 13 && f[0] == "provider" && f[1] == "source_kind" && f[2] == "schema_version"
            && f[3] == "cost_basis" && f[4] == "dataset" && f[5] == "source_role" && f[6] == "versions"
            && f[7] == "provenance" && f[8] == "sanitization" && f[9] == "scope" && f[10] == "delivery"
            && f[11] == "financial" && f[12] == "overlap"
  {
  }

  lemma MetadataBuilt(x: Outside, c: Metadata, ids: set<string>, self: string)
    requires SoundMetadata(x, c, ids, self)
    ensures MetadataKept(c, MetadataJson(c))
  {
    hide Get, OnlyKeys, Distinct, VersionsJson, ScopeJson, DeliveryJson, FinancialJson, OverlapJson;
    hide SoundIdentity, SoundScope, SoundDelivery, SoundFinancial, SoundOverlap;
    hide VersionsKept, ScopeKept, DeliveryKept, FinancialKept, OverlapKept;
    VersionsBuilt(c.versions);
    ScopeBuilt(x, c.scope);
    DeliveryBuilt(c.delivery);
    FinancialBuilt(c.financial);
    OverlapBuilt(c.overlap);
    MetaNames();
    MetaFields();
    ObjHas(META_KEYS, MetaValues(c), META_KEYS);
  }

  // --------------------------------------------------------------- retrieval

  function LeafJson(): Leaf -> Json {
    (c: Leaf) =>
      match c
      case Str(t) => Text(t)
      case Num(n) => Number(n)
      case Flag(b) => Bool(b)
      case Strs(ts) => WordsJson(ts)
  }

  ghost function ParamJson(c: Param): Json {
    match c
    case Single(leaf) => LeafJson()(leaf)
    case Nested(entries) => MapObj(entries, LeafJson())
  }

  lemma ParamBuilt(c: Param)
    ensures ParamKept(c, ParamJson(c))
  {
    hide MapObj, Get, Has;
    if c.Nested? {
      MapObjHas(c.entries, LeafJson());
    }
  }

  ghost function ParamsJson(params: map<string, Param>): Json { MapObj(params, (p: Param) => ParamJson(p)) }

  lemma ParamsBuilt(params: map<string, Param>)
    ensures ParamsJson(params).Object?
    ensures forall k :: k in params <==> Has(ParamsJson(params), k)
    ensures forall k :: k in params ==> ParamKept(params[k], Get(ParamsJson(params), k))
  {
    hide MapObj, Get, Has, ParamKept, ParamJson;
    MapObjHas(params, (p: Param) => ParamJson(p));
    forall k | k in params
      ensures ParamKept(params[k], Get(ParamsJson(params), k))
    {
      ParamBuilt(params[k]);
    }
  }

  const MANAGED_NAMES := ["kind", "connector", "params"]

  /** The fields every managed retrieval has. */
  ghost function ManagedBase(connector: string, params: map<string, Param>): (o: Json)
    ensures o.Object?
  {
    Obj(MANAGED_NAMES, [Text("managed"), Text(connector), ParamsJson(params)])
  }

  lemma ManagedBaseBuilt(connector: string, params: map<string, Param>)
    ensures var o := ManagedBase(connector, params);
            && OnlyKeys(o, RETRIEVAL_KEYS) && !Has(o, "secretRef")
            && Get(o, "kind") == Text("managed") && Get(o, "connector") == Text(connector)
            && Has(o, "params") && Get(o, "params") == ParamsJson(params)
  {
    hide Get, Has, OnlyKeys, ParamsJson;
    var f := MANAGED_NAMES;
    ObjHas(f, [Text("managed"), Text(connector), ParamsJson(params)], RETRIEVAL_KEYS);
    assert f[0] == "kind" && f[1] == "connector" && f[2] == "params";
  }

  ghost function RetrievalJson(c: Retrieval): Json {
    match c
    case FileDrop => Absent
    case Managed(connector, params, secretRef) =>
      Adding(ManagedBase(connector, params), secretRef.Some?, "secretRef", Text(Or(secretRef)))
  }

  lemma RetrievalBuilt(c: Retrieval)
    ensures RetrievalKept(c, RetrievalJson(c))
  {
    hide Get, Has, OnlyKeys, ParamsJson, ParamKept, Adding, ManagedBase;
    if c.Managed? {
      ManagedBaseBuilt(c.connector, c.params);
      AddingHas(ManagedBase(c.connector, c.params), c.secretRef.Some?, "secretRef", Text(Or(c.secretRef)), RETRIEVAL_KEYS);
      ParamsBuilt(c.params);
    }
  }

  // ------------------------------------------- sources, workloads and rules

  const SOURCE_NAMES := ["id", "providers", "layout", "retrieval", "metadata"]

  ghost function SourceJson(c: Source): Json {
    Obj(SOURCE_NAMES, [Text(c.id), WordsJson(c.providers), Text(c.layout), RetrievalJson(c.retrieval),
                       MetadataJson(c.metadata)])
  }

  lemma SourceBuilt(x: Outside, c: Source, ids: set<string>)
    requires SoundSource(x, c, ids)
    ensures SourceKept(c, SourceJson(c))
  {
    hide Get, OnlyKeys, RetrievalJson, MetadataJson, RetrievalKept, MetadataKept, SoundRetrieval, SoundMetadata;
    RetrievalBuilt(c.retrieval);
    MetadataBuilt(x, c.metadata, ids, c.id);
    var f := SOURCE_NAMES;
    ObjHas(f, [Text(c.id), WordsJson(c.providers), Text(c.layout), RetrievalJson(c.retrieval),
               MetadataJson(c.metadata)], f);
    assert f[0] == "id" && f[1] == "providers" && f[2] == "layout" && f[3] == "retrieval" && f[4] == "metadata";
  }

  ghost function WorkloadJson(c: Workload): Json { Obj(["id", "owner"], [Text(c.id), Text(c.owner)]) }

  lemma WorkloadBuilt(c: Workload)
    ensures WorkloadKept(c, WorkloadJson(c))
  {
    hide Get, OnlyKeys;
    var f := ["id", "owner"];
    ObjHas(f, [Text(c.id), Text(c.owner)], f);
    assert f[0] == "id" && f[1] == "owner";
  }

  const RULE_NAMES := ["id", "rule", "serviceName", "targets"]

  ghost function RuleJson(c: SharedRule): Json {
    Adding(Adding(Obj(["id", "rule"], [Text(c.id), Text(c.rule)]), c.serviceName.Some?, "serviceName",
                  Text(Or(c.serviceName))),
           c.targets.Some?, "targets", WordsJson(if c.targets.Some? then c.targets.value else []))
  }

  lemma RuleBuilt(c: SharedRule)
    requires c.rule == "even_split" ==> c.targets.Some?
    ensures RuleKept(c, RuleJson(c))
  {
    hide Get, Has, OnlyKeys, Adding;
    var f, values := ["id", "rule"], [Text(c.id), Text(c.rule)];
    ObjHas(f, values, RULE_NAMES);
    assert f[0] == "id" && f[1] == "rule";
    var named := Adding(Obj(f, values), c.serviceName.Some?, "serviceName", Text(Or(c.serviceName)));
    AddingHas(Obj(f, values), c.serviceName.Some?, "serviceName", Text(Or(c.serviceName)), RULE_NAMES);
    var targets := WordsJson(if c.targets.Some? then c.targets.value else []);
    AddingHas(named, c.targets.Some?, "targets", targets, RULE_NAMES);
  }

  ghost function Listed<T>(items: seq<T>, f: T -> Json): Json { Array(Map(items, f)) }

  const ALLOCATION_NAMES := ["workloadTagKey", "ownerTagKey", "subAccountMap", "workloads", "sharedCostRules"]

  ghost function AllocationJson(c: Allocation): Json {
    Obj(ALLOCATION_NAMES,
        [Text(c.workloadTagKey), Text(c.ownerTagKey), MapObj(c.subAccountMap, AmountJson()),
         Listed(c.workloads, (w: Workload) => WorkloadJson(w)),
         Listed(c.sharedCostRules, (r: SharedRule) => RuleJson(r))])
  }

  lemma AllocationFields(c: Allocation)
    ensures var o := AllocationJson(c);
            && OnlyKeys(o, ALLOCATION_KEYS)
            && Get(o, "workloadTagKey") == Text(c.workloadTagKey) && Get(o, "ownerTagKey") == Text(c.ownerTagKey)
            && Get(o, "subAccountMap") == MapObj(c.subAccountMap, AmountJson())
            && Get(o, "workloads") == Listed(c.workloads, (w: Workload) => WorkloadJson(w))
            && Get(o, "sharedCostRules") == Listed(c.sharedCostRules, (r: SharedRule) => RuleJson(r))
  {
    hide Get, Has, OnlyKeys, MapObj, WorkloadJson, RuleJson, Listed;
    var f := ALLOCATION_NAMES;
    ObjHas(f, [Text(c.workloadTagKey), Text(c.ownerTagKey), MapObj(c.subAccountMap, AmountJson()),
               Listed(c.workloads, (w: Workload) => WorkloadJson(w)),
               Listed(c.sharedCostRules, (r: SharedRule) => RuleJson(r))], ALLOCATION_KEYS);
    assert f[0] == "workloadTagKey" && f[1] == "ownerTagKey" && f[2] == "subAccountMap" && f[3] == "workloads"
           && f[4] == "sharedCostRules";
  }

  lemma AllocationBuilt(c: Allocation)
    requires SoundAllocation(c)
    ensures AllocationKept(c, AllocationJson(c))
  {
    hide Get, Has, OnlyKeys, MapObj, WorkloadJson, RuleJson, WorkloadKept, RuleKept, AllocationJson;
    hide SoundWorkloads, SoundAccountMap, SoundRule, Line;
    AllocationFields(c);
    MapObjHas(c.subAccountMap, AmountJson());
    forall i | 0 <= i < |c.workloads|
      ensures WorkloadKept(c.workloads[i], WorkloadJson(c.workloads[i]))
    {
      WorkloadBuilt(c.workloads[i]);
    }
    forall i | 0 <= i < |c.sharedCostRules|
      ensures RuleKept(c.sharedCostRules[i], RuleJson(c.sharedCostRules[i]))
    {
      EvenSplitHasTargets(c.sharedCostRules[i], WorkloadNames(c.workloads));
      RuleBuilt(c.sharedCostRules[i]);
    }
  }

  lemma EvenSplitHasTargets(c: SharedRule, wids: set<string>)
    requires SoundRule(c, wids)
    ensures c.rule == "even_split" ==> c.targets.Some?
  {
  }

  // --------------------------------------------------- budgets and scenarios

  ghost function BudgetJson(c: Budget): Json { Obj(["workload", "monthly"], [Text(c.workload), Text(c.monthly)]) }

  lemma BudgetBuilt(c: Budget)
    ensures BudgetKept(c, BudgetJson(c))
  {
    hide Get, OnlyKeys;
    var f := ["workload", "monthly"];
    ObjHas(f, [Text(c.workload), Text(c.monthly)], f);
    assert f[0] == "workload" && f[1] == "monthly";
  }

  const ASSUMPTION_NAMES := ["inputTokensPerMonth", "outputTokensPerMonth", "cachedInputShare", "batchShare"]

  ghost function AssumptionsJson(c: Scenario): Json {
    Obj(ASSUMPTION_NAMES, [Number(c.inputTokens as real), Number(c.outputTokens as real), Number(c.cachedInputShare),
                           Number(c.batchShare)])
  }

  const SCENARIO_NAMES := ["id", "workload", "currentModel", "candidateModel", "assumptions"]

  ghost function ScenarioJson(c: Scenario): Json {
    Obj(SCENARIO_NAMES, [Text(c.id), Text(c.workload), Text(c.currentModel), Text(c.candidateModel),
                         AssumptionsJson(c)])
  }

  lemma AssumptionsBuilt(c: Scenario)
    ensures var a := AssumptionsJson(c);
            && OnlyKeys(a, ASSUMPTION_NAMES)
            && Get(a, "inputTokensPerMonth") == Number(c.inputTokens as real)
            && Get(a, "outputTokensPerMonth") == Number(c.outputTokens as real)
            && Has(a, "cachedInputShare") && Get(a, "cachedInputShare") == Number(c.cachedInputShare)
            && Has(a, "batchShare") && Get(a, "batchShare") == Number(c.batchShare)
  {
    hide Get, Has, OnlyKeys;
    var f := ASSUMPTION_NAMES;
    ObjHas(f, [Number(c.inputTokens as real), Number(c.outputTokens as real), Number(c.cachedInputShare),
               Number(c.batchShare)], f);
    assert f[0] == "inputTokensPerMonth" && f[1] == "outputTokensPerMonth" && f[2] == "cachedInputShare"
           && f[3] == "batchShare";
  }

  lemma ScenarioBuilt(x: Outside, c: Scenario, wids: set<string>)
    requires SoundScenario(x, c, wids)
    ensures ScenarioKept(c, ScenarioJson(c))
  {
    hide Get, Has, OnlyKeys, AssumptionsJson, Line;
    AssumptionsBuilt(c);
    var f := SCENARIO_NAMES;
    ObjHas(f, [Text(c.id), Text(c.workload), Text(c.currentModel), Text(c.candidateModel), AssumptionsJson(c)], f);
    assert f[0] == "id" && f[1] == "workload" && f[2] == "currentModel" && f[3] == "candidateModel"
           && f[4] == "assumptions";
  }

  // ---------------------------------------------------------- the whole file

  ghost function PlatformJson(flags: seq<bool>): Json {
    Obj(PLATFORM_KEYS, seq(|flags|, i requires 0 <= i < |flags| => Bool(flags[i])))
  }

  lemma PlatformNames()
    ensures Distinct(PLATFORM_KEYS)
    ensures var f := PLATFORM_KEYS;
            && |f| == 5 && f[0] == "enabled" && f[1] == "economics" && f[2] == "adoption" && f[3] == "policyMonitor"
            && f[4] == "enforcement"
  {
  }

  lemma PlatformBuilt(flags: seq<bool>)
    requires |flags| == 5
    ensures PlatformKept(flags, PlatformJson(flags))
  {
    hide Get, OnlyKeys, Distinct;
    PlatformNames();
    ObjHas(PLATFORM_KEYS, seq(|flags|, i requires 0 <= i < |flags| => Bool(flags[i])), PLATFORM_KEYS);
  }

  const BASE_NAMES := [
    "engagementId", "tenantId", "displayName", "currency", "sources", "allocation", "budgets", "scenarios"]

  /** The parts every configuration has. */
  ghost function BaseJson(c: Config): (o: Json)
    ensures o.Object?
  {
    Obj(BASE_NAMES,
        [Text(c.engagementId), Text(c.tenantId), Text(c.displayName), Text(c.currency),
         Listed(c.sources, (s: Source) => SourceJson(s)), AllocationJson(c.allocation),
         Listed(c.budgets, (b: Budget) => BudgetJson(b)), Listed(c.scenarios, (s: Scenario) => ScenarioJson(s))])
  }

  /** The JSON value of a configuration. */
  ghost function JsonOf(c: Config): Json {
    Adding(Adding(BaseJson(c), c.outcomesFile.Some?, "outcomesFile", Text(Or(c.outcomesFile))),
           c.platform.Some?, "platform", PlatformJson(if c.platform.Some? then c.platform.value else []))
  }

  lemma BaseNames()
    ensures Distinct(BASE_NAMES) && "outcomesFile" !in BASE_NAMES && "platform" !in BASE_NAMES
    ensures forall i :: 0 <= i < |BASE_NAMES| ==> BASE_NAMES[i] in TOP_KEYS
    ensures "outcomesFile" in TOP_KEYS && "platform" in TOP_KEYS && "platform" != "outcomesFile"
    ensures var f := BASE_NAMES;
            && |f| == 8 && f[0] == "engagementId" && f[1] == "tenantId" && f[2] == "displayName" && f[3] == "currency"
            && f[4] == "sources" && f[5] == "allocation" && f[6] == "budgets" && f[7] == "scenarios"
  {
  }

  lemma BaseBuilt(c: Config)
    ensures var o := BaseJson(c);
            && OnlyKeys(o, TOP_KEYS) && !Has(o, "outcomesFile") && !Has(o, "platform")
            && Get(o, "engagementId") == Text(c.engagementId) && Get(o, "tenantId") == Text(c.tenantId)
            && Get(o, "displayName") == Text(c.displayName) && Get(o, "currency") == Text(c.currency)
            && Get(o, "sources") == Listed(c.sources, (s: Source) => SourceJson(s))
            && Get(o, "allocation") == AllocationJson(c.allocation)
            && Get(o, "budgets") == Listed(c.budgets, (b: Budget) => BudgetJson(b))
            && Get(o, "scenarios") == Listed(c.scenarios, (s: Scenario) => ScenarioJson(s))
  {
    hide Get, Has, OnlyKeys, Distinct, Listed, SourceJson, AllocationJson, BudgetJson, ScenarioJson;
    BaseNames();
    ObjHas(BASE_NAMES,
           [Text(c.engagementId), Text(c.tenantId), Text(c.displayName), Text(c.currency),
            Listed(c.sources, (s: Source) => SourceJson(s)), AllocationJson(c.allocation),
            Listed(c.budgets, (b: Budget) => BudgetJson(b)), Listed(c.scenarios, (s: Scenario) => ScenarioJson(s))],
           TOP_KEYS);
  }

  lemma ListsBuilt(x: Outside, c: Config)
    requires Sound(x, c)
    ensures AllKept(c.sources, Listed(c.sources, (s: Source) => SourceJson(s)), SourceKept)
    ensures AllKept(c.budgets, Listed(c.budgets, (b: Budget) => BudgetJson(b)), BudgetKept)
    ensures AllKept(c.scenarios, Listed(c.scenarios, (s: Scenario) => ScenarioJson(s)), ScenarioKept)
  {
    hide SourceJson, BudgetJson, ScenarioJson, SourceKept, BudgetKept, ScenarioKept, SoundSource, SoundScenario;
    hide SoundAllocation, SoundBudgets, SoundFlags, LowUuid, Slug, Line, Code, FilePath;
    forall i | 0 <= i < |c.sources|
      ensures SourceKept(c.sources[i], SourceJson(c.sources[i]))
    {
      SourceBuilt(x, c.sources[i], SourceNames(c.sources));
    }
    forall i | 0 <= i < |c.budgets|
      ensures BudgetKept(c.budgets[i], BudgetJson(c.budgets[i]))
    {
      BudgetBuilt(c.budgets[i]);
    }
    forall i | 0 <= i < |c.scenarios|
      ensures ScenarioKept(c.scenarios[i], ScenarioJson(c.scenarios[i]))
    {
      ScenarioBuilt(x, c.scenarios[i], WorkloadNames(c.allocation.workloads));
    }
  }

  lemma LowUuidIsLow(s: string)
    requires LowUuid(s)
    ensures InLowerCase(s, s)
  {
    hide LowUuid;
    LowUuidParts(s);
  }

  lemma JsonSpells(x: Outside, c: Config)
    requires Sound(x, c)
    ensures Spells(c, JsonOf(c))
  {
    hide Get, Has, OnlyKeys, Distinct, Listed, SourceJson, AllocationJson, BudgetJson, ScenarioJson, PlatformJson;
    hide BaseJson, Adding, AllKept, AllocationKept, PlatformKept, SoundSources, SoundAllocation, SoundBudgets;
    hide SoundScenarios, LowUuid, Slug, Line, Code, FilePath;
    BaseBuilt(c);
    ListsBuilt(x, c);
    AllocationBuilt(c.allocation);
    LowUuidIsLow(c.tenantId);
    BaseNames();
    var base := BaseJson(c);
    var filed := Adding(base, c.outcomesFile.Some?, "outcomesFile", Text(Or(c.outcomesFile)));
    var platform := PlatformJson(if c.platform.Some? then c.platform.value else []);
    AddingHas(base, c.outcomesFile.Some?, "outcomesFile", Text(Or(c.outcomesFile)), TOP_KEYS);
    AddingHas(filed, c.platform.Some?, "platform", platform, TOP_KEYS);
    if c.platform.Some? {
      PlatformBuilt(c.platform.value);
    }
  }

  /** Every accepted value stands for a sound configuration, and every sound configuration is accepted back from the
      value built of it. */
  lemma AcceptedConfigurationsAreTheSoundOnes(x: Outside)
    ensures forall v :: WellFormed(x, v) ==> Sound(x, ConfigOf(v))
    ensures forall c :: Sound(x, c) ==> WellFormed(x, JsonOf(c)) && ConfigOf(JsonOf(c)) == c
  {
    hide WellFormed, Sound, ConfigOf, JsonOf, Spells;
    forall v | WellFormed(x, v)
      ensures Sound(x, ConfigOf(v))
    {
      AcceptedIsSpelled(x, v);
      SpelledIsAcceptedExactlyWhenSound(x, ConfigOf(v), v);
    }
    forall c | Sound(x, c)
      ensures WellFormed(x, JsonOf(c)) && ConfigOf(JsonOf(c)) == c
    {
      JsonSpells(x, c);
      SpelledIsAcceptedExactlyWhenSound(x, c, JsonOf(c));
    }
  }

  /** In an accepted configuration every source's period starts at an earlier moment than it ends, if the runtime's
      date parser follows the calendar. */
  lemma PeriodsRunForward(x: Outside, v: Json, i: nat)
    requires WellFormed(x, v) && FollowsCalendar(x.parseDate) && i < |ConfigOf(v).sources|
    ensures var scope := ConfigOf(v).sources[i].metadata.scope;
            exists m, n :: IsMoment(scope.periodStart, m) && IsMoment(scope.periodEnd, n) && At(m) < At(n)
  {
    hide WellFormed, ConfigOf, IsMoment, At, FollowsCalendar, SoundAllocation, SoundBudgets, SoundScenarios, LowUuid;
    hide Slug, Line, Code, FilePath, SoundFlags;
    AcceptedConfigurationsAreTheSoundOnes(x);
    var c := ConfigOf(v);
    assert Sound(x, c);
    SoundPeriod(x, c.sources[i], SourceNames(c.sources));
    var scope := c.sources[i].metadata.scope;
    var m :| IsMoment(scope.periodStart, m);
    var n :| IsMoment(scope.periodEnd, n);
    ForwardMeans(x.parseDate, scope.periodStart, scope.periodEnd, m, n);
  }

  lemma SoundPeriod(x: Outside, c: Source, ids: set<string>)
    requires SoundSource(x, c, ids)
    ensures Forward(x.parseDate, c.metadata.scope.periodStart, c.metadata.scope.periodEnd)
  {
    hide Forward, SoundRetrieval, SoundIdentity, SoundDelivery, SoundFinancial, SoundOverlap, SoundVersions, Line;
  }
}
