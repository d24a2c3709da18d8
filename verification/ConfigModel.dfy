/**
 The engagement configuration of src/engagement/config.ts: its typed form, the declarative
 condition under which a JSON value is one, and the configuration such a value stands for.
 */
module ConfigModel {
  import opened Basics
  import opened ConfigRules
  import opened JsonValues
  import opened Sequences

  /** What the validator takes from outside: the runtime, the credential patterns and the model registry. */
  datatype Outside = Outside(
    isTimeZone: string -> bool,
    parseDate: string -> Option<int>,
    looksLikeCredential: string -> bool,
    awsProblem: (string, string, string) -> Option<string>,
    modelIds: seq<string>)

  // ---------------------------------------------------------------- metadata

  const META_KEYS := [
    "provider", "source_kind", "schema_version", "cost_basis", "dataset", "source_role", "versions", "provenance",
    "sanitization", "scope", "delivery", "financial", "overlap"]

  const PROVIDERS := ["AWS", "Azure", "GCP", "OCI", "other"]

  const SOURCE_KINDS := ["focus-export", "native-export", "api"]

  const COST_BASES := ["billed", "effective", "actual", "amortized", "focus-native", "unknown"]

  const SOURCE_ROLES := ["authoritative", "allocated", "enrichment", "recommendation", "change-management", "unknown"]

  const PROVENANCES := ["authorized-real-export", "official-example"]

  datatype Identity = Identity(
    provider: string,
    sourceKind: string,
    schemaVersion: string,
    costBasis: string,
    dataset: string,
    sourceRole: string,
    provenance: string,
    sanitization: string)

  predicate IdentityOk(m: Json) {
    && OneOf(Get(m, "provider"), PROVIDERS)
    && OneOf(Get(m, "source_kind"), SOURCE_KINDS)
    && IsText(Get(m, "schema_version"), 32)
    && OneOf(Get(m, "cost_basis"), COST_BASES)
    && IsText(Get(m, "dataset"), 200)
    && OneOf(Get(m, "source_role"), SOURCE_ROLES)
    && OneOf(Get(m, "provenance"), PROVENANCES)
    && IsText(Get(m, "sanitization"), 500)
  }

  function IdentityOf(m: Json): Identity {
    Identity(Word(Get(m, "provider")), Word(Get(m, "source_kind")), Word(Get(m, "schema_version")),
             Word(Get(m, "cost_basis")), Word(Get(m, "dataset")), Word(Get(m, "source_role")),
             Word(Get(m, "provenance")), Word(Get(m, "sanitization")))
  }

  const VERSION_FIELDS := [
    "provider_product", "api_version", "export_schema_version", "schema_snapshot_hash", "focus_version",
    "mapping_version", "canonical_model_version"]

  predicate VersionOk(v: Json, field: string) {
    if field == "schema_snapshot_hash" then IsHash(Get(v, field)) else IsText(Get(v, field), 200)
  }

  predicate VersionsOk(v: Json) {
    OnlyKeys(v, VERSION_FIELDS) && forall i :: 0 <= i < |VERSION_FIELDS| ==> VersionOk(v, VERSION_FIELDS[i])
  }

  /** The versions in the order of `VERSION_FIELDS`. */
  function VersionsOf(v: Json): seq<string> {
    seq(|VERSION_FIELDS|, i requires 0 <= i < |VERSION_FIELDS| => Word(Get(v, VERSION_FIELDS[i])))
  }

  datatype Accounts = Described(word: string) | Listed(ids: seq<string>)

  const ACCOUNT_WORDS := ["pseudonymized-identifiers", "unknown", "not_available"]

  predicate IsAccountId(v: Json) { v.Text? && v.text != "" && |v.text| <= 128 && !HasControl(v.text) }

  predicate AccountsOk(v: Json) {
    OneOf(v, ACCOUNT_WORDS) || (IsList(v, 1, 10000) && forall i :: 0 <= i < |v.items| ==> IsAccountId(v.items[i]))
  }

  function AccountsOf(v: Json): Accounts {
    if v.Array? then Listed(Words(v.items)) else Described(Word(v))
  }

  const SCOPE_KEYS := [
    "accounts", "period_start", "period_end", "period_end_semantics", "timezone", "completeness", "subset_description"]

  datatype Scope = Scope(
    accounts: Accounts,
    periodStart: string,
    periodEnd: string,
    periodEndSemantics: string,
    timezone: string,
    completeness: string,
    subset: Option<string>)

  predicate ZoneOk(x: Outside, v: Json) { v.Text? && |v.text| <= 64 && x.isTimeZone(v.text) }

  predicate PeriodOk(x: Outside, s: Json) {
    var t0, t1 := Timestamp(x.parseDate, Get(s, "period_start")), Timestamp(x.parseDate, Get(s, "period_end"));
    t0.Some? && t1.Some? && t0.value < t1.value
  }

  /** A subset is described exactly when there is one. */
  predicate CompletenessOk(s: Json) {
    && OneOf(Get(s, "completeness"), ["full-period", "explicit-subset"])
    && (Get(s, "completeness") == Text("explicit-subset") ==> IsText(Get(s, "subset_description"), 500))
    && (Get(s, "completeness") == Text("full-period") ==> !Has(s, "subset_description"))
  }

  predicate ScopeOk(x: Outside, s: Json) {
    && OnlyKeys(s, SCOPE_KEYS)
    && AccountsOk(Get(s, "accounts"))
    && PeriodOk(x, s)
    && OneOf(Get(s, "period_end_semantics"), ["inclusive", "exclusive"])
    && ZoneOk(x, Get(s, "timezone"))
    && CompletenessOk(s)
  }

  function ScopeOf(s: Json): Scope {
    Scope(AccountsOf(Get(s, "accounts")), Word(Get(s, "period_start")), Word(Get(s, "period_end")),
          Word(Get(s, "period_end_semantics")), Word(Get(s, "timezone")), Word(Get(s, "completeness")),
          if Get(s, "completeness") == Text("explicit-subset") then Some(Word(Get(s, "subset_description"))) else None)
  }

  const DELIVERY_KEYS := ["format", "compression", "manifest", "refresh_behavior"]

  datatype Delivery = Delivery(format: string, compression: string, manifest: string, refreshBehavior: string)

  predicate ManifestOk(v: Json) { IsText(v, 255) && (v.text == "not-provided" || IsFileName(v.text)) }

  predicate DeliveryOk(d: Json) {
    && OnlyKeys(d, DELIVERY_KEYS)
    && OneOf(Get(d, "format"), ["csv", "csv-gzip", "parquet", "ndjson"])
    && IsText(Get(d, "compression"), 40)
    && ManifestOk(Get(d, "manifest"))
    && IsText(Get(d, "refresh_behavior"), 500)
  }

  function DeliveryOf(d: Json): Delivery {
    Delivery(Word(Get(d, "format")), Word(Get(d, "compression")), Word(Get(d, "manifest")),
             Word(Get(d, "refresh_behavior")))
  }

  // --------------------------------------------------------------- financial

  const FINANCIAL_KEYS := [
    "currencies", "billed_cost_total", "effective_cost_total", "credits_coverage", "tax_coverage",
    "control_total_source", "known_differences"]

  const NOT_AVAILABLE := Text("not_available")

  const TRI := ["included", "excluded", "unknown"]

  datatype Totals = NotAvailable | PerCurrency(amounts: map<string, string>)

  datatype Financial = Financial(
    currencies: seq<string>,
    billed: Totals,
    effective: Totals,
    credits: string,
    tax: string,
    controlTotalSource: string,
    knownDifferences: string)

  predicate IsAmount(v: Json) { v.Text? && IsSignedDecimal(v.text) && |v.text| <= 40 }

  predicate CurrenciesOk(v: Json) {
    && IsList(v, 1, 20)
    && (forall i :: 0 <= i < |v.items| ==> IsCurrency(v.items[i]))
    && Distinct(Words(v.items))
  }

  /** Either declared unavailable, or one exact amount per declared currency and nothing else. */
  predicate TotalsOk(v: Json, currencies: seq<string>) {
    v == NOT_AVAILABLE
    || (v.Object? && |v.keys| == |currencies|
        && forall i :: 0 <= i < |v.keys| ==> v.keys[i] in currencies && IsAmount(Get(v, v.keys[i])))
  }

  function TotalsOf(v: Json): Totals {
    if v.Object? then PerCurrency(map k | k in v.keys :: Word(Get(v, k))) else NotAvailable
  }

  predicate FinancialOk(f: Json) {
    && OnlyKeys(f, FINANCIAL_KEYS)
    && CurrenciesOk(Get(f, "currencies"))
    && TotalsOk(Get(f, "billed_cost_total"), Words(Get(f, "currencies").items))
    && TotalsOk(Get(f, "effective_cost_total"), Words(Get(f, "currencies").items))
    && OneOf(Get(f, "credits_coverage"), TRI)
    && OneOf(Get(f, "tax_coverage"), TRI)
    && OneOf(Get(f, "control_total_source"), ["export-query", "console", "invoice", "not_available"])
    && SourceNamedIffTotals(f)
    && IsText(Get(f, "known_differences"), 1000)
  }

  /** Control totals name their source exactly when there are any. */
  predicate SourceNamedIffTotals(f: Json) {
    Get(f, "control_total_source") == NOT_AVAILABLE <==>
      (Get(f, "billed_cost_total") == NOT_AVAILABLE && Get(f, "effective_cost_total") == NOT_AVAILABLE)
  }

  function WordsOf(v: Json): seq<string> { if v.Array? then Words(v.items) else [] }

  function FinancialOf(f: Json): Financial {
    Financial(WordsOf(Get(f, "currencies")), TotalsOf(Get(f, "billed_cost_total")),
              TotalsOf(Get(f, "effective_cost_total")), Word(Get(f, "credits_coverage")),
              Word(Get(f, "tax_coverage")), Word(Get(f, "control_total_source")), Word(Get(f, "known_differences")))
  }

  // ----------------------------------------------------------------- overlap

  datatype Overlap = Overlap(also: string, related: string)

  predicate Resolves(related: string, ids: set<string>, self: Option<string>) {
    Some(related) != self && related in ids
  }

  predicate OverlapOk(o: Json, ids: set<string>, self: Option<string>) {
    && OnlyKeys(o, ["also_present_in_other_source", "related_source"])
    && OneOf(Get(o, "also_present_in_other_source"), ["yes", "no", "unknown"])
    && IsText(Get(o, "related_source"), 63)
    && var also, related := Get(o, "also_present_in_other_source").text, Get(o, "related_source").text;
       Resolves(related, ids, self) || (also != "yes" && related == "none")
  }

  function OverlapOf(o: Json): Overlap {
    Overlap(Word(Get(o, "also_present_in_other_source")), Word(Get(o, "related_source")))
  }

  datatype Metadata = Metadata(
    identity: Identity,
    versions: seq<string>,
    scope: Scope,
    delivery: Delivery,
    financial: Financial,
    overlap: Overlap)

  predicate MetadataOk(x: Outside, m: Json, ids: set<string>, self: Option<string>) {
    && OnlyKeys(m, META_KEYS)
    && IdentityOk(m)
    && VersionsOk(Get(m, "versions"))
    && ScopeOk(x, Get(m, "scope"))
    && DeliveryOk(Get(m, "delivery"))
    && FinancialOk(Get(m, "financial"))
    && OverlapOk(Get(m, "overlap"), ids, self)
  }

  function MetadataOf(m: Json): Metadata {
    Metadata(IdentityOf(m), VersionsOf(Get(m, "versions")), ScopeOf(Get(m, "scope")), DeliveryOf(Get(m, "delivery")),
             FinancialOf(Get(m, "financial")), OverlapOf(Get(m, "overlap")))
  }

  // --------------------------------------------------------------- retrieval

  datatype Leaf = Str(text: string) | Num(num: real) | Flag(flag: bool) | Strs(texts: seq<string>)

  datatype Param = Single(leaf: Leaf) | Nested(entries: map<string, Leaf>)

  datatype Retrieval = FileDrop | Managed(connector: string, params: map<string, Param>, secretRef: Option<string>)

  const CONNECTORS := [
    "aws-data-exports", "azure-cost-export", "gcp-bigquery-export", "oci-cost-report", "nutanix", "servicenow",
    "pointfive", "opencost", "openai-usage", "anthropic-usage"]

  const AWS_LOCATION_PARAMS := ["bucket", "prefix", "exportName"]

  predicate PlainString(x: Outside, v: Json) {
    v.Text? && |v.text| <= 1000 && !HasControl(v.text) && !x.looksLikeCredential(v.text)
  }

  predicate AllPlain(x: Outside, items: seq<Json>) { forall i :: 0 <= i < |items| ==> PlainString(x, items[i]) }

  predicate LeafOk(x: Outside, v: Json) {
    || PlainString(x, v)
    || v.Number?
    || v.Bool?
    || (v.Array? && |v.items| <= 1000 && AllPlain(x, v.items))
  }

  function LeafOf(v: Json): Leaf {
    match v
    case Number(n) => Num(n)
    case Bool(b) => Flag(b)
    case Array(items) => Strs(Words(items))
    case _ => Str(Word(v))
  }

  predicate NestedOk(x: Outside, v: Json)
    requires v.Object?
  {
    forall i :: 0 <= i < |v.keys| ==> !Get(v, v.keys[i]).Object? && LeafOk(x, Get(v, v.keys[i]))
  }

  predicate IsAwsLocation(connector: Json, name: string) {
    connector == Text("aws-data-exports") && name in AWS_LOCATION_PARAMS
  }

  /** The export name among the parameters, which the field rules look at. */
  function ExportName(params: Json): string { Word(Get(params, "exportName")) }

  predicate ParamOk(x: Outside, connector: Json, params: Json, name: string) {
    var v := Get(params, name);
    if IsAwsLocation(connector, name) then v.Text? && x.awsProblem(name, v.text, ExportName(params)).None?
    else if v.Object? then NestedOk(x, v)
    else LeafOk(x, v)
  }

  function NestedOf(v: Json): map<string, Leaf>
    requires v.Object?
  {
    map k | k in v.keys :: LeafOf(Get(v, k))
  }

  function ParamOf(v: Json): Param { if v.Object? then Nested(NestedOf(v)) else Single(LeafOf(v)) }

  predicate ParamsOk(x: Outside, o: Json) {
    Has(o, "params") ==>
      var p := Get(o, "params");
      p.Object? && |p.keys| <= 100
      && forall i :: 0 <= i < |p.keys| ==> ParamOk(x, Get(o, "connector"), p, p.keys[i])
  }

  predicate SecretRefOk(x: Outside, o: Json) {
    Has(o, "secretRef") ==> IsSecretRef(Get(o, "secretRef")) && !x.looksLikeCredential(Get(o, "secretRef").text)
  }

  function ParamsOf(p: Json): map<string, Param> {
    if p.Object? then map k | k in p.keys :: ParamOf(Get(p, k)) else map[]
  }

  const RETRIEVAL_KEYS := ["kind", "connector", "params", "secretRef"]

  predicate RetrievalOk(x: Outside, v: Json) {
    || v == Absent
    || (&& OnlyKeys(v, RETRIEVAL_KEYS)
        && OneOf(Get(v, "kind"), ["file-drop", "managed"])
        && (Get(v, "kind").text == "file-drop" ==>
              !Has(v, "connector") && !Has(v, "params") && !Has(v, "secretRef"))
        && (Get(v, "kind").text == "managed" ==>
              OneOf(Get(v, "connector"), CONNECTORS) && ParamsOk(x, v) && SecretRefOk(x, v)))
  }

  function RetrievalOf(v: Json): Retrieval {
    if Get(v, "kind") != Text("managed") then FileDrop
    else Managed(Word(Get(v, "connector")), ParamsOf(Get(v, "params")),
                 if Has(v, "secretRef") then Some(Word(Get(v, "secretRef"))) else None)
  }

  // ----------------------------------------------------------------- sources

  const FOCUS_PROVIDERS := ["AWS", "Microsoft", "Google Cloud", "Oracle"]

  datatype Source = Source(
    id: string,
    providers: seq<string>,
    layout: string,
    retrieval: Retrieval,
    metadata: Metadata)

  predicate ProvidersOk(v: Json) {
    && IsList(v, 1, 4)
    && (forall i :: 0 <= i < |v.items| ==> OneOf(v.items[i], FOCUS_PROVIDERS))
    && Distinct(Words(v.items))
  }

  function SelfId(s: Json): Option<string> {
    if IsSourceId(Get(s, "id")) then Some(Get(s, "id").text) else None
  }

  /** The ids the sources of a config declare. */
  function SourceIds(items: seq<Json>): set<string> {
    set i | 0 <= i < |items| && items[i].Object? && IsSourceId(Get(items[i], "id")) :: Word(Get(items[i], "id"))
  }

  predicate SourceOk(x: Outside, s: Json, ids: set<string>) {
    && OnlyKeys(s, ["id", "providers", "layout", "retrieval", "metadata"])
    && IsSourceId(Get(s, "id"))
    && ProvidersOk(Get(s, "providers"))
    && OneOf(Get(s, "layout"), ["aws-data-exports", "single-file"])
    && RetrievalOk(x, Get(s, "retrieval"))
    && MetadataOk(x, Get(s, "metadata"), ids, SelfId(s))
  }

  function SourceOf(s: Json): Source {
    Source(Word(Get(s, "id")), WordsOf(Get(s, "providers")), Word(Get(s, "layout")),
           RetrievalOf(Get(s, "retrieval")), MetadataOf(Get(s, "metadata")))
  }

  /** The texts under one key, in order. */
  function Column(items: seq<Json>, key: string): (r: seq<string>)
    ensures |r| == |items|
  {
    seq(|items|, i requires 0 <= i < |items| => Word(Get(items[i], key)))
  }

  predicate SourcesOk(x: Outside, v: Json) {
    && IsList(v, 1, 50)
    && (forall i :: 0 <= i < |v.items| ==> SourceOk(x, v.items[i], SourceIds(v.items)))
    && Distinct(Column(v.items, "id"))
  }

  // -------------------------------------------------------------- allocation

  datatype Workload = Workload(id: string, owner: string)

  predicate WorkloadOk(w: Json) {
    OnlyKeys(w, ["id", "owner"]) && IsText(Get(w, "id"), 128) && IsText(Get(w, "owner"), 128)
  }

  function WorkloadOf(w: Json): Workload { Workload(Word(Get(w, "id")), Word(Get(w, "owner"))) }

  predicate WorkloadsOk(v: Json) {
    && IsList(v, 1, 1000)
    && (forall i :: 0 <= i < |v.items| ==> WorkloadOk(v.items[i]))
    && Distinct(Column(v.items, "id"))
  }

  function IdSet(names: seq<string>): set<string> { set i | 0 <= i < |names| :: names[i] }

  /** The workloads a config declares. */
  function WorkloadIds(v: Json): set<string> { if v.Array? then IdSet(Column(v.items, "id")) else {} }

  predicate MapEntryOk(m: Json, account: string, wids: set<string>) {
    account != "" && |account| <= 128 && !HasControl(account) && Get(m, account).Text? && Get(m, account).text in wids
  }

  predicate AccountMapOk(m: Json, wids: set<string>) {
    m.Object? && |m.keys| <= 10000 && forall i :: 0 <= i < |m.keys| ==> MapEntryOk(m, m.keys[i], wids)
  }

  function AccountMapOf(m: Json): map<string, string> {
    if m.Object? then map k | k in m.keys :: Word(Get(m, k)) else map[]
  }

  const RULES := ["even_split", "keyed_tag", "proportional_to_attributed"]

  datatype SharedRule = SharedRule(id: string, rule: string, serviceName: Option<string>, targets: Option<seq<string>>)

  predicate TargetsOk(v: Json, wids: set<string>) {
    IsList(v, 1, 1000) && forall i :: 0 <= i < |v.items| ==> v.items[i].Text? && v.items[i].text in wids
  }

  predicate NeedsTargets(r: Json) { Get(r, "rule") == Text("even_split") || Has(r, "targets") }

  predicate RuleOk(r: Json, wids: set<string>) {
    && OnlyKeys(r, ["id", "rule", "serviceName", "targets"])
    && IsText(Get(r, "id"), 63)
    && OneOf(Get(r, "rule"), RULES)
    && (Has(r, "serviceName") ==> IsText(Get(r, "serviceName"), 200))
    && (NeedsTargets(r) ==> TargetsOk(Get(r, "targets"), wids))
  }

  function RuleOf(r: Json): SharedRule {
    SharedRule(Word(Get(r, "id")), Word(Get(r, "rule")),
               if Has(r, "serviceName") then Some(Word(Get(r, "serviceName"))) else None,
               if NeedsTargets(r) then Some(WordsOf(Get(r, "targets"))) else None)
  }

  predicate RulesOk(v: Json, wids: set<string>) {
    && IsList(v, 0, 100)
    && (forall i :: 0 <= i < |v.items| ==> RuleOk(v.items[i], wids))
    && Distinct(Column(v.items, "id"))
  }

  const ALLOCATION_KEYS := ["workloadTagKey", "ownerTagKey", "subAccountMap", "workloads", "sharedCostRules"]

  datatype Allocation = Allocation(
    workloadTagKey: string,
    ownerTagKey: string,
    subAccountMap: map<string, string>,
    workloads: seq<Workload>,
    sharedCostRules: seq<SharedRule>)

  predicate AllocationOk(a: Json) {
    var wids := WorkloadIds(Get(a, "workloads"));
    && OnlyKeys(a, ALLOCATION_KEYS)
    && IsText(Get(a, "workloadTagKey"), 128)
    && IsText(Get(a, "ownerTagKey"), 128)
    && WorkloadsOk(Get(a, "workloads"))
    && AccountMapOk(Get(a, "subAccountMap"), wids)
    && RulesOk(Get(a, "sharedCostRules"), wids)
  }

  function Items(v: Json): seq<Json> { if v.Array? then v.items else [] }

  function AllocationOf(a: Json): Allocation {
    Allocation(Word(Get(a, "workloadTagKey")), Word(Get(a, "ownerTagKey")), AccountMapOf(Get(a, "subAccountMap")),
               Map(Items(Get(a, "workloads")), WorkloadOf), Map(Items(Get(a, "sharedCostRules")), RuleOf))
  }

  // --------------------------------------------------- budgets and scenarios

  datatype Budget = Budget(workload: string, monthly: string)

  predicate BudgetOk(b: Json, wids: set<string>) {
    && OnlyKeys(b, ["workload", "monthly"])
    && Get(b, "workload").Text? && Get(b, "workload").text in wids
    && IsBudget(Get(b, "monthly"))
  }

  function BudgetOf(b: Json): Budget { Budget(Word(Get(b, "workload")), Word(Get(b, "monthly"))) }

  predicate BudgetsOk(v: Json, wids: set<string>) {
    && IsList(v, 0, 1000)
    && (forall i :: 0 <= i < |v.items| ==> BudgetOk(v.items[i], wids))
    && Distinct(Column(v.items, "workload"))
  }

  datatype Scenario = Scenario(
    id: string,
    workload: string,
    currentModel: string,
    candidateModel: string,
    inputTokens: int,
    outputTokens: int,
    cachedInputShare: real,
    batchShare: real)

  predicate ShareOk(a: Json, key: string) { Has(a, key) ==> IsShare(Get(a, key)) }

  predicate AssumptionsOk(a: Json) {
    && OnlyKeys(a, ["inputTokensPerMonth", "outputTokensPerMonth", "cachedInputShare", "batchShare"])
    && IsTokenCount(Get(a, "inputTokensPerMonth"))
    && IsTokenCount(Get(a, "outputTokensPerMonth"))
    && ShareOk(a, "cachedInputShare")
    && ShareOk(a, "batchShare")
  }

  predicate ScenarioOk(x: Outside, s: Json, wids: set<string>) {
    && OnlyKeys(s, ["id", "workload", "currentModel", "candidateModel", "assumptions"])
    && IsText(Get(s, "id"), 63)
    && Get(s, "workload").Text? && Get(s, "workload").text in wids
    && OneOf(Get(s, "currentModel"), x.modelIds)
    && OneOf(Get(s, "candidateModel"), x.modelIds)
    && Get(s, "currentModel") != Get(s, "candidateModel")
    && AssumptionsOk(Get(s, "assumptions"))
  }

  function TokensIn(a: Json, key: string): int { if Get(a, key).Number? then Get(a, key).num.Floor else 0 }

  function ShareIn(a: Json, key: string): real { if Get(a, key).Number? then Get(a, key).num else 0.0 }

  function ScenarioOf(s: Json): Scenario {
    var a := Get(s, "assumptions");
    Scenario(Word(Get(s, "id")), Word(Get(s, "workload")), Word(Get(s, "currentModel")), Word(Get(s, "candidateModel")),
             TokensIn(a, "inputTokensPerMonth"), TokensIn(a, "outputTokensPerMonth"),
             ShareIn(a, "cachedInputShare"), ShareIn(a, "batchShare"))
  }

  predicate ScenariosOk(x: Outside, v: Json, wids: set<string>) {
    && IsList(v, 0, 100)
    && (forall i :: 0 <= i < |v.items| ==> ScenarioOk(x, v.items[i], wids))
    && Distinct(Column(v.items, "id"))
  }

  // ---------------------------------------------------------------- platform

  const CAPABILITIES := ["economics", "adoption", "policyMonitor", "enforcement"]

  const PLATFORM_KEYS := ["enabled"] + CAPABILITIES

  predicate IsOn(v: Json, key: string) { Get(v, key) == Bool(true) }

  /** Boolean flags only, and no capability without `enabled`. */
  predicate PlatformOk(v: Json) {
    v == Absent
    || (&& OnlyKeys(v, PLATFORM_KEYS)
        && (forall i :: 0 <= i < |PLATFORM_KEYS| ==>
              Get(v, PLATFORM_KEYS[i]) == Absent || Get(v, PLATFORM_KEYS[i]).Bool?)
        && (forall i :: 0 <= i < |CAPABILITIES| ==> IsOn(v, CAPABILITIES[i]) ==> IsOn(v, "enabled")))
  }

  /** The flags in the order of `PLATFORM_KEYS`. */
  function FlagsOf(v: Json): seq<bool> {
    seq(|PLATFORM_KEYS|, i requires 0 <= i < |PLATFORM_KEYS| => IsOn(v, PLATFORM_KEYS[i]))
  }

  // ---------------------------------------------------------- the whole file

  const TOP_KEYS := [
    "engagementId", "tenantId", "displayName", "currency", "sources", "allocation", "budgets", "scenarios",
    "outcomesFile", "platform"]

  datatype Config = Config(
    engagementId: string,
    tenantId: string,
    displayName: string,
    currency: string,
    sources: seq<Source>,
    allocation: Allocation,
    budgets: seq<Budget>,
    scenarios: seq<Scenario>,
    outcomesFile: Option<string>,
    platform: Option<seq<bool>>)

  predicate WellFormed(x: Outside, v: Json) {
    var wids := WorkloadIds(Get(Get(v, "allocation"), "workloads"));
    && OnlyKeys(v, TOP_KEYS)
    && IsId(Get(v, "engagementId"))
    && IsUuid(Get(v, "tenantId"))
    && IsText(Get(v, "displayName"), 120)
    && IsCurrency(Get(v, "currency"))
    && SourcesOk(x, Get(v, "sources"))
    && AllocationOk(Get(v, "allocation"))
    && BudgetsOk(Get(v, "budgets"), wids)
    && ScenariosOk(x, Get(v, "scenarios"), wids)
    && (Has(v, "outcomesFile") ==> IsFilePath(Get(v, "outcomesFile")))
    && (Has(v, "platform") ==> PlatformOk(Get(v, "platform")))
  }

  /** The configuration a well-formed value stands for: every declared item, in order. */
  function ConfigOf(v: Json): Config {
    Config(Word(Get(v, "engagementId")), Lower(Word(Get(v, "tenantId"))), Word(Get(v, "displayName")),
           Word(Get(v, "currency")), Map(Items(Get(v, "sources")), SourceOf), AllocationOf(Get(v, "allocation")),
           Map(Items(Get(v, "budgets")), BudgetOf), Map(Items(Get(v, "scenarios")), ScenarioOf),
           if Has(v, "outcomesFile") then Some(Word(Get(v, "outcomesFile"))) else None,
           if Has(v, "platform") then Some(FlagsOf(Get(v, "platform"))) else None)
  }
}
