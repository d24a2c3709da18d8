/**
 What holds of every configuration that src/engagement/config.ts hands out, said of the typed configuration alone.
 The runtime, the credential patterns and the model registry are those of `Outside`.
 */
module ConfigSound {
  import opened Basics
  import opened ConfigModel
  import opened ConfigMoments
  import opened ConfigTexts

  predicate NoRepeats(names: seq<string>) { forall i, j :: 0 <= i < j < |names| ==> names[i] != names[j] }

  // ---------------------------------------------------------------- metadata

  predicate SoundIdentity(c: Identity) {
    && c.provider in ["AWS", "Azure", "GCP", "OCI", "other"]
    && c.sourceKind in ["focus-export", "native-export", "api"]
    && Line(c.schemaVersion, 32)
    && c.costBasis in ["billed", "effective", "actual", "amortized", "focus-native", "unknown"]
    && Line(c.dataset, 200)
    && c.sourceRole in ["authoritative", "allocated", "enrichment", "recommendation", "change-management", "unknown"]
    && c.provenance in ["authorized-real-export", "official-example"]
    && Line(c.sanitization, 500)
  }

  /** Seven versions, the fourth a fingerprint of the schema. */
  predicate SoundVersions(c: seq<string>) {
    |c| == 7 && forall i :: 0 <= i < 7 ==> if i == 3 then Fingerprint(c[i]) else Line(c[i], 200)
  }

  predicate SoundAccounts(c: Accounts) {
    match c
    case Described(word) => word in ["pseudonymized-identifiers", "unknown", "not_available"]
    case Listed(ids) => 1 <= |ids| <= 10000 && forall i :: 0 <= i < |ids| ==> ids[i] != "" && OneLine(ids[i], 128)
  }

  ghost predicate SoundScope(x: Outside, c: Scope) {
    && SoundAccounts(c.accounts)
    && Forward(x.parseDate, c.periodStart, c.periodEnd)
    && c.periodEndSemantics in ["inclusive", "exclusive"]
    && |c.timezone| <= 64 && x.isTimeZone(c.timezone)
    && (if c.completeness == "explicit-subset" then c.subset.Some? && Line(c.subset.value, 500)
        else c.completeness == "full-period" && c.subset.None?)
  }

  predicate SoundDelivery(c: Delivery) {
    && c.format in ["csv", "csv-gzip", "parquet", "ndjson"]
    && Line(c.compression, 40)
    && Line(c.manifest, 255) && (c.manifest == "not-provided" || FileName(c.manifest))
    && Line(c.refreshBehavior, 500)
  }

  /** One exact amount for each declared currency. */
  ghost predicate SoundTotals(c: Totals, currencies: seq<string>) {
    c.PerCurrency? ==>
      (forall k :: k in c.amounts <==> k in currencies) && forall k :: k in c.amounts ==> AmountText(c.amounts[k])
  }

  predicate Covered(word: string) { word in ["included", "excluded", "unknown"] }

  ghost predicate SoundFinancial(c: Financial) {
    && 1 <= |c.currencies| <= 20 && NoRepeats(c.currencies)
    && (forall i :: 0 <= i < |c.currencies| ==> Code(c.currencies[i]))
    && SoundTotals(c.billed, c.currencies) && SoundTotals(c.effective, c.currencies)
    && Covered(c.credits) && Covered(c.tax)
    && c.controlTotalSource in ["export-query", "console", "invoice", "not_available"]
    && (c.controlTotalSource == "not_available" <==> c.billed.NotAvailable? && c.effective.NotAvailable?)
    && Line(c.knownDifferences, 1000)
  }

  predicate SoundOverlap(c: Overlap, ids: set<string>, self: string) {
    && c.also in ["yes", "no", "unknown"] && Line(c.related, 63)
    && ((c.related in ids && c.related != self) || (c.also != "yes" && c.related == "none"))
  }

  ghost predicate SoundMetadata(x: Outside, c: Metadata, ids: set<string>, self: string) {
    && SoundIdentity(c.identity) && SoundVersions(c.versions) && SoundScope(x, c.scope) && SoundDelivery(c.delivery)
    && SoundFinancial(c.financial) && SoundOverlap(c.overlap, ids, self)
  }

  // --------------------------------------------------------------- retrieval

  predicate Harmless(x: Outside, s: string) { OneLine(s, 1000) && !x.looksLikeCredential(s) }

  predicate SoundLeaf(x: Outside, c: Leaf) {
    match c
    case Str(s) => Harmless(x, s)
    case Strs(texts) => |texts| <= 1000 && forall i :: 0 <= i < |texts| ==> Harmless(x, texts[i])
    case Num(_) => true
    case Flag(_) => true
  }

  function ExportNameOf(params: map<string, Param>): string {
    if "exportName" in params && params["exportName"].Single? && params["exportName"].leaf.Str?
    then params["exportName"].leaf.text else ""
  }

  predicate SoundParam(x: Outside, connector: string, params: map<string, Param>, name: string)
    requires name in params
  {
    var p := params[name];
    if connector == "aws-data-exports" && name in ["bucket", "prefix", "exportName"] then
      p.Single? && p.leaf.Str? && x.awsProblem(name, p.leaf.text, ExportNameOf(params)).None?
    else
      match p
      case Single(leaf) => SoundLeaf(x, leaf)
      case Nested(entries) => forall k :: k in entries ==> SoundLeaf(x, entries[k])
  }

  predicate SoundRetrieval(x: Outside, c: Retrieval) {
    match c
    case FileDrop => true
    case Managed(connector, params, secretRef) =>
      && connector in [
           "aws-data-exports", "azure-cost-export", "gcp-bigquery-export", "oci-cost-report", "nutanix", "servicenow",
           "pointfive", "opencost", "openai-usage", "anthropic-usage"]
      && |params| <= 100
      && (forall name :: name in params ==> SoundParam(x, connector, params, name))
      && (secretRef.Some? ==> SecretName(secretRef.value) && !x.looksLikeCredential(secretRef.value))
  }

  // ----------------------------------------------------------------- sources

  ghost predicate SoundSource(x: Outside, c: Source, ids: set<string>) {
    && SourceName(c.id)
    && 1 <= |c.providers| <= 4 && NoRepeats(c.providers)
    && (forall i :: 0 <= i < |c.providers| ==> c.providers[i] in ["AWS", "Microsoft", "Google Cloud", "Oracle"])
    && c.layout in ["aws-data-exports", "single-file"]
    && SoundRetrieval(x, c.retrieval) && SoundMetadata(x, c.metadata, ids, c.id)
  }

  function SourceNames(sources: seq<Source>): set<string> { set i | 0 <= i < |sources| :: sources[i].id }

  ghost predicate SoundSources(x: Outside, sources: seq<Source>) {
    && 1 <= |sources| <= 50
    && (forall i, j :: 0 <= i < j < |sources| ==> sources[i].id != sources[j].id)
    && forall i :: 0 <= i < |sources| ==> SoundSource(x, sources[i], SourceNames(sources))
  }

  // ------------------------------------------- allocation, budgets, scenarios

  function WorkloadNames(workloads: seq<Workload>): set<string> { set i | 0 <= i < |workloads| :: workloads[i].id }

  predicate SoundWorkloads(workloads: seq<Workload>) {
    && 1 <= |workloads| <= 1000
    && (forall i, j :: 0 <= i < j < |workloads| ==> workloads[i].id != workloads[j].id)
    && forall i :: 0 <= i < |workloads| ==> Line(workloads[i].id, 128) && Line(workloads[i].owner, 128)
  }

  predicate SoundAccountMap(c: map<string, string>, wids: set<string>) {
    |c| <= 10000 && forall a :: a in c ==> a != "" && OneLine(a, 128) && c[a] in wids
  }

  predicate SoundRule(c: SharedRule, wids: set<string>) {
    && Line(c.id, 63) && c.rule in ["even_split", "keyed_tag", "proportional_to_attributed"]
    && (c.serviceName.Some? ==> Line(c.serviceName.value, 200))
    && (c.rule == "even_split" ==> c.targets.Some?)
    && (c.targets.Some? ==>
          1 <= |c.targets.value| <= 1000 && forall i :: 0 <= i < |c.targets.value| ==> c.targets.value[i] in wids)
  }

  predicate SoundRules(rules: seq<SharedRule>, wids: set<string>) {
    && |rules| <= 100
    && (forall i, j :: 0 <= i < j < |rules| ==> rules[i].id != rules[j].id)
    && forall i :: 0 <= i < |rules| ==> SoundRule(rules[i], wids)
  }

  predicate SoundAllocation(c: Allocation) {
    var wids := WorkloadNames(c.workloads);
    && Line(c.workloadTagKey, 128) && Line(c.ownerTagKey, 128)
    && SoundWorkloads(c.workloads) && SoundAccountMap(c.subAccountMap, wids) && SoundRules(c.sharedCostRules, wids)
  }

  ghost predicate SoundBudgets(budgets: seq<Budget>, wids: set<string>) {
    && |budgets| <= 1000
    && (forall i, j :: 0 <= i < j < |budgets| ==> budgets[i].workload != budgets[j].workload)
    && forall i :: 0 <= i < |budgets| ==> budgets[i].workload in wids && Money(budgets[i].monthly)
  }

  predicate SoundScenario(x: Outside, c: Scenario, wids: set<string>) {
    && Line(c.id, 63) && c.workload in wids
    && c.currentModel in x.modelIds && c.candidateModel in x.modelIds && c.currentModel != c.candidateModel
    && 0 <= c.inputTokens <= 0x1F_FFFF_FFFF_FFFF && 0 <= c.outputTokens <= 0x1F_FFFF_FFFF_FFFF
    && 0.0 <= c.cachedInputShare <= 1.0 && 0.0 <= c.batchShare <= 1.0
  }

  predicate SoundScenarios(x: Outside, scenarios: seq<Scenario>, wids: set<string>) {
    && |scenarios| <= 100
    && (forall i, j :: 0 <= i < j < |scenarios| ==> scenarios[i].id != scenarios[j].id)
    && forall i :: 0 <= i < |scenarios| ==> SoundScenario(x, scenarios[i], wids)
  }

  /** Five flags; the first turns the platform on and the others need it. */
  predicate SoundFlags(flags: seq<bool>) { |flags| == 5 && forall i :: 1 <= i < 5 ==> flags[i] ==> flags[0] }

  /** A sound configuration. */
  ghost predicate Sound(x: Outside, c: Config) {
    var wids := WorkloadNames(c.allocation.workloads);
    && Slug(c.engagementId) && LowUuid(c.tenantId) && Line(c.displayName, 120) && Code(c.currency)
    && SoundSources(x, c.sources) && SoundAllocation(c.allocation)
    && SoundBudgets(c.budgets, wids) && SoundScenarios(x, c.scenarios, wids)
    && (c.outcomesFile.Some? ==> FilePath(c.outcomesFile.value))
    && (c.platform.Some? ==> SoundFlags(c.platform.value))
  }
}
