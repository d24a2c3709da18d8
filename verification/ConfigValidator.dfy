/** `validateEngagementConfig` of src/engagement/config.ts and `parsePlatformBlock` of src/platform/flags.ts. */
module ConfigValidator {
  import opened Basics
  import opened ConfigGuards
  import opened ConfigMetadata
  import opened ConfigModel
  import opened ConfigRetrieval
  import opened ConfigRules
  import opened JsonValues
  import opened Sequences

  datatype Verdict = Accepted(config: Config) | Refused(problems: seq<Problem>)

  /** JavaScript's truth value of a string or null. */
  predicate Truthy(v: Option<string>) { v.Some? && v.value != "" }

  lemma TextIsTruthy(v: Json, max: nat)
    ensures IsText(v, max) ==> v.Text? && v.text != "" && Word(v) == v.text
  {
  }

  // ----------------------------------------------------------------- sources

  method ProvidersAt(c: Ctx, o: Json, key: string) returns (r: Option<seq<string>>)
    modifies c
    ensures Reports(|old(c.problems)|, |c.problems|, ProvidersOk(Get(o, "providers")))
    ensures ProvidersOk(Get(o, "providers")) ==> r == Some(WordsOf(Get(o, "providers")))
  {
    hide OneOf;
    var items := ListAt(c, o, key, "providers", 1, 4);
    if items.None? {
      return None;
    }
    var list, providers: seq<string> := items.value, [];
    for j := 0 to |list|
      invariant Reports(|old(c.problems)|, |c.problems|, forall i :: 0 <= i < j ==> OneOf(list[i], FOCUS_PROVIDERS))
      invariant (forall i :: 0 <= i < j ==> OneOf(list[i], FOCUS_PROVIDERS)) ==> providers == Words(list)[..j]
    {
      OneOfWord(list[j], FOCUS_PROVIDERS);
      if OneOf(list[j], FOCUS_PROVIDERS) {
        providers := providers + [list[j].text];
      } else {
        c.Bad(ItemAt(KeyAt(key, "providers"), j), NotAFocusProvider);
      }
    }
    WholePrefix(Words(list));
    if !Distinct(providers) {
      c.Bad(KeyAt(key, "providers"), RepeatedProvider);
    }
    return Some(providers);
  }

  method SourceIdAt(c: Ctx, o: Json, key: string, seen: set<string>) returns (next: set<string>)
    modifies c
    ensures Reports(|old(c.problems)|, |c.problems|, IsSourceId(Get(o, "id")) && Word(Get(o, "id")) !in seen)
    ensures IsSourceId(Get(o, "id")) ==> next == seen + {Word(Get(o, "id"))}
  {
    hide AllMatch;
    var id := Get(o, "id");
    next := seen;
    if !IsSourceId(id) {
      c.Bad(key + ".id", NotASourceId);
    } else if id.text in seen {
      c.Bad(key + ".id", Duplicate);
    } else {
      next := seen + {id.text};
    }
  }

  const SOURCE_KEYS := ["id", "providers", "layout", "retrieval", "metadata"]

  method SourceAt(c: Ctx, x: Outside, s: Json, key: string, ids: set<string>, seen: set<string>)
    returns (r: Option<Source>, next: set<string>)
    modifies c
    ensures Reports(|old(c.problems)|, |c.problems|, SourceOk(x, s, ids) && Word(Get(s, "id")) !in seen)
    ensures SourceOk(x, s, ids) ==> r == Some(SourceOf(s)) && next == seen + {Word(Get(s, "id"))}
  {
    hide OnlyKeys, IsSourceId, OneOf, ProvidersOk, RetrievalOk, RetrievalOf, MetadataOk, MetadataOf, WordsOf, Get;
    NotAnObject(s, SOURCE_KEYS);
    var o := ObjectOf(c, s, key, SOURCE_KEYS);
    if o.None? {
      return None, seen;
    }
    next := SourceIdAt(c, s, key, seen);
    var providers := ProvidersAt(c, s, key);
    var layout := WordAt(c, s, key, "layout", ["aws-data-exports", "single-file"]);
    var retrieval := RetrievalAt(c, x, Get(s, "retrieval"), key + ".retrieval");
    var metadata := MetadataAt(c, x, Get(s, "metadata"), key + ".metadata", ids, SelfId(s));
    LayoutIsTruthy(Get(s, "layout"));
    if IsSourceId(Get(s, "id")) && Truthy(layout) && metadata.Some? && providers.Some? && retrieval.Some? {
      r := Some(Source(Word(Get(s, "id")), providers.value, layout.value, retrieval.value, metadata.value));
    } else {
      r := None;
    }
  }

  lemma LayoutIsTruthy(v: Json)
    ensures OneOf(v, ["aws-data-exports", "single-file"]) ==> Word(v) != ""
  {
  }

  method SourceIdsOf(items: seq<Json>) returns (ids: set<string>)
    ensures ids == SourceIds(items)
  {
    hide IsSourceId;
    ids := {};
    for i := 0 to |items|
      invariant ids == SourceIds(items[..i])
    {
      SourceIdsGrow(items, i);
      if items[i].Object? && IsSourceId(Get(items[i], "id")) {
        ids := ids + {Word(Get(items[i], "id"))};
      }
    }
    WholePrefix(items);
  }

  lemma SourceIdsGrow(items: seq<Json>, i: nat)
    requires i < |items|
    ensures SourceIds(items[..i + 1])
            == SourceIds(items[..i])
               + if items[i].Object? && IsSourceId(Get(items[i], "id")) then {Word(Get(items[i], "id"))} else {}
  {
    hide IsSourceId;
    var more := items[..i + 1];
    forall w
      ensures w in SourceIds(more) <==>
                w in SourceIds(items[..i])
                || (items[i].Object? && IsSourceId(Get(items[i], "id")) && w == Word(Get(items[i], "id")))
    {
      assert more[i] == items[i];
      if w in SourceIds(items[..i]) {
        var j :| 0 <= j < i && items[..i][j].Object? && IsSourceId(Get(items[..i][j], "id"))
                 && Word(Get(items[..i][j], "id")) == w;
        assert more[j] == items[..i][j];
      }
    }
  }

  method SourcesAt(c: Ctx, x: Outside, root: Json) returns (sources: seq<Source>)
    modifies c
    ensures Reports(|old(c.problems)|, |c.problems|, SourcesOk(x, Get(root, "sources")))
    ensures SourcesOk(x, Get(root, "sources")) ==> sources == Map(Items(Get(root, "sources")), SourceOf)
  {
    hide SourceOk, SourceOf, IdSet, Distinct, Word, Map;
    sources := [];
    var list := ListAt(c, root, "", "sources", 1, 50);
    if list.None? {
      return;
    }
    var items := list.value;
    var ids := SourceIdsOf(items);
    var seen: set<string> := {};
    ghost var column := Column(items, "id");
    EmptyPrefix(column);
    for i := 0 to |items|
      invariant Reports(|old(c.problems)|, |c.problems|,
                        (forall j :: 0 <= j < i ==> SourceOk(x, items[j], ids)) && Distinct(column[..i]))
      invariant |c.problems| == |old(c.problems)| ==>
                  sources == Map(items, SourceOf)[..i] && seen == IdSet(column[..i])
    {
      var source, next := SourceAt(c, x, items[i], ItemAt("sources", i), ids, seen);
      DistinctGrows(column, i);
      MapGrows(items, SourceOf, i);
      seen := next;
      if source.Some? {
        sources := sources + [source.value];
      }
    }
    WholePrefix(column);
    WholePrefix(Map(items, SourceOf));
  }

  lemma EmptyPrefix(s: seq<string>)
    ensures Distinct(s[..0]) && IdSet(s[..0]) == {}
  {
  }

  // -------------------------------------------------------------- allocation

  method WorkloadAt(c: Ctx, w: Json, key: string, wids: set<string>) returns (r: Option<Workload>)
    modifies c
    ensures Reports(|old(c.problems)|, |c.problems|, WorkloadOk(w) && Word(Get(w, "id")) !in wids)
    ensures WorkloadOk(w) ==> r == Some(WorkloadOf(w))
    ensures r.Some? ==> r.value.id != ""
  {
    hide OnlyKeys, IsText, Get;
    NotAnObject(w, ["id", "owner"]);
    var o := ObjectOf(c, w, key, ["id", "owner"]);
    if o.None? {
      return None;
    }
    var id := TextAt(c, w, key, "id", 128);
    var owner := TextAt(c, w, key, "owner", 128);
    TextIsTruthy(Get(w, "id"), 128);
    TextIsTruthy(Get(w, "owner"), 128);
    if Truthy(id) && id.value in wids {
      c.Bad(key + ".id", Duplicate);
    }
    return if Truthy(id) && Truthy(owner) then Some(Workload(id.value, owner.value)) else None;
  }

  predicate FirstOk(items: seq<Json>, n: nat)
    requires n <= |items|
  {
    forall j :: 0 <= j < n ==> WorkloadOk(items[j])
  }

  lemma NoneFails(items: seq<Json>)
    ensures FirstOk(items, 0)
  {
  }

  lemma OneMoreOk(items: seq<Json>, i: nat)
    requires i < |items|
    ensures FirstOk(items, i + 1) <==> FirstOk(items, i) && WorkloadOk(items[i])
  {
    hide WorkloadOk;
  }

  lemma AllAreOk(items: seq<Json>)
    ensures FirstOk(items, |items|) <==> forall i :: 0 <= i < |items| ==> WorkloadOk(items[i])
  {
    hide WorkloadOk;
  }

  lemma WorkloadId(w: Json)
    ensures WorkloadOf(w).id == Word(Get(w, "id"))
  {
  }

  method WorkloadsAt(c: Ctx, a: Json) returns (workloads: seq<Workload>, wids: set<string>)
    modifies c
    ensures Reports(|old(c.problems)|, |c.problems|, WorkloadsOk(Get(a, "workloads")))
    ensures WorkloadsOk(Get(a, "workloads")) ==>
              workloads == Map(Items(Get(a, "workloads")), WorkloadOf) && wids == WorkloadIds(Get(a, "workloads"))
    ensures "" !in wids
  {
    hide WorkloadOk, WorkloadOf, IdSet, Distinct, Word, ItemAt, Map, FirstOk;
    workloads, wids := [], {};
    var list := ListAt(c, a, "allocation", "workloads", 1, 1000);
    if list.None? {
      return;
    }
    var items := list.value;
    ghost var column := Column(items, "id");
    EmptyPrefix(column);
    NoneFails(items);
    for i := 0 to |items|
      invariant Reports(|old(c.problems)|, |c.problems|, FirstOk(items, i) && Distinct(column[..i]))
      invariant |c.problems| == |old(c.problems)| ==>
                  workloads == Map(items, WorkloadOf)[..i] && wids == IdSet(column[..i])
      invariant "" !in wids
    {
      var workload := WorkloadAt(c, items[i], ItemAt("allocation.workloads", i), wids);
      DistinctGrows(column, i);
      MapGrows(items, WorkloadOf, i);
      OneMoreOk(items, i);
      WorkloadId(items[i]);
      if workload.Some? {
        wids := wids + {workload.value.id};
        workloads := workloads + [workload.value];
      }
    }
    WholePrefix(column);
    WholePrefix(Map(items, WorkloadOf));
    AllAreOk(items);
  }

  method EntryAt(c: Ctx, m: Json, account: string, key: string, wids: set<string>) returns (fine: bool)
    modifies c
    ensures Reports(|old(c.problems)|, |c.problems|, fine)
    ensures fine == MapEntryOk(m, account, wids)
  {
    hide HasControl, Get, Distinct;
    var w := Get(m, account);
    fine := true;
    if account == "" || |account| > 128 || HasControl(account) {
      c.Bad(key, NotAnAccountId);
      fine := false;
    } else if !w.Text? || w.text !in wids {
      c.Bad(key, UndeclaredWorkload);
      fine := false;
    }
  }

  method AccountMapAt(c: Ctx, m: Json, wids: set<string>) returns (r: map<string, string>)
    modifies c
    ensures Reports(|old(c.problems)|, |c.problems|, AccountMapOk(m, wids))
    ensures AccountMapOk(m, wids) ==> r == AccountMapOf(m)
  {
    hide MapEntryOk;
    r := map[];
    if !m.Object? || |m.keys| > 10000 {
      c.Bad("allocation.subAccountMap", NotAnAccountMap);
      return;
    }
    for i := 0 to |m.keys|
      invariant Reports(|old(c.problems)|, |c.problems|, forall j :: 0 <= j < i ==> MapEntryOk(m, m.keys[j], wids))
      invariant |c.problems| == |old(c.problems)| ==> forall k :: k in r <==> k in m.keys[..i]
      invariant forall k :: k in r ==> r[k] == Word(Get(m, k))
    {
      var fine := EntryAt(c, m, m.keys[i], ItemAt("allocation.subAccountMap", i), wids);
      if fine {
        r := r[m.keys[i] := Word(Get(m, m.keys[i]))];
      }
    }
    WholePrefix(m.keys);
  }

  method TargetsAt(c: Ctx, r: Json, key: string, wids: set<string>) returns (targets: Option<seq<string>>)
    modifies c
    ensures Reports(|old(c.problems)|, |c.problems|, NeedsTargets(r) ==> TargetsOk(Get(r, "targets"), wids))
    ensures (NeedsTargets(r) ==> TargetsOk(Get(r, "targets"), wids)) ==>
              targets == if NeedsTargets(r) then Some(WordsOf(Get(r, "targets"))) else None
  {
    targets := None;
    if NeedsTargets(r) {
      var list := ListAt(c, r, key, "targets", 1, 1000);
      if list.Some? {
        if TargetsOk(Get(r, "targets"), wids) {
          targets := Some(Words(list.value));
        } else {
          c.Bad(KeyAt(key, "targets"), UndeclaredWorkload);
        }
      }
    }
  }

  method ServiceNameAt(c: Ctx, r: Json, key: string) returns (name: Option<string>)
    modifies c
    ensures Reports(|old(c.problems)|, |c.problems|, Has(r, "serviceName") ==> IsText(Get(r, "serviceName"), 200))
    ensures (Has(r, "serviceName") ==> IsText(Get(r, "serviceName"), 200)) ==>
              name == if Has(r, "serviceName") then Some(Word(Get(r, "serviceName"))) else None
  {
    hide IsText;
    name := None;
    if Has(r, "serviceName") {
      name := TextAt(c, r, key, "serviceName", 200);
    }
  }

  const RULE_KEYS := ["id", "rule", "serviceName", "targets"]

  method RuleAt(c: Ctx, r: Json, key: string, wids: set<string>, seen: set<string>)
    returns (rule: Option<SharedRule>, next: set<string>)
    modifies c
    ensures Reports(|old(c.problems)|, |c.problems|, RuleOk(r, wids) && Word(Get(r, "id")) !in seen)
    ensures RuleOk(r, wids) ==> rule == Some(RuleOf(r)) && next == seen + {Word(Get(r, "id"))}
  {
    hide OnlyKeys, IsText, OneOf, TargetsOk, WordsOf, Get, NeedsTargets, Has;
    NotAnObject(r, RULE_KEYS);
    var o := ObjectOf(c, r, key, RULE_KEYS);
    if o.None? {
      return None, seen;
    }
    next := seen;
    var id := TextAt(c, r, key, "id", 63);
    TextIsTruthy(Get(r, "id"), 63);
    if Truthy(id) && id.value in seen {
      c.Bad(key + ".id", Duplicate);
    }
    if Truthy(id) {
      next := seen + {id.value};
    }
    var ruleName := WordAt(c, r, key, "rule", RULES);
    RuleIsTruthy(Get(r, "rule"));
    var serviceName := ServiceNameAt(c, r, key);
    var targets := TargetsAt(c, r, key, wids);
    rule := if Truthy(id) && Truthy(ruleName) then Some(SharedRule(id.value, ruleName.value, serviceName, targets)) else None;
  }

  lemma RuleIsTruthy(v: Json)
    ensures OneOf(v, RULES) ==> Word(v) != ""
  {
  }

  method RulesAt(c: Ctx, a: Json, wids: set<string>) returns (rules: seq<SharedRule>)
    modifies c
    ensures Reports(|old(c.problems)|, |c.problems|, RulesOk(Get(a, "sharedCostRules"), wids))
    ensures RulesOk(Get(a, "sharedCostRules"), wids) ==> rules == Map(Items(Get(a, "sharedCostRules")), RuleOf)
  {
    hide RuleOk, RuleOf, IdSet, Distinct;
    rules := [];
    var list := ListAt(c, a, "allocation", "sharedCostRules", 0, 100);
    if list.None? {
      return;
    }
    var items, seen: set<string> := list.value, {};
    ghost var column := Column(items, "id");
    EmptyPrefix(column);
    for i := 0 to |items|
      invariant Reports(|old(c.problems)|, |c.problems|,
                        (forall j :: 0 <= j < i ==> RuleOk(items[j], wids)) && Distinct(column[..i]))
      invariant |c.problems| == |old(c.problems)| ==>
                  rules == Map(items, RuleOf)[..i] && seen == IdSet(column[..i])
    {
      var rule, next := RuleAt(c, items[i], ItemAt("allocation.sharedCostRules", i), wids, seen);
      DistinctGrows(column, i);
      seen := next;
      if rule.Some? {
        rules := rules + [rule.value];
      }
    }
    WholePrefix(column);
  }

  method AllocationAt(c: Ctx, v: Json) returns (allocation: Allocation, tagged: bool, wids: set<string>)
    modifies c
    ensures Reports(|old(c.problems)|, |c.problems|, AllocationOk(v))
    ensures AllocationOk(v) ==> allocation == AllocationOf(v) && tagged && wids == WorkloadIds(Get(v, "workloads"))
    ensures "" !in wids
  {
    hide OnlyKeys, IsText, WorkloadsOk, AccountMapOk, AccountMapOf, RulesOk, WorkloadIds, Map, Get, Items;
    NotAnObject(v, ALLOCATION_KEYS);
    var a := ObjectOrEmpty(c, v, "allocation", ALLOCATION_KEYS);
    var workloadTagKey := TextAt(c, a, "allocation", "workloadTagKey", 128);
    var ownerTagKey := TextAt(c, a, "allocation", "ownerTagKey", 128);
    TextIsTruthy(Get(a, "workloadTagKey"), 128);
    TextIsTruthy(Get(a, "ownerTagKey"), 128);
    var workloads, ids := WorkloadsAt(c, a);
    wids := ids;
    var accounts := AccountMapAt(c, Get(a, "subAccountMap"), wids);
    var rules := RulesAt(c, a, wids);
    tagged := Truthy(workloadTagKey) && Truthy(ownerTagKey);
    allocation := Allocation(Present(workloadTagKey), Present(ownerTagKey), accounts, workloads, rules);
  }

  // --------------------------------------------------- budgets and scenarios

  method WorkloadRefAt(c: Ctx, o: Json, key: string, wids: set<string>) returns (workload: Option<string>)
    requires "" !in wids
    modifies c
    ensures Reports(|old(c.problems)|, |c.problems|, Get(o, "workload").Text? && Get(o, "workload").text in wids)
    ensures workload == if Get(o, "workload").Text? && Get(o, "workload").text in wids
                        then Some(Word(Get(o, "workload"))) else None
    ensures workload.Some? ==> Truthy(workload)
  {
    var v := Get(o, "workload");
    workload := if v.Text? && v.text in wids then Some(v.text) else None;
    if workload.None? {
      c.Bad(key + ".workload", UndeclaredWorkload);
    }
  }

  method BudgetAt(c: Ctx, b: Json, key: string, wids: set<string>, seen: set<string>)
    returns (budget: Option<Budget>, next: set<string>)
    requires "" !in wids
    modifies c
    ensures Reports(|old(c.problems)|, |c.problems|, BudgetOk(b, wids) && Word(Get(b, "workload")) !in seen)
    ensures BudgetOk(b, wids) && Word(Get(b, "workload")) !in seen ==>
              budget == Some(BudgetOf(b)) && next == seen + {Word(Get(b, "workload"))}
  {
    hide OnlyKeys, IsBudget, Get;
    NotAnObject(b, ["workload", "monthly"]);
    next := seen;
    var o := ObjectOf(c, b, key, ["workload", "monthly"]);
    if o.None? {
      return None, seen;
    }
    var workload := WorkloadRefAt(c, b, key, wids);
    if workload.Some? && workload.value in seen {
      c.Bad(key + ".workload", Duplicate);
    }
    var monthly := Get(b, "monthly");
    BudgetIsTruthy(monthly);
    if !IsBudget(monthly) {
      c.Bad(key + ".monthly", BelowOneCent);
    }
    if Truthy(workload) && workload.value !in seen && IsBudget(monthly) {
      next := seen + {workload.value};
      budget := Some(Budget(workload.value, Word(monthly)));
    } else {
      budget := None;
    }
  }

  lemma BudgetIsTruthy(v: Json)
    ensures IsBudget(v) ==> Word(v) != ""
  {
  }

  method BudgetsAt(c: Ctx, root: Json, wids: set<string>) returns (budgets: seq<Budget>)
    requires "" !in wids
    modifies c
    ensures Reports(|old(c.problems)|, |c.problems|, BudgetsOk(Get(root, "budgets"), wids))
    ensures BudgetsOk(Get(root, "budgets"), wids) ==> budgets == Map(Items(Get(root, "budgets")), BudgetOf)
  {
    hide BudgetOk, BudgetOf, IdSet, Distinct, Word;
    budgets := [];
    var list := ListAt(c, root, "", "budgets", 0, 1000);
    if list.None? {
      return;
    }
    var items, seen: set<string> := list.value, {};
    ghost var column := Column(items, "workload");
    EmptyPrefix(column);
    for i := 0 to |items|
      invariant Reports(|old(c.problems)|, |c.problems|,
                        (forall j :: 0 <= j < i ==> BudgetOk(items[j], wids)) && Distinct(column[..i]))
      invariant |c.problems| == |old(c.problems)| ==>
                  budgets == Map(items, BudgetOf)[..i] && seen == IdSet(column[..i])
    {
      var budget, next := BudgetAt(c, items[i], ItemAt("budgets", i), wids, seen);
      DistinctGrows(column, i);
      seen := next;
      if budget.Some? {
        budgets := budgets + [budget.value];
      }
    }
    WholePrefix(column);
  }

  const ASSUMPTION_KEYS := ["inputTokensPerMonth", "outputTokensPerMonth", "cachedInputShare", "batchShare"]

  method TokensAt(c: Ctx, a: Json, key: string, k: string) returns (r: Option<int>)
    modifies c
    ensures Reports(|old(c.problems)|, |c.problems|, IsTokenCount(Get(a, k)))
    ensures r == if IsTokenCount(Get(a, k)) then Some(TokensIn(a, k)) else None
  {
    var v := Get(a, k);
    if IsTokenCount(v) {
      return Some(v.num.Floor);
    }
    c.Bad(KeyAt(key, k), NotATokenCount);
    return None;
  }

  method ShareAt(c: Ctx, a: Json, key: string, k: string) returns (r: Option<real>)
    modifies c
    ensures Reports(|old(c.problems)|, |c.problems|, ShareOk(a, k))
    ensures r == if ShareOk(a, k) then Some(ShareIn(a, k)) else None
  {
    if !Has(a, k) {
      return Some(0.0);
    }
    var v := Get(a, k);
    if IsShare(v) {
      return Some(v.num);
    }
    c.Bad(KeyAt(key, k), NotAShare);
    return None;
  }

  datatype Assumptions = Assumptions(input: Option<int>, output: Option<int>, cached: Option<real>, batch: Option<real>)

  method AssumptionsAt(c: Ctx, v: Json, key: string) returns (r: Assumptions)
    modifies c
    ensures Reports(|old(c.problems)|, |c.problems|, AssumptionsOk(v))
    ensures AssumptionsOk(v) ==>
              r == Assumptions(Some(TokensIn(v, "inputTokensPerMonth")), Some(TokensIn(v, "outputTokensPerMonth")),
                               Some(ShareIn(v, "cachedInputShare")), Some(ShareIn(v, "batchShare")))
  {
    hide OnlyKeys, IsTokenCount, ShareOk, TokensIn, ShareIn;
    NotAnObject(v, ASSUMPTION_KEYS);
    var a := ObjectOrEmpty(c, v, key, ASSUMPTION_KEYS);
    var input := TokensAt(c, a, key, "inputTokensPerMonth");
    var output := TokensAt(c, a, key, "outputTokensPerMonth");
    var cached := ShareAt(c, a, key, "cachedInputShare");
    var batch := ShareAt(c, a, key, "batchShare");
    return Assumptions(input, output, cached, batch);
  }

  const SCENARIO_KEYS := ["id", "workload", "currentModel", "candidateModel", "assumptions"]

  method ModelsAt(c: Ctx, x: Outside, s: Json, key: string) returns (current: Option<string>, candidate: Option<string>)
    requires "" !in x.modelIds
    modifies c
    ensures Reports(|old(c.problems)|, |c.problems|,
                    OneOf(Get(s, "currentModel"), x.modelIds) && OneOf(Get(s, "candidateModel"), x.modelIds)
                    && Get(s, "currentModel") != Get(s, "candidateModel"))
    ensures current == if OneOf(Get(s, "currentModel"), x.modelIds) then Some(Word(Get(s, "currentModel"))) else None
    ensures candidate == if OneOf(Get(s, "candidateModel"), x.modelIds) then Some(Word(Get(s, "candidateModel"))) else None
    ensures current.Some? ==> Truthy(current)
    ensures candidate.Some? ==> Truthy(candidate)
  {
    current := WordAt(c, s, key, "currentModel", x.modelIds);
    candidate := WordAt(c, s, key, "candidateModel", x.modelIds);
    if Truthy(current) && Truthy(candidate) && current == candidate {
      c.Bad(key + ".candidateModel", SameModel);
    }
  }

  method ScenarioAt(c: Ctx, x: Outside, s: Json, key: string, wids: set<string>, seen: set<string>)
    returns (scenario: Option<Scenario>, next: set<string>)
    requires "" !in wids && "" !in x.modelIds
    modifies c
    ensures Reports(|old(c.problems)|, |c.problems|, ScenarioOk(x, s, wids) && Word(Get(s, "id")) !in seen)
    ensures ScenarioOk(x, s, wids) ==> scenario == Some(ScenarioOf(s)) && next == seen + {Word(Get(s, "id"))}
  {
    hide OnlyKeys, IsText, OneOf, Get, AssumptionsOk, TokensIn, ShareIn;
    NotAnObject(s, SCENARIO_KEYS);
    next := seen;
    var o := ObjectOf(c, s, key, SCENARIO_KEYS);
    if o.None? {
      return None, seen;
    }
    var id := TextAt(c, s, key, "id", 63);
    TextIsTruthy(Get(s, "id"), 63);
    if Truthy(id) && id.value in seen {
      c.Bad(key + ".id", Duplicate);
    }
    if Truthy(id) {
      next := seen + {id.value};
    }
    var workload := WorkloadRefAt(c, s, key, wids);
    var current, candidate := ModelsAt(c, x, s, key);
    var a := AssumptionsAt(c, Get(s, "assumptions"), key + ".assumptions");
    if Truthy(id) && Truthy(workload) && Truthy(current) && Truthy(candidate)
       && a.input.Some? && a.output.Some? && a.cached.Some? && a.batch.Some? {
      scenario := Some(Scenario(id.value, workload.value, current.value, candidate.value,
                                a.input.value, a.output.value, a.cached.value, a.batch.value));
    } else {
      scenario := None;
    }
  }

  method ScenariosAt(c: Ctx, x: Outside, root: Json, wids: set<string>) returns (scenarios: seq<Scenario>)
    requires "" !in wids && "" !in x.modelIds
    modifies c
    ensures Reports(|old(c.problems)|, |c.problems|, ScenariosOk(x, Get(root, "scenarios"), wids))
    ensures ScenariosOk(x, Get(root, "scenarios"), wids) ==>
              scenarios == Map(Items(Get(root, "scenarios")), ScenarioOf)
  {
    hide ScenarioOk, ScenarioOf, IdSet, Distinct, Map;
    scenarios := [];
    var list := ListAt(c, root, "", "scenarios", 0, 100);
    if list.None? {
      return;
    }
    var items, seen: set<string> := list.value, {};
    ghost var column := Column(items, "id");
    EmptyPrefix(column);
    for i := 0 to |items|
      invariant Reports(|old(c.problems)|, |c.problems|,
                        (forall j :: 0 <= j < i ==> ScenarioOk(x, items[j], wids)) && Distinct(column[..i]))
      invariant |c.problems| == |old(c.problems)| ==>
                  scenarios == Map(items, ScenarioOf)[..i] && seen == IdSet(column[..i])
    {
      var scenario, next := ScenarioAt(c, x, items[i], ItemAt("scenarios", i), wids, seen);
      DistinctGrows(column, i);
      MapGrows(items, ScenarioOf, i);
      seen := next;
      if scenario.Some? {
        scenarios := scenarios + [scenario.value];
      }
    }
    WholePrefix(column);
    WholePrefix(Map(items, ScenarioOf));
  }

  // ---------------------------------------------------------------- platform

  /** The flags of a platform block, or its problems: one at least when there are no flags. */
  method ParsePlatform(v: Json) returns (flags: Option<seq<bool>>, problems: seq<Problem>)
    ensures PlatformOk(v) ==> flags == Some(FlagsOf(v)) && problems == []
    ensures !PlatformOk(v) ==> flags.None? && problems != []
  {
    problems := [];
    if v == Absent {
      return Some(FlagsOf(v)), [];
    }
    if !v.Object? {
      return None, [Problem("platform", NotFlags)];
    }
    for i := 0 to |v.keys|
      invariant problems == [] <==> forall j :: 0 <= j < i ==> v.keys[j] in PLATFORM_KEYS
    {
      if v.keys[i] !in PLATFORM_KEYS {
        problems := problems + [Problem("platform", UnknownKey)];
      }
    }
    for i := 0 to |PLATFORM_KEYS|
      invariant problems == [] <==>
                  OnlyKeys(v, PLATFORM_KEYS)
                  && forall j :: 0 <= j < i ==> Get(v, PLATFORM_KEYS[j]) == Absent || Get(v, PLATFORM_KEYS[j]).Bool?
    {
      var flag := Get(v, PLATFORM_KEYS[i]);
      if flag != Absent && !flag.Bool? {
        problems := problems + [Problem("platform." + PLATFORM_KEYS[i], NotAFlag)];
      }
    }
    if problems != [] {
      return None, problems;
    }
    for i := 0 to |CAPABILITIES|
      invariant problems == [] <==> forall j :: 0 <= j < i ==> IsOn(v, CAPABILITIES[j]) ==> IsOn(v, "enabled")
    {
      if IsOn(v, CAPABILITIES[i]) && !IsOn(v, "enabled") {
        problems := problems + [Problem("platform." + CAPABILITIES[i], PlatformDisabled)];
      }
    }
    if problems != [] {
      return None, problems;
    }
    return Some(FlagsOf(v)), [];
  }

  method OptionalAt(c: Ctx, root: Json) returns (outcomes: Option<string>, platform: Option<seq<bool>>)
    modifies c
    ensures Reports(|old(c.problems)|, |c.problems|,
                    (Has(root, "outcomesFile") ==> IsFilePath(Get(root, "outcomesFile")))
                    && (Has(root, "platform") ==> PlatformOk(Get(root, "platform"))))
    ensures |c.problems| == |old(c.problems)| ==>
              && outcomes == (if Has(root, "outcomesFile") then Some(Word(Get(root, "outcomesFile"))) else None)
              && platform == (if Has(root, "platform") then Some(FlagsOf(Get(root, "platform"))) else None)
  {
    hide IsFilePath, PlatformOk, FlagsOf;
    outcomes, platform := None, None;
    if Has(root, "outcomesFile") {
      if IsFilePath(Get(root, "outcomesFile")) {
        outcomes := Some(Word(Get(root, "outcomesFile")));
      } else {
        c.Bad("outcomesFile", NotAFilePath);
      }
    }
    if Has(root, "platform") {
      var flags, problems := ParsePlatform(Get(root, "platform"));
      if flags.Some? {
        platform := flags;
      } else {
        c.problems := c.problems + problems;
      }
    }
  }

  // ---------------------------------------------------------- the whole file

  datatype Identifiers = Identifiers(
    engagementId: Option<string>,
    tenantId: Option<string>,
    displayName: Option<string>,
    currency: Option<string>)

  predicate NamesOk(v: Json) {
    && IsId(Get(v, "engagementId"))
    && IsUuid(Get(v, "tenantId"))
    && IsText(Get(v, "displayName"), 120)
    && IsCurrency(Get(v, "currency"))
  }

  method NamedAt(c: Ctx, fine: bool, value: string, key: string, why: Reason) returns (r: Option<string>)
    requires fine ==> value != ""
    modifies c
    ensures Reports(|old(c.problems)|, |c.problems|, fine)
    ensures r == if fine then Some(value) else None
  {
    r := if fine then Some(value) else None;
    if !Truthy(r) {
      c.Bad(key, why);
    }
  }

  method NamesAt(c: Ctx, root: Json) returns (r: Identifiers)
    modifies c
    ensures Reports(|old(c.problems)|, |c.problems|, NamesOk(root))
    ensures NamesOk(root) ==>
              && r == Identifiers(Some(Word(Get(root, "engagementId"))), Some(Lower(Word(Get(root, "tenantId")))),
                            Some(Word(Get(root, "displayName"))), Some(Word(Get(root, "currency"))))
              && Truthy(r.engagementId) && Truthy(r.tenantId) && Truthy(r.displayName) && Truthy(r.currency)
  {
    hide IsId, IsUuid, IsText, IsCurrency, Lower, Get;
    NamesAreTruthy(root);
    var id, tenant, currency := Get(root, "engagementId"), Get(root, "tenantId"), Get(root, "currency");
    var engagementId := NamedAt(c, IsId(id), Word(id), "engagementId",
                                NotAnId);
    var tenantId := NamedAt(c, IsUuid(tenant), Lower(Word(tenant)), "tenantId", NotAUuid);
    var displayName := TextAt(c, root, "", "displayName", 120);
    var code := NamedAt(c, IsCurrency(currency), Word(currency), "currency",
                        NotACurrency);
    return Identifiers(engagementId, tenantId, displayName, code);
  }

  lemma NamesAreTruthy(v: Json)
    ensures IsId(Get(v, "engagementId")) ==> Word(Get(v, "engagementId")) != ""
    ensures IsUuid(Get(v, "tenantId")) ==> Lower(Word(Get(v, "tenantId"))) != ""
    ensures IsText(Get(v, "displayName"), 120) ==> Word(Get(v, "displayName")) != ""
    ensures IsCurrency(Get(v, "currency")) ==> Word(Get(v, "currency")) != ""
  {
    hide AllMatch, IsHex, HasControl;
    TextIsTruthy(Get(v, "displayName"), 120);
  }

  /**
   Accepts exactly the well-formed values and returns all they declare. Whatever is refused has a
   recorded problem: the catch-all "config: invalid" is never the answer.
   */
  method ValidateInto(c: Ctx, x: Outside, input: Json) returns (r: Verdict)
    requires c.problems == [] && "" !in x.modelIds
    modifies c
    ensures WellFormed(x, input) ==> r == Accepted(ConfigOf(input))
    ensures !WellFormed(x, input) ==> r.Refused? && r.problems != []
    ensures r.Refused? && input.Object? ==> r.problems == c.problems
  {
    hide OnlyKeys, IsId, IsUuid, IsText, IsCurrency, SourcesOk, AllocationOk, BudgetsOk, ScenariosOk, IsFilePath, PlatformOk;
    hide SourceOf, AllocationOf, BudgetOf, ScenarioOf, FlagsOf, Map, Get, Lower, Has, Items;
    NotAnObject(input, TOP_KEYS);
    var root := ObjectOf(c, input, "", TOP_KEYS);
    if root.None? {
      return Refused([Problem("config", NotAnObjectValue)]);
    }
    var names := NamesAt(c, input);
    var sources := SourcesAt(c, x, input);
    var allocation, tagged, wids := AllocationAt(c, Get(input, "allocation"));
    var budgets := BudgetsAt(c, input, wids);
    var scenarios := ScenariosAt(c, x, input, wids);
    var outcomes, platform := OptionalAt(c, input);
    if |c.problems| > 0 || !Truthy(names.engagementId) || !Truthy(names.tenantId) || !Truthy(names.displayName)
       || !Truthy(names.currency) || !tagged {
      return Refused(if |c.problems| > 0 then c.problems else [Problem("config", Invalid)]);
    }
    return Accepted(Config(names.engagementId.value, names.tenantId.value, names.displayName.value,
                           names.currency.value, sources, allocation, budgets, scenarios, outcomes, platform));
  }

  method ValidateEngagementConfig(x: Outside, input: Json) returns (r: Verdict)
    requires "" !in x.modelIds
    ensures WellFormed(x, input) ==> r == Accepted(ConfigOf(input))
    ensures !WellFormed(x, input) ==> r.Refused? && r.problems != []
  {
    hide WellFormed, ConfigOf;
    var c := new Ctx();
    r := ValidateInto(c, x, input);
  }
}
