/** `metadata` and `currencyTotals` of src/engagement/config.ts. */
module ConfigMetadata {
  import opened Basics
  import opened ConfigGuards
  import opened ConfigModel
  import opened ConfigRules
  import opened JsonValues
  import opened Sequences

  // -------------------------------------------------------------- metadata

  method IdentityAt(c: Ctx, m: Json, key: string) returns (r: Identity)
    modifies c
    ensures Reports(|old(c.problems)|, |c.problems|, IdentityOk(m))
    ensures IdentityOk(m) ==> r == IdentityOf(m)
  {
    hide IsText, OneOf, Get;
    var provider := WordAt(c, m, key, "provider", PROVIDERS);
    var sourceKind := WordAt(c, m, key, "source_kind", SOURCE_KINDS);
    var schemaVersion := TextAt(c, m, key, "schema_version", 32);
    var costBasis := WordAt(c, m, key, "cost_basis", COST_BASES);
    var dataset := TextAt(c, m, key, "dataset", 200);
    var sourceRole := WordAt(c, m, key, "source_role", SOURCE_ROLES);
    var provenance := WordAt(c, m, key, "provenance", PROVENANCES);
    var sanitization := TextAt(c, m, key, "sanitization", 500);
    r := Identity(Present(provider), Present(sourceKind), Present(schemaVersion), Present(costBasis),
                  Present(dataset), Present(sourceRole), Present(provenance), Present(sanitization));
  }

  method VersionsAt(c: Ctx, v: Json, key: string) returns (r: seq<string>)
    modifies c
    ensures Reports(|old(c.problems)|, |c.problems|, VersionsOk(v))
    ensures VersionsOk(v) ==> r == VersionsOf(v)
  {
    hide IsText, IsHash;
    var o := ObjectOrEmpty(c, v, key, VERSION_FIELDS);
    ghost var allowed := |c.problems|;
    r := [];
    for i := 0 to |VERSION_FIELDS|
      invariant Reports(allowed, |c.problems|, forall j :: 0 <= j < i ==> VersionOk(o, VERSION_FIELDS[j]))
      invariant |c.problems| == allowed ==> r == VersionsOf(o)[..i]
    {
      var f := VERSION_FIELDS[i];
      if f == "schema_snapshot_hash" {
        if IsHash(Get(o, f)) {
          IsHashText(Get(o, f));
          r := r + [Get(o, f).text];
        } else {
          c.Bad(KeyAt(key, f), NotAHash);
        }
      } else {
        var t := TextAt(c, o, key, f, 200);
        if t.Some? {
          r := r + [t.value];
        }
      }
    }
  }

  method AccountsAt(c: Ctx, v: Json, key: string) returns (r: Option<Accounts>)
    modifies c
    ensures Reports(|old(c.problems)|, |c.problems|, AccountsOk(v))
    ensures r == if AccountsOk(v) then Some(AccountsOf(v)) else None
  {
    if OneOf(v, ACCOUNT_WORDS) {
      return Some(Described(v.text));
    }
    if IsList(v, 1, 10000) && forall i :: 0 <= i < |v.items| ==> IsAccountId(v.items[i]) {
      return Some(Listed(Words(v.items)));
    }
    c.Bad(key, NotAccounts);
    return None;
  }

  method PeriodAt(c: Ctx, x: Outside, s: Json, key: string)
    modifies c
    ensures Reports(|old(c.problems)|, |c.problems|, PeriodOk(x, s))
  {
    hide Timestamp;
    var t0 := Timestamp(x.parseDate, Get(s, "period_start"));
    var t1 := Timestamp(x.parseDate, Get(s, "period_end"));
    if t0.None? {
      c.Bad(KeyAt(key, "period_start"), NotATimestamp);
    }
    if t1.None? {
      c.Bad(KeyAt(key, "period_end"), NotATimestamp);
    }
    if t0.Some? && t1.Some? && !(t0.value < t1.value) {
      c.Bad(KeyAt(key, "period_start"), PeriodReversed);
    }
  }

  method CompletenessAt(c: Ctx, s: Json, key: string) returns (completeness: Option<string>, subset: Option<string>)
    modifies c
    ensures Reports(|old(c.problems)|, |c.problems|, CompletenessOk(s))
    ensures CompletenessOk(s) ==>
              && completeness == Some(Word(Get(s, "completeness")))
              && subset == ScopeOf(s).subset
  {
    hide IsText, AccountsOf;
    IsTextWord(Get(s, "subset_description"), 500);
    completeness := WordAt(c, s, key, "completeness", ["full-period", "explicit-subset"]);
    subset := None;
    if completeness == Some("explicit-subset") {
      subset := TextAt(c, s, key, "subset_description", 500);
    } else if completeness == Some("full-period") && Has(s, "subset_description") {
      c.Bad(KeyAt(key, "subset_description"), OnlyWithExplicitSubset);
    }
  }

  method ScopeAt(c: Ctx, x: Outside, v: Json, key: string) returns (r: Option<Scope>)
    modifies c
    ensures Reports(|old(c.problems)|, |c.problems|, ScopeOk(x, v))
    ensures ScopeOk(x, v) ==> r == Some(ScopeOf(v))
  {
    hide AccountsOk, PeriodOk, CompletenessOk, AccountsOf, OnlyKeys;
    NotAnObject(v, SCOPE_KEYS);
    var s := ObjectOrEmpty(c, v, key, SCOPE_KEYS);
    var accounts := AccountsAt(c, Get(s, "accounts"), KeyAt(key, "accounts"));
    PeriodAt(c, x, s, key);
    var semantics := WordAt(c, s, key, "period_end_semantics", ["inclusive", "exclusive"]);
    var zone := Get(s, "timezone");
    if !ZoneOk(x, zone) {
      c.Bad(KeyAt(key, "timezone"), NotATimeZone);
    }
    var completeness, subset := CompletenessAt(c, s, key);
    if accounts.None? || semantics.None? || completeness.None? {
      return None;
    }
    return Some(Scope(accounts.value, Word(Get(s, "period_start")), Word(Get(s, "period_end")), semantics.value,
                      Word(zone), completeness.value, subset));
  }

  method DeliveryAt(c: Ctx, v: Json, key: string) returns (r: Delivery)
    modifies c
    ensures Reports(|old(c.problems)|, |c.problems|, DeliveryOk(v))
    ensures DeliveryOk(v) ==> r == DeliveryOf(v)
  {
    hide IsText, OneOf, OnlyKeys, IsFileName;
    NotAnObject(v, DELIVERY_KEYS);
    var d := ObjectOrEmpty(c, v, key, DELIVERY_KEYS);
    var format := WordAt(c, d, key, "format", ["csv", "csv-gzip", "parquet", "ndjson"]);
    var compression := TextAt(c, d, key, "compression", 40);
    var manifest := TextAt(c, d, key, "manifest", 255);
    IsTextWord(Get(d, "manifest"), 255);
    if manifest.Some? && manifest.value != "not-provided" && !IsFileName(manifest.value) {
      c.Bad(KeyAt(key, "manifest"), NotAFileName);
    }
    var refresh := TextAt(c, d, key, "refresh_behavior", 500);
    r := Delivery(Present(format), Present(compression), Present(manifest), Present(refresh));
  }

  // ------------------------------------------------------------- financial

  method CurrenciesAt(c: Ctx, f: Json, key: string) returns (currencies: seq<string>)
    modifies c
    ensures Reports(|old(c.problems)|, |c.problems|, CurrenciesOk(Get(f, "currencies")))
    ensures CurrenciesOk(Get(f, "currencies")) ==> currencies == Words(Get(f, "currencies").items)
  {
    hide IsCurrency;
    currencies := [];
    var items := ListAt(c, f, key, "currencies", 1, 20);
    if items.None? {
      return;
    }
    var list := items.value;
    for i := 0 to |list|
      invariant Reports(|old(c.problems)|, |c.problems|, forall j :: 0 <= j < i ==> IsCurrency(list[j]))
      invariant (forall j :: 0 <= j < i ==> IsCurrency(list[j])) ==> currencies == Words(list)[..i]
    {
      if IsCurrency(list[i]) {
        IsCurrencyText(list[i]);
        currencies := currencies + [list[i].text];
      } else {
        c.Bad(ItemAt(KeyAt(key, "currencies"), i), NotACurrency);
      }
    }
    if !Distinct(currencies) {
      c.Bad(KeyAt(key, "currencies"), RepeatedCurrency);
    }
  }

  method TotalsAt(c: Ctx, f: Json, key: string, k: string, currencies: seq<string>) returns (r: Option<Totals>)
    modifies c
    ensures Reports(|old(c.problems)|, |c.problems|, TotalsOk(Get(f, k), currencies))
    ensures r == if TotalsOk(Get(f, k), currencies) then Some(TotalsOf(Get(f, k))) else None
  {
    hide IsAmount;
    var v := Get(f, k);
    if v == NOT_AVAILABLE {
      return Some(NotAvailable);
    }
    if !v.Object? {
      c.Bad(KeyAt(key, k), NotTotals);
      return None;
    }
    var ok := |v.keys| == |currencies|;
    for i := 0 to |v.keys|
      invariant ok <==> |v.keys| == |currencies|
                        && forall j :: 0 <= j < i ==> v.keys[j] in currencies && IsAmount(Get(v, v.keys[j]))
    {
      if v.keys[i] !in currencies || !IsAmount(Get(v, v.keys[i])) {
        ok := false;
      }
    }
    if !ok {
      c.Bad(KeyAt(key, k), NotOneAmountPerCurrency);
      return None;
    }
    return Some(TotalsOf(v));
  }

  const CONTROL_SOURCES := ["export-query", "console", "invoice", "not_available"]

  /** What the validator can say about the source of totals, some of which may be unreadable. */
  predicate ControlOk(f: Json, billed: Option<Totals>, effective: Option<Totals>) {
    && OneOf(Get(f, "control_total_source"), CONTROL_SOURCES)
    && (billed.Some? && effective.Some? ==>
          (Get(f, "control_total_source") == NOT_AVAILABLE <==> billed.value.NotAvailable? && effective.value.NotAvailable?))
  }

  method ControlSourceAt(c: Ctx, f: Json, key: string, billed: Option<Totals>, effective: Option<Totals>)
    returns (source: Option<string>)
    modifies c
    ensures Reports(|old(c.problems)|, |c.problems|, ControlOk(f, billed, effective))
    ensures ControlOk(f, billed, effective) ==> source == Some(Word(Get(f, "control_total_source")))
  {
    hide OneOf;
    source := WordAt(c, f, key, "control_total_source", CONTROL_SOURCES);
    OneOfWord(Get(f, "control_total_source"), CONTROL_SOURCES);
    if source == Some("not_available") && billed.Some? && effective.Some?
       && (billed.value != NotAvailable || effective.value != NotAvailable) {
      c.Bad(KeyAt(key, "control_total_source"), TotalsWithoutSource);
    }
    if source.Some? && source != Some("not_available")
       && billed == Some(NotAvailable) && effective == Some(NotAvailable) {
      c.Bad(KeyAt(key, "control_total_source"), SourceWithoutTotals);
    }
  }

  method FinancialAt(c: Ctx, v: Json, key: string) returns (r: Option<Financial>)
    modifies c
    ensures Reports(|old(c.problems)|, |c.problems|, FinancialOk(v))
    ensures FinancialOk(v) ==> r == Some(FinancialOf(v))
  {
    hide IsText, OneOf, OnlyKeys, TotalsOk, CurrenciesOk, TotalsOf, Get;
    NotAnObject(v, FINANCIAL_KEYS);
    var f := ObjectOrEmpty(c, v, key, FINANCIAL_KEYS);
    CurrenciesAreListed(Get(f, "currencies"));
    var currencies := CurrenciesAt(c, f, key);
    var billed := TotalsAt(c, f, key, "billed_cost_total", currencies);
    var effective := TotalsAt(c, f, key, "effective_cost_total", currencies);
    var credits := WordAt(c, f, key, "credits_coverage", TRI);
    var tax := WordAt(c, f, key, "tax_coverage", TRI);
    var source := ControlSourceAt(c, f, key, billed, effective);
    var differences := TextAt(c, f, key, "known_differences", 1000);
    TotalsKind(Get(f, "billed_cost_total"), currencies);
    TotalsKind(Get(f, "effective_cost_total"), currencies);
    if billed.None? || effective.None? {
      return None;
    }
    return Some(Financial(currencies, billed.value, effective.value, Present(credits), Present(tax),
                          Present(source), Present(differences)));
  }

  // --------------------------------------------------------------- overlap

  method OverlapAt(c: Ctx, v: Json, key: string, ids: set<string>, self: Option<string>) returns (r: Overlap)
    modifies c
    ensures Reports(|old(c.problems)|, |c.problems|, OverlapOk(v, ids, self))
    ensures OverlapOk(v, ids, self) ==> r == OverlapOf(v)
  {
    hide IsText, OnlyKeys;
    NotAnObject(v, ["also_present_in_other_source", "related_source"]);
    var o := ObjectOrEmpty(c, v, key, ["also_present_in_other_source", "related_source"]);
    var also := WordAt(c, o, key, "also_present_in_other_source", ["yes", "no", "unknown"]);
    var related := TextAt(c, o, key, "related_source", 63);
    IsTextWord(Get(o, "related_source"), 63);
    if related.Some? && also.Some? {
      var resolves := Resolves(related.value, ids, self);
      if also == Some("yes") && !resolves {
        c.Bad(KeyAt(key, "related_source"), MustNameAnotherSource);
      } else if also != Some("yes") && related != Some("none") && !resolves {
        c.Bad(KeyAt(key, "related_source"), MustNameNoneOrAnotherSource);
      }
    }
    r := Overlap(Present(also), Present(related));
  }

  method MetadataAt(c: Ctx, x: Outside, v: Json, key: string, ids: set<string>, self: Option<string>)
    returns (r: Option<Metadata>)
    modifies c
    ensures Reports(|old(c.problems)|, |c.problems|, MetadataOk(x, v, ids, self))
    ensures r == if MetadataOk(x, v, ids, self) then Some(MetadataOf(v)) else None
  {
    hide OnlyKeys, IdentityOk, VersionsOk, ScopeOk, DeliveryOk, FinancialOk, OverlapOk;
    hide IdentityOf, VersionsOf, ScopeOf, DeliveryOf, FinancialOf, OverlapOf;
    NotAnObject(v, META_KEYS);
    var before := |c.problems|;
    var o := ObjectOf(c, v, key, META_KEYS);
    if o.None? {
      return None;
    }
    var m := o.value;
    var identity := IdentityAt(c, m, key);
    var versions := VersionsAt(c, Get(m, "versions"), KeyAt(key, "versions"));
    var scope := ScopeAt(c, x, Get(m, "scope"), KeyAt(key, "scope"));
    var delivery := DeliveryAt(c, Get(m, "delivery"), KeyAt(key, "delivery"));
    var financial := FinancialAt(c, Get(m, "financial"), KeyAt(key, "financial"));
    var overlap := OverlapAt(c, Get(m, "overlap"), KeyAt(key, "overlap"), ids, self);
    if |c.problems| > before || scope.None? || financial.None? {
      return None;
    }
    return Some(Metadata(identity, versions, scope.value, delivery, financial.value, overlap));
  }

  lemma TotalsKind(v: Json, currencies: seq<string>)
    ensures TotalsOk(v, currencies) ==> (TotalsOf(v) == NotAvailable <==> v == NOT_AVAILABLE)
  {
  }

  lemma CurrenciesAreListed(v: Json)
    ensures CurrenciesOk(v) ==> v.Array?
  {
  }
}
