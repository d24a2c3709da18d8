/** A small engagement that meets every condition of src/engagement/config.ts: one source, one workload, one budget. */
module ConfigExample {
  import opened Basics
  import opened ConfigBuilt
  import opened ConfigModel
  import opened ConfigMoments
  import opened ConfigSound
  import opened ConfigTexts
  import opened Digits
  import opened JsText

  const JANUARY := Moment("2024", "01", "01", "00", "00", "00", "", Utc)

  const FEBRUARY := Moment("2024", "02", "01", "00", "00", "00", "", Utc)

  function SmallScope(): Scope {
    Scope(Described("unknown"), Written(JANUARY), Written(FEBRUARY), "exclusive", "UTC", "full-period", None)
  }

  function SmallFinancial(): Financial {
    Financial(["EUR"], PerCurrency(map["EUR" := "-1.50"]), NotAvailable, "unknown", "unknown", "invoice", "none")
  }

  function SmallMetadata(): Metadata {
    Metadata(
      Identity("AWS", "focus-export", "1.0", "billed", "unknown", "authoritative", "official-example", "none"),
      ["p", "a", "e", "unknown", "1.0", "m", "c"],
      SmallScope(),
      Delivery("csv", "none", "not-provided", "daily"),
      SmallFinancial(),
      Overlap("no", "none"))
  }

  function SmallSource(): Source { Source("aws", ["AWS"], "single-file", FileDrop, SmallMetadata()) }

  function SmallTenant(): string { FiveGroups(Zeros(8), Zeros(4), Zeros(4), Zeros(4), Zeros(12)) }

  function SmallConfig(): Config {
    Config("demo", SmallTenant(), "Demo", "EUR", [SmallSource()],
           Allocation("workload", "owner", map["acct" := "w"], [Workload("w", "o")],
                      [SharedRule("r", "even_split", None, Some(["w"]))]),
           [Budget("w", "0.01")], [], None, Some([true, true, false, false, false]))
  }

  lemma {:induction false} ParseTwo(s: string)
    requires |s| == 2 && AllDigits(s)
    ensures Parse(s) == 10 * DigitValue(s[0]) + DigitValue(s[1])
  {
    assert s[..1][..0] == "" && Parse(s[..1]) == DigitValue(s[0]);
  }

  lemma ParseYear()
    ensures AllDigits("2024") && Parse("2024") == 2024
  {
    var s := "2024";
    assert s[..3][..2] == "20" && s[..3][2] == '2' && s[..3] == "202";
    ParseTwo("20");
    assert Parse("202") == 10 * Parse("20") + 2 by { assert "202"[..2] == "20"; }
  }

  lemma MonthsAreReal()
    ensures IsMoment(Written(JANUARY), JANUARY) && IsMoment(Written(FEBRUARY), FEBRUARY)
    ensures At(JANUARY) + 0.001 <= At(FEBRUARY) && KnownOffset(JANUARY.zone) && KnownOffset(FEBRUARY.zone)
  {
    hide Written, DaysBeforeYear, Parse;
    ParseYear();
    ParseTwo("00");
    ParseTwo("01");
    ParseTwo("02");
    assert DaysBeforeMonth(2024, 2) == DaysBeforeMonth(2024, 1) + 31;
  }

  lemma ScopeIsSound(x: Outside)
    requires FollowsCalendar(x.parseDate) && x.isTimeZone("UTC")
    ensures SoundScope(x, SmallScope())
  {
    hide Written, At, IsMoment, FollowsCalendar;
    MonthsAreReal();
    var s, t := Written(JANUARY), Written(FEBRUARY);
    assert Dated(s) && Dated(t);
    ForwardMeans(x.parseDate, s, t, JANUARY, FEBRUARY);
  }

  lemma Visible(s: string, max: nat)
    requires 1 <= |s| <= max && forall i :: 0 <= i < |s| ==> 33 <= s[i] as int <= 126
    ensures Line(s, max)
  {
    assert !White(s[0]);
  }

  lemma MetadataIsSound(x: Outside, ids: set<string>)
    requires FollowsCalendar(x.parseDate) && x.isTimeZone("UTC")
    ensures SoundMetadata(x, SmallMetadata(), ids, "aws")
  {
    hide SmallScope, SoundScope, Line, SmallFinancial, SoundFinancial;
    ScopeIsSound(x);
    FinancialIsSound();
    Visible("1.0", 32);
    Visible("unknown", 200);
    Visible("none", 500);
    Visible("p", 200);
    Visible("a", 200);
    Visible("e", 200);
    Visible("1.0", 200);
    Visible("m", 200);
    Visible("c", 200);
    Visible("none", 40);
    Visible("not-provided", 255);
    Visible("daily", 500);
    Visible("none", 63);
  }

  lemma FinancialIsSound()
    ensures SoundFinancial(SmallFinancial())
  {
    hide Line;
    Visible("none", 1000);
    assert NumeralParts("1.50", "1", "50");
    assert "-1.50" == "-" + "1.50";
  }

  lemma BudgetIsSound()
    ensures Money("0.01")
  {
    var s := "0.01";
    assert s == "0" + ("." + "01") && "0" + "01" == "001";
    assert "001"[..2] == "00" && "001"[2] == '1';
    ParseTwo("00");
    assert Parse("001") == 1;
    assert Pow10(2) == 100;
    assert NumeralParts(s, "0", "01") && WorthACent("0", "01");
  }

  /** The conditions can be met: with a date parser that follows the calendar the small engagement is sound. */
  lemma SmallConfigIsSound(x: Outside)
    requires FollowsCalendar(x.parseDate) && x.isTimeZone("UTC")
    ensures Sound(x, SmallConfig()) && WellFormed(x, JsonOf(SmallConfig()))
  {
    hide SmallMetadata, SoundMetadata, Line, WellFormed, JsonOf, Money;
    var source := SmallSource();
    MetadataIsSound(x, SourceNames([source]));
    BudgetIsSound();
    Visible("Demo", 120);
    Visible("workload", 128);
    Visible("owner", 128);
    Visible("w", 128);
    Visible("o", 128);
    Visible("r", 63);
    TenantIsLow();
    var workloads := [Workload("w", "o")];
    assert workloads[0].id == "w";
    assert "w" in WorkloadNames(workloads);
    AcceptedConfigurationsAreTheSoundOnes(x);
  }

  lemma TenantIsLow()
    ensures LowUuid(SmallTenant())
  {
    assert LowHex(Zeros(8), 8) && LowHex(Zeros(4), 4) && LowHex(Zeros(12), 12);
  }
}
