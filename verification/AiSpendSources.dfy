/**
 `fetchAiSpendRatio` of src/costsource/aiSpendRatio.ts: which sources are fetched, which of them own
 the headline figure, and what is reported as an error. Fetching is a function of the source id.
 */
module AiSpendSources {
  import opened AiSpend
  import opened AiSpendLaws
  import opened Basics
  import opened Sequences
  import opened Tallies

  datatype Source = Source(id: string, name: string, configured: bool, costRows: bool, eligible: bool)

  datatype Outcome = Failed(message: string) | Malformed | Fetched(rows: seq<FocusRow>)

  datatype Fault = UnknownSource | NotConfigured | NoCostRows | FetchFailed(message: string) | NoRows | MalformedRows

  datatype SourceError = SourceError(sourceId: string, fault: Fault)

  /** A source whose rows were fetched. */
  datatype Loaded = Loaded(source: Source, rows: seq<FocusRow>)

  datatype PerSource = PerSource(sourceId: string, name: string, inHeadline: bool, eligible: bool, result: Report)

  datatype SourcesReport = SourcesReport(perSource: seq<PerSource>, overall: Report, errors: seq<SourceError>)

  const REPEATED_BILL_GROUPS := [["pointfive-sandbox", "focus-file-sandbox", "servicenow-sandbox"]]

  // ------------------------------------------------------ choosing sources

  function FindSource(sources: seq<Source>, id: string): (r: Option<Source>)
    ensures r.Some? ==> r.value.id == id && r.value in sources
  {
    if sources == [] then None
    else if sources[0].id == id then Some(sources[0])
    else FindSource(sources[1..], id)
  }

  function Problem(sources: seq<Source>, id: string): Option<Fault> {
    match FindSource(sources, id)
    case None => Some(UnknownSource)
    case Some(s) => if !s.configured then Some(NotConfigured) else if !s.costRows then Some(NoCostRows) else None
  }

  /** The requested sources that can be fetched. */
  function Usable(sources: seq<Source>, ids: seq<string>): seq<Source> {
    if ids == [] then []
    else
      var n := |ids| - 1;
      var front := Usable(sources, ids[..n]);
      if Problem(sources, ids[n]).None? then front + [FindSource(sources, ids[n]).value] else front
  }

  function Refused(sources: seq<Source>, ids: seq<string>): seq<SourceError> {
    if ids == [] then []
    else
      var n := |ids| - 1;
      var front, problem := Refused(sources, ids[..n]), Problem(sources, ids[n]);
      if problem.Some? then front + [SourceError(ids[n], problem.value)] else front
  }

  function Available(): Source -> bool { (s: Source) => s.configured && s.costRows }

  function Wanted(sources: seq<Source>, requested: Option<seq<string>>): seq<Source> {
    match requested
    case None => Filter(sources, Available())
    case Some(ids) => Usable(sources, FirstSeen(ids))
  }

  function RequestErrors(sources: seq<Source>, requested: Option<seq<string>>): seq<SourceError> {
    match requested
    case None => []
    case Some(ids) => Refused(sources, FirstSeen(ids))
  }

  // --------------------------------------------------------------- fetching

  /** A named source must deliver rows; an unnamed one may be empty. */
  function FetchFault(named: bool, outcome: Outcome): Option<Fault> {
    match outcome
    case Failed(message) => Some(FetchFailed(message))
    case Malformed => Some(MalformedRows)
    case Fetched(rows) => if named && rows == [] then Some(NoRows) else None
  }

  function LoadedOf(fetch: string -> Outcome, named: bool, wanted: seq<Source>): seq<Loaded> {
    if wanted == [] then []
    else
      var n := |wanted| - 1;
      var front, outcome := LoadedOf(fetch, named, wanted[..n]), fetch(wanted[n].id);
      if FetchFault(named, outcome).None? then front + [Loaded(wanted[n], outcome.rows)] else front
  }

  function FetchErrors(fetch: string -> Outcome, named: bool, wanted: seq<Source>): seq<SourceError> {
    if wanted == [] then []
    else
      var n := |wanted| - 1;
      var front, fault := FetchErrors(fetch, named, wanted[..n]), FetchFault(named, fetch(wanted[n].id));
      if fault.Some? then front + [SourceError(wanted[n].id, fault.value)] else front
  }

  // --------------------------------------------------------------- ownership

  /** Only an eligible source with rows can own a repeated bill. */
  predicate CanOwn(l: Loaded) { l.source.eligible && l.rows != [] }

  function Owners(loaded: seq<Loaded>): set<string> {
    set i | 0 <= i < |loaded| && CanOwn(loaded[i]) :: loaded[i].source.id
  }

  function GroupFor(groups: seq<seq<string>>, id: string): Option<seq<string>> {
    if groups == [] then None else if id in groups[0] then Some(groups[0]) else GroupFor(groups[1..], id)
  }

  function FirstOwner(group: seq<string>, owners: set<string>): Option<string> {
    if group == [] then None else if group[0] in owners then Some(group[0]) else FirstOwner(group[1..], owners)
  }

  predicate InHeadline(groups: seq<seq<string>>, owners: set<string>, l: Loaded) {
    l.source.eligible
    && match GroupFor(groups, l.source.id)
       case None => true
       case Some(group) => FirstOwner(group, owners) == Some(l.source.id)
  }

  function Row(leq: (string, string) -> bool, groups: seq<seq<string>>, owners: set<string>): Loaded -> PerSource {
    (l: Loaded) =>
      PerSource(l.source.id, l.source.name, InHeadline(groups, owners, l), l.source.eligible, ReportOn(leq, l.rows))
  }

  /** The rows of the headline sources, in order. */
  function HeadlineRows(groups: seq<seq<string>>, owners: set<string>, loaded: seq<Loaded>): seq<FocusRow> {
    if loaded == [] then []
    else
      var n := |loaded| - 1;
      var front := HeadlineRows(groups, owners, loaded[..n]);
      if InHeadline(groups, owners, loaded[n]) then front + loaded[n].rows else front
  }

  function SourcesReportOn(leq: (string, string) -> bool, groups: seq<seq<string>>, sources: seq<Source>,
                           fetch: string -> Outcome, requested: Option<seq<string>>): SourcesReport
  {
    var wanted := Wanted(sources, requested);
    var loaded := LoadedOf(fetch, requested.Some?, wanted);
    SourcesReport(
      Map(loaded, Row(leq, groups, Owners(loaded))),
      ReportOn(leq, HeadlineRows(groups, Owners(loaded), loaded)),
      RequestErrors(sources, requested) + FetchErrors(fetch, requested.Some?, wanted))
  }

  method Choose(sources: seq<Source>, ids: seq<string>) returns (wanted: seq<Source>, errors: seq<SourceError>)
    ensures wanted == Usable(sources, ids) && errors == Refused(sources, ids)
  {
    wanted, errors := [], [];
    for i := 0 to |ids|
      invariant wanted == Usable(sources, ids[..i]) && errors == Refused(sources, ids[..i])
    {
      assert ids[..i + 1][..i] == ids[..i];
      var problem := Problem(sources, ids[i]);
      if problem.Some? {
        errors := errors + [SourceError(ids[i], problem.value)];
      } else {
        wanted := wanted + [FindSource(sources, ids[i]).value];
      }
    }
    assert ids[..|ids|] == ids;
  }

  method Load(fetch: string -> Outcome, named: bool, wanted: seq<Source>, before: seq<SourceError>)
    returns (loaded: seq<Loaded>, errors: seq<SourceError>)
    ensures loaded == LoadedOf(fetch, named, wanted) && errors == before + FetchErrors(fetch, named, wanted)
  {
    loaded, errors := [], before;
    for i := 0 to |wanted|
      invariant loaded == LoadedOf(fetch, named, wanted[..i])
      invariant errors == before + FetchErrors(fetch, named, wanted[..i])
    {
      assert wanted[..i + 1][..i] == wanted[..i];
      var outcome := fetch(wanted[i].id);
      var fault := FetchFault(named, outcome);
      if fault.Some? {
        errors := errors + [SourceError(wanted[i].id, fault.value)];
      } else {
        loaded := loaded + [Loaded(wanted[i], outcome.rows)];
      }
    }
    assert wanted[..|wanted|] == wanted;
  }

  method FetchAiSpendRatio(leq: (string, string) -> bool, sources: seq<Source>, fetch: string -> Outcome,
                           requested: Option<seq<string>>)
    returns (r: SourcesReport)
    requires TotalOrder(leq)
    ensures r == SourcesReportOn(leq, REPEATED_BILL_GROUPS, sources, fetch, requested)
  {
    hide TotalOrder, ReportOn, InHeadline, Filter;
    var wanted: seq<Source>, refused: seq<SourceError> := [], [];
    match requested {
      case Some(ids) => wanted, refused := Choose(sources, FirstSeen(ids));
      case None => wanted := Filter(sources, Available());
    }
    var loaded, errors := Load(fetch, requested.Some?, wanted, refused);
    var owners := Owners(loaded);
    var perSource: seq<PerSource>, rows: seq<FocusRow> := [], [];
    for i := 0 to |loaded|
      invariant perSource == Map(loaded, Row(leq, REPEATED_BILL_GROUPS, owners))[..i]
      invariant rows == HeadlineRows(REPEATED_BILL_GROUPS, owners, loaded[..i])
    {
      assert loaded[..i + 1][..i] == loaded[..i];
      var l := loaded[i];
      var result := ComputeAiSpendRatio(leq, l.rows);
      var inHeadline := InHeadline(REPEATED_BILL_GROUPS, owners, l);
      perSource := perSource + [PerSource(l.source.id, l.source.name, inHeadline, l.source.eligible, result)];
      if inHeadline {
        rows := rows + l.rows;
      }
    }
    assert loaded[..|loaded|] == loaded;
    var overall := ComputeAiSpendRatio(leq, rows);
    return SourcesReport(perSource, overall, errors);
  }

  // ------------------------------------------- every source ends in one place

  function ErrorId(): SourceError -> string { (e: SourceError) => e.sourceId }

  function SourceId(): Source -> string { (s: Source) => s.id }

  function LoadedId(): Loaded -> string { (l: Loaded) => l.source.id }

  function RowId(): PerSource -> string { (p: PerSource) => p.sourceId }

  lemma MapAppend<T, U>(a: seq<T>, b: seq<T>, f: T -> U)
    ensures Map(a + b, f) == Map(a, f) + Map(b, f)
  {
  }

  lemma MapMore<T, U>(a: seq<T>, x: T, f: T -> U)
    ensures multiset(Map(a + [x], f)) == multiset(Map(a, f)) + multiset{f(x)}
  {
    assert Map(a + [x], f) == Map(a, f) + [f(x)];
  }

  lemma {:induction false} EachIdChosenOrRefused(sources: seq<Source>, ids: seq<string>)
    ensures multiset(Map(Usable(sources, ids), SourceId())) + multiset(Map(Refused(sources, ids), ErrorId()))
            == multiset(ids)
  {
    hide Map, Problem, FindSource;
    if ids == [] {
      MapNone<Source, string>(SourceId());
      MapNone<SourceError, string>(ErrorId());
    } else {
      var n := |ids| - 1;
      EachIdChosenOrRefused(sources, ids[..n]);
      assert ids == ids[..n] + [ids[n]];
      assert multiset(ids) == multiset(ids[..n]) + multiset{ids[n]};
      var problem := Problem(sources, ids[n]);
      Found(sources, ids[n]);
      if problem.None? {
        MapMore(Usable(sources, ids[..n]), FindSource(sources, ids[n]).value, SourceId());
      } else {
        MapMore(Refused(sources, ids[..n]), SourceError(ids[n], problem.value), ErrorId());
      }
    }
  }

  lemma Found(sources: seq<Source>, id: string)
    ensures Problem(sources, id).None? ==> FindSource(sources, id).Some? && FindSource(sources, id).value.id == id
  {
  }

  lemma MapNone<T, U>(f: T -> U)
    ensures Map([], f) == []
  {
  }

  lemma {:induction false} EachSourceLoadedOrFailed(fetch: string -> Outcome, named: bool, wanted: seq<Source>)
    ensures multiset(Map(LoadedOf(fetch, named, wanted), LoadedId()))
            + multiset(Map(FetchErrors(fetch, named, wanted), ErrorId()))
            == multiset(Map(wanted, SourceId()))
  {
    hide Map, FetchFault;
    if wanted == [] {
      MapNone<Source, string>(SourceId());
      MapNone<Loaded, string>(LoadedId());
      MapNone<SourceError, string>(ErrorId());
    } else {
      var n := |wanted| - 1;
      EachSourceLoadedOrFailed(fetch, named, wanted[..n]);
      assert wanted == wanted[..n] + [wanted[n]];
      MapMore(wanted[..n], wanted[n], SourceId());
      var outcome := fetch(wanted[n].id);
      var fault := FetchFault(named, outcome);
      FaultlessHasRows(named, outcome);
      if fault.None? {
        MapMore(LoadedOf(fetch, named, wanted[..n]), Loaded(wanted[n], outcome.rows), LoadedId());
      } else {
        MapMore(FetchErrors(fetch, named, wanted[..n]), SourceError(wanted[n].id, fault.value), ErrorId());
      }
    }
  }

  lemma FaultlessHasRows(named: bool, outcome: Outcome)
    ensures FetchFault(named, outcome).None? ==> outcome.Fetched?
  {
  }

  lemma RowIds(leq: (string, string) -> bool, groups: seq<seq<string>>, owners: set<string>, loaded: seq<Loaded>)
    ensures Map(Map(loaded, Row(leq, groups, owners)), RowId()) == Map(loaded, LoadedId())
  {
    hide ReportOn, InHeadline;
  }

  /** Each distinct requested source is reported exactly once, as a row or as an error. */
  lemma EachSourceEndsOnce(leq: (string, string) -> bool, groups: seq<seq<string>>, sources: seq<Source>,
                           fetch: string -> Outcome, requested: Option<seq<string>>)
    ensures var r := SourcesReportOn(leq, groups, sources, fetch, requested);
            multiset(Map(r.perSource, RowId())) + multiset(Map(r.errors, ErrorId()))
            == match requested
               case Some(ids) => multiset(FirstSeen(ids))
               case None => multiset(Map(Filter(sources, Available()), SourceId()))
  {
    hide Map, FirstSeen, Filter, ReportOn, LoadedOf, FetchErrors, Usable, Refused, HeadlineRows;
    var wanted := Wanted(sources, requested);
    var loaded := LoadedOf(fetch, requested.Some?, wanted);
    EachSourceLoadedOrFailed(fetch, requested.Some?, wanted);
    RowIds(leq, groups, Owners(loaded), loaded);
    MapAppend(RequestErrors(sources, requested), FetchErrors(fetch, requested.Some?, wanted), ErrorId());
    match requested {
      case Some(ids) => EachIdChosenOrRefused(sources, FirstSeen(ids));
      case None => MapNone<SourceError, string>(ErrorId());
    }
  }

  // ------------------------------------------------- one owner per group

  lemma {:induction false} FirstOwnerIs(group: seq<string>, owners: set<string>)
    ensures var o := FirstOwner(group, owners);
            && (o.Some? ==> o.value in owners && o.value in group)
            && (o.None? ==> forall id :: id in group ==> id !in owners)
  {
    if group != [] && group[0] !in owners {
      FirstOwnerIs(group[1..], owners);
    }
  }

  /** A group all of whose members are looked up to it. */
  predicate OwnGroup(groups: seq<seq<string>>, group: seq<string>) {
    forall i :: 0 <= i < |group| ==> GroupFor(groups, group[i]) == Some(group)
  }

  /** At most one source of a repeated-bill group is in the headline. */
  lemma AtMostOneOwner(groups: seq<seq<string>>, group: seq<string>, loaded: seq<Loaded>, i: nat, j: nat)
    requires OwnGroup(groups, group) && Distinct(Map(loaded, LoadedId()))
    requires i < |loaded| && j < |loaded| && loaded[i].source.id in group && loaded[j].source.id in group
    requires InHeadline(groups, Owners(loaded), loaded[i]) && InHeadline(groups, Owners(loaded), loaded[j])
    ensures i == j
  {
    hide FirstOwner, GroupFor;
    var ids := Map(loaded, LoadedId());
    assert ids[i] == ids[j];
  }

  /** A loaded source that can own the bill of the group. */
  predicate OwnsIn(l: Loaded, group: seq<string>) { l.source.id in group && CanOwn(l) }

  ghost predicate SomeOwns(loaded: seq<Loaded>, group: seq<string>) {
    exists i :: 0 <= i < |loaded| && OwnsIn(loaded[i], group)
  }

  /** A group has a headline source exactly when an eligible member returned rows. */
  lemma OwnerExactlyWhen(groups: seq<seq<string>>, group: seq<string>, loaded: seq<Loaded>)
    requires OwnGroup(groups, group) && Distinct(Map(loaded, LoadedId()))
    ensures (exists i :: 0 <= i < |loaded| && loaded[i].source.id in group && InHeadline(groups, Owners(loaded), loaded[i]))
            <==> SomeOwns(loaded, group)
  {
    hide FirstOwner, GroupFor;
    var owners := Owners(loaded);
    FirstOwnerIs(group, owners);
    var owner := FirstOwner(group, owners);
    if owner.Some? {
      var i := OwnerIndex(loaded, owner.value);
      var k :| 0 <= k < |group| && group[k] == owner.value;
      assert GroupFor(groups, group[k]) == Some(group);
      assert InHeadline(groups, owners, loaded[i]) && OwnsIn(loaded[i], group);
    } else {
      NoneOwned(groups, group, loaded);
    }
  }

  lemma OwnerIndex(loaded: seq<Loaded>, id: string) returns (i: nat)
    requires id in Owners(loaded)
    ensures i < |loaded| && loaded[i].source.id == id && CanOwn(loaded[i])
  {
    i :| 0 <= i < |loaded| && CanOwn(loaded[i]) && loaded[i].source.id == id;
  }

  lemma NoneOwned(groups: seq<seq<string>>, group: seq<string>, loaded: seq<Loaded>)
    requires OwnGroup(groups, group) && FirstOwner(group, Owners(loaded)).None?
    ensures forall i :: 0 <= i < |loaded| && loaded[i].source.id in group ==>
              !InHeadline(groups, Owners(loaded), loaded[i]) && !CanOwn(loaded[i])
  {
    hide FirstOwner, GroupFor;
    FirstOwnerIs(group, Owners(loaded));
    forall i | 0 <= i < |loaded| && loaded[i].source.id in group
      ensures !InHeadline(groups, Owners(loaded), loaded[i]) && !CanOwn(loaded[i])
    {
      var k :| 0 <= k < |group| && group[k] == loaded[i].source.id;
      assert GroupFor(groups, group[k]) == Some(group);
    }
  }

  lemma TheGroupIsItsOwn()
    ensures OwnGroup(REPEATED_BILL_GROUPS, REPEATED_BILL_GROUPS[0])
  {
    var group := REPEATED_BILL_GROUPS[0];
    forall i | 0 <= i < |group|
      ensures GroupFor(REPEATED_BILL_GROUPS, group[i]) == Some(group)
    {
    }
  }

  lemma PartOfDistinct(part: seq<string>, whole: seq<string>)
    requires Distinct(whole) && multiset(part) <= multiset(whole)
    ensures Distinct(part)
  {
    forall i, j | 0 <= i < j < |part|
      ensures part[i] != part[j]
    {
      if part[i] == part[j] {
        var x := part[i];
        assert part == part[..i] + [x] + part[i + 1..j] + [x] + part[j + 1..];
        assert multiset(part)[x] >= 2;
        CountDistinct(whole, x);
      }
    }
  }

  /** The premise for a run without named sources: no two available sources share an id. */
  predicate NoSharedIds(sources: seq<Source>, requested: Option<seq<string>>) {
    requested.None? ==> Distinct(Map(Filter(sources, Available()), SourceId()))
  }

  /** No source is loaded twice: naming a source twice asks for it once. */
  lemma LoadedOnce(sources: seq<Source>, fetch: string -> Outcome, requested: Option<seq<string>>)
    requires NoSharedIds(sources, requested)
    ensures Distinct(Map(LoadedOf(fetch, requested.Some?, Wanted(sources, requested)), LoadedId()))
  {
    hide Map, Filter, FirstSeen, LoadedOf, FetchErrors, Usable, Refused, Distinct;
    var wanted := Wanted(sources, requested);
    match requested {
      case None =>
      case Some(ids) =>
        EachIdChosenOrRefused(sources, FirstSeen(ids));
        PartOfDistinct(Map(wanted, SourceId()), FirstSeen(ids));
    }
    EachSourceLoadedOrFailed(fetch, requested.Some?, wanted);
    PartOfDistinct(Map(LoadedOf(fetch, requested.Some?, wanted), LoadedId()), Map(wanted, SourceId()));
  }

  /** The source delivered rows. */
  predicate Returned(fetch: string -> Outcome, s: Source) { fetch(s.id).Fetched? && fetch(s.id).rows != [] }

  lemma {:induction false} LoadedIsFetched(fetch: string -> Outcome, named: bool, wanted: seq<Source>)
    ensures forall l :: l in LoadedOf(fetch, named, wanted) ==> l.source in wanted && fetch(l.source.id) == Fetched(l.rows)
    ensures forall s :: s in wanted && Returned(fetch, s) ==>
              Loaded(s, fetch(s.id).rows) in LoadedOf(fetch, named, wanted)
  {
    if wanted != [] {
      var n := |wanted| - 1;
      LoadedIsFetched(fetch, named, wanted[..n]);
      assert wanted == wanted[..n] + [wanted[n]];
    }
  }

  /** An eligible member of the group that delivered rows. */
  predicate MayOwn(fetch: string -> Outcome, s: Source, group: seq<string>) {
    s.id in group && s.eligible && Returned(fetch, s)
  }

  ghost predicate SomeMayOwn(fetch: string -> Outcome, wanted: seq<Source>, group: seq<string>) {
    exists i :: 0 <= i < |wanted| && MayOwn(fetch, wanted[i], group)
  }

  lemma OwnerMayOwn(fetch: string -> Outcome, named: bool, wanted: seq<Source>, group: seq<string>)
    requires SomeOwns(LoadedOf(fetch, named, wanted), group)
    ensures SomeMayOwn(fetch, wanted, group)
  {
    hide LoadedOf;
    var loaded := LoadedOf(fetch, named, wanted);
    LoadedIsFetched(fetch, named, wanted);
    var i :| 0 <= i < |loaded| && OwnsIn(loaded[i], group);
    assert loaded[i] in loaded;
    var k :| 0 <= k < |wanted| && wanted[k] == loaded[i].source;
    assert MayOwn(fetch, wanted[k], group);
  }

  lemma MayOwnOwns(fetch: string -> Outcome, named: bool, wanted: seq<Source>, group: seq<string>)
    requires SomeMayOwn(fetch, wanted, group)
    ensures SomeOwns(LoadedOf(fetch, named, wanted), group)
  {
    hide LoadedOf;
    var loaded := LoadedOf(fetch, named, wanted);
    LoadedIsFetched(fetch, named, wanted);
    var k :| 0 <= k < |wanted| && MayOwn(fetch, wanted[k], group);
    var i :| 0 <= i < |loaded| && loaded[i] == Loaded(wanted[k], fetch(wanted[k].id).rows);
    assert OwnsIn(loaded[i], group);
  }

  /** The row is one of the group's in the headline. */
  predicate HeadlineIn(p: PerSource, group: seq<string>) { p.sourceId in group && p.inHeadline }

  lemma RowsShowHeadline(leq: (string, string) -> bool, groups: seq<seq<string>>, loaded: seq<Loaded>, group: seq<string>)
    ensures var rows := Map(loaded, Row(leq, groups, Owners(loaded)));
            forall i :: 0 <= i < |rows| ==>
              (HeadlineIn(rows[i], group) <==>
               loaded[i].source.id in group && InHeadline(groups, Owners(loaded), loaded[i]))
  {
    hide ReportOn, InHeadline, Owners;
  }

  /**
   In the report of the program each repeated-bill group has at most one headline source, and it has one
   exactly when an eligible member was fetched and returned rows.
   */
  lemma EachGroupHasOneOwner(leq: (string, string) -> bool, sources: seq<Source>, fetch: string -> Outcome,
                             requested: Option<seq<string>>, g: nat)
    requires g < |REPEATED_BILL_GROUPS| && NoSharedIds(sources, requested)
    ensures var rows := SourcesReportOn(leq, REPEATED_BILL_GROUPS, sources, fetch, requested).perSource;
            var group := REPEATED_BILL_GROUPS[g];
            && (forall i, j :: 0 <= i < j < |rows| ==> !(HeadlineIn(rows[i], group) && HeadlineIn(rows[j], group)))
            && ((exists i :: 0 <= i < |rows| && HeadlineIn(rows[i], group))
                <==> SomeMayOwn(fetch, Wanted(sources, requested), group))
  {
    hide Map, InHeadline, Wanted, LoadedOf, Owners, OwnsIn, MayOwn, ReportOn, HeadlineRows, OwnGroup, HeadlineIn,
      Distinct;
    var groups, group := REPEATED_BILL_GROUPS, REPEATED_BILL_GROUPS[g];
    var wanted := Wanted(sources, requested);
    var loaded := LoadedOf(fetch, requested.Some?, wanted);
    var rows := Map(loaded, Row(leq, groups, Owners(loaded)));
    TheGroupIsItsOwn();
    LoadedOnce(sources, fetch, requested);
    RowsShowHeadline(leq, groups, loaded, group);
    OwnerExactlyWhen(groups, group, loaded);
    if SomeOwns(loaded, group) {
      OwnerMayOwn(fetch, requested.Some?, wanted, group);
    }
    if SomeMayOwn(fetch, wanted, group) {
      MayOwnOwns(fetch, requested.Some?, wanted, group);
    }
    forall i, j | 0 <= i < |rows| && 0 <= j < |rows| && HeadlineIn(rows[i], group) && HeadlineIn(rows[j], group)
      ensures i == j
    {
      AtMostOneOwner(groups, group, loaded, i, j);
    }
    if i :| 0 <= i < |loaded| && loaded[i].source.id in group && InHeadline(groups, Owners(loaded), loaded[i]) {
      assert HeadlineIn(rows[i], group);
    }
  }

  // --------------------------------------------------------------- overall

  /** Total cost, AI cost and number of rows. */
  datatype Figures = Figures(total: int, ai: int, rows: int)

  const ZERO := Figures(0, 0, 0)

  function Plus(a: Figures, b: Figures): Figures { Figures(a.total + b.total, a.ai + b.ai, a.rows + b.rows) }

  function FiguresOf(s: CurrencySpend): Figures { Figures(s.totalCost, s.aiCost, s.rowCount) }

  /** What a report says of a currency: zero when it does not list it. */
  function FiguresFor(spends: seq<CurrencySpend>, c: string): Figures {
    if spends == [] then ZERO
    else if spends[|spends| - 1].currency == c then FiguresOf(spends[|spends| - 1])
    else FiguresFor(spends[..|spends| - 1], c)
  }

  /** The figures of a currency summed over the rows shown in the headline. */
  function HeadlineFigures(perSource: seq<PerSource>, c: string): Figures {
    if perSource == [] then ZERO
    else
      var p := perSource[|perSource| - 1];
      Plus(HeadlineFigures(perSource[..|perSource| - 1], c),
           if p.inHeadline then FiguresFor(p.result.currencies, c) else ZERO)
  }

  /** The excluded rows of the rows shown in the headline. */
  function HeadlineExcluded(perSource: seq<PerSource>): nat {
    if perSource == [] then 0
    else
      var p := perSource[|perSource| - 1];
      HeadlineExcluded(perSource[..|perSource| - 1]) + if p.inHeadline then p.result.excludedRows else 0
  }

  lemma {:induction false} FiguresForNames(leq: (string, string) -> bool, rows: seq<FocusRow>,
                                           spends: seq<CurrencySpend>, names: seq<string>, c: string)
    requires |spends| == |names| && Distinct(names)
    requires forall i :: 0 <= i < |names| ==> spends[i] == SpendIn(leq, rows, names[i])
    ensures FiguresFor(spends, c) == if c in names then FiguresOf(SpendIn(leq, rows, c)) else ZERO
  {
    hide Cost, Billed, Services, Ratio, Filter;
    if names != [] {
      var n := |names| - 1;
      assert names == names[..n] + [names[n]];
      FiguresForNames(leq, rows, spends[..n], names[..n], c);
    }
  }

  lemma UnlistedIsZero(leq: (string, string) -> bool, rows: seq<FocusRow>, c: string)
    requires c !in CurrenciesIn(rows)
    ensures FiguresOf(SpendIn(leq, rows, c)) == ZERO
  {
    hide Map, Services;
    CurrencyOccurs(Filter(rows, UsableRow()), c);
    assert c !in multiset(CurrenciesIn(rows));
    assert Billed(rows, c) == [];
  }

  /** A report gives the figures of every currency, listed or not. */
  lemma ReportFigures(leq: (string, string) -> bool, rows: seq<FocusRow>, c: string)
    requires TotalOrder(leq)
    ensures FiguresFor(ReportOn(leq, rows).currencies, c) == FiguresOf(SpendIn(leq, rows, c))
  {
    hide SpendIn, SortedKeys, TotalOrder, CurrenciesIn, Filter, FiguresOf, FiguresFor;
    var names := SortedKeys(CurrenciesIn(rows), leq);
    SortedKeysShape(CurrenciesIn(rows), leq);
    FiguresForNames(leq, rows, Spends(leq, rows), names, c);
    if c !in names {
      UnlistedIsZero(leq, rows, c);
    }
  }

  lemma NoRowsNoFigures(leq: (string, string) -> bool, c: string)
    ensures FiguresOf(SpendIn(leq, [], c)) == ZERO && ReportOn(leq, []).excludedRows == 0
  {
    hide Services, Spends;
    assert Billed([], c) == [];
  }

  lemma FiguresAdd(leq: (string, string) -> bool, a: seq<FocusRow>, b: seq<FocusRow>, c: string)
    ensures FiguresOf(SpendIn(leq, a + b, c)) == Plus(FiguresOf(SpendIn(leq, a, c)), FiguresOf(SpendIn(leq, b, c)))
    ensures ReportOn(leq, a + b).excludedRows == ReportOn(leq, a).excludedRows + ReportOn(leq, b).excludedRows
  {
    hide SpendIn, Filter, Spends;
    SpendAdds(leq, a, b, c);
    FilterAppend(a, b, UsableRow());
  }

  lemma {:induction false} HeadlineAddsUp(leq: (string, string) -> bool, groups: seq<seq<string>>, owners: set<string>,
                                          loaded: seq<Loaded>, c: string)
    requires TotalOrder(leq)
    ensures var perSource := Map(loaded, Row(leq, groups, owners));
            var rows := HeadlineRows(groups, owners, loaded);
            && FiguresOf(SpendIn(leq, rows, c)) == HeadlineFigures(perSource, c)
            && ReportOn(leq, rows).excludedRows == HeadlineExcluded(perSource)
  {
    hide SpendIn, InHeadline, FiguresOf, FiguresFor, Plus, ReportOn, TotalOrder;
    if loaded == [] {
      NoRowsNoFigures(leq, c);
    } else {
      var n := |loaded| - 1;
      var perSource := Map(loaded, Row(leq, groups, owners));
      HeadlineAddsUp(leq, groups, owners, loaded[..n], c);
      assert perSource[..n] == Map(loaded[..n], Row(leq, groups, owners));
      ReportFigures(leq, loaded[n].rows, c);
      PlusZero(HeadlineFigures(perSource[..n], c));
      if InHeadline(groups, owners, loaded[n]) {
        FiguresAdd(leq, HeadlineRows(groups, owners, loaded[..n]), loaded[n].rows, c);
      }
    }
  }

  lemma PlusZero(a: Figures)
    ensures Plus(a, ZERO) == a
  {
  }

  /**
   The overall figures of the report are those of the sources shown in the headline and nothing else: for every
   currency the total cost, the AI cost and the row count are the sums over these rows, and so are the excluded rows.
   */
  lemma OverallIsTheHeadline(leq: (string, string) -> bool, sources: seq<Source>, fetch: string -> Outcome,
                             requested: Option<seq<string>>, c: string)
    requires TotalOrder(leq)
    ensures var r := SourcesReportOn(leq, REPEATED_BILL_GROUPS, sources, fetch, requested);
            && FiguresFor(r.overall.currencies, c) == HeadlineFigures(r.perSource, c)
            && r.overall.excludedRows == HeadlineExcluded(r.perSource)
  {
    hide TotalOrder, ReportOn, HeadlineRows, FiguresFor, FiguresOf, HeadlineFigures, HeadlineExcluded, LoadedOf, Wanted;
    hide RequestErrors, FetchErrors, Map;
    var loaded := LoadedOf(fetch, requested.Some?, Wanted(sources, requested));
    ReportFigures(leq, HeadlineRows(REPEATED_BILL_GROUPS, Owners(loaded), loaded), c);
    HeadlineAddsUp(leq, REPEATED_BILL_GROUPS, Owners(loaded), loaded, c);
  }
}
