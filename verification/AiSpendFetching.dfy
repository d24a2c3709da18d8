/**
 Which sources `fetchAiSpendRatio` of src/costsource/aiSpendRatio.ts reports on, which of them share in the headline
 and what each error says, stated on the sources and on what fetching them returned.
 */
module AiSpendFetching {
  import opened Basics
  import opened AiSpend
  import opened AiSpendSources
  import opened Sequences

  /** The first source listed under its id. */
  predicate FirstListed(sources: seq<Source>, s: Source) {
    exists i :: 0 <= i < |sources| && sources[i] == s && forall k :: 0 <= k < i ==> sources[k].id != s.id
  }

  /** A configured source of cost rows: any when none is named, otherwise the first under a named id. */
  predicate Chosen(sources: seq<Source>, requested: Option<seq<string>>, s: Source) {
    && s in sources && s.configured && s.costRows
    && (requested.Some? ==> s.id in requested.value && FirstListed(sources, s))
  }

  /** An eligible chosen source under the id delivered rows, so it can own a bill. */
  ghost predicate Contends(sources: seq<Source>, requested: Option<seq<string>>, fetch: string -> Outcome, id: string) {
    exists s :: Chosen(sources, requested, s) && s.id == id && s.eligible && Returned(fetch, s)
  }

  const REPEATED := ["pointfive-sandbox", "focus-file-sandbox", "servicenow-sandbox"]

  /** Eligible, and of the sources that repeat one bill the first that can own it. */
  ghost predicate BelongsInHeadline(sources: seq<Source>, requested: Option<seq<string>>, fetch: string -> Outcome,
                                    s: Source)
  {
    s.eligible
    && (s.id in REPEATED ==>
          exists k :: 0 <= k < |REPEATED| && REPEATED[k] == s.id && Contends(sources, requested, fetch, s.id)
                      && forall j :: 0 <= j < k ==> !Contends(sources, requested, fetch, REPEATED[j]))
  }

  /** The row reports on the source. */
  ghost predicate ReportsOn(leq: (string, string) -> bool, sources: seq<Source>, fetch: string -> Outcome,
                            requested: Option<seq<string>>, p: PerSource, s: Source)
  {
    && Chosen(sources, requested, s)
    && p.sourceId == s.id && p.name == s.name && p.eligible == s.eligible
    && fetch(s.id).Fetched? && (requested.Some? ==> fetch(s.id).rows != [])
    && p.result == ReportOn(leq, fetch(s.id).rows)
    && (p.inHeadline <==> BelongsInHeadline(sources, requested, fetch, s))
  }

  ghost predicate RowIsTrue(leq: (string, string) -> bool, sources: seq<Source>, fetch: string -> Outcome,
                            requested: Option<seq<string>>, p: PerSource)
  {
    exists s :: ReportsOn(leq, sources, fetch, requested, p, s)
  }

  /** What an error says is so. */
  ghost predicate ErrorHolds(sources: seq<Source>, fetch: string -> Outcome, requested: Option<seq<string>>,
                             e: SourceError)
  {
    match e.fault
    case UnknownSource =>
      requested.Some? && e.sourceId in requested.value && forall s :: s in sources ==> s.id != e.sourceId
    case NotConfigured =>
      requested.Some? && e.sourceId in requested.value
      && exists s :: FirstListed(sources, s) && s.id == e.sourceId && !s.configured
    case NoCostRows =>
      requested.Some? && e.sourceId in requested.value
      && exists s :: FirstListed(sources, s) && s.id == e.sourceId && s.configured && !s.costRows
    case FetchFailed(message) => ChosenId(sources, requested, e.sourceId) && fetch(e.sourceId) == Failed(message)
    case MalformedRows => ChosenId(sources, requested, e.sourceId) && fetch(e.sourceId) == Malformed
    case NoRows => requested.Some? && ChosenId(sources, requested, e.sourceId) && fetch(e.sourceId) == Fetched([])
  }

  ghost predicate ChosenId(sources: seq<Source>, requested: Option<seq<string>>, id: string) {
    exists s :: Chosen(sources, requested, s) && s.id == id
  }

  // ------------------------------------------------------------- choosing

  lemma {:induction false} FoundIsFirst(sources: seq<Source>, id: string)
    ensures match FindSource(sources, id)
            case Some(s) => FirstListed(sources, s) && s.id == id
            case None => forall s :: s in sources ==> s.id != id
  {
    if sources != [] {
      if sources[0].id == id {
        assert FirstListed(sources, sources[0]);
      } else {
        FoundIsFirst(sources[1..], id);
        if FindSource(sources[1..], id).Some? {
          var s := FindSource(sources[1..], id).value;
          var i :| 0 <= i < |sources| - 1 && sources[1..][i] == s
                   && forall k :: 0 <= k < i ==> sources[1..][k].id != s.id;
          assert sources[i + 1] == s && forall k :: 1 <= k < i + 1 ==> sources[k] == sources[1..][k - 1];
        }
      }
    }
  }

  lemma FirstIsOne(sources: seq<Source>, s: Source, t: Source)
    requires FirstListed(sources, s) && FirstListed(sources, t) && s.id == t.id
    ensures s == t
  {
  }

  lemma {:induction false} UsableMeans(sources: seq<Source>, ids: seq<string>, s: Source)
    ensures s in AiSpendSources.Usable(sources, ids)
            <==> s.id in ids && FirstListed(sources, s) && s.configured && s.costRows
  {
    hide FirstListed, FindSource;
    if ids != [] {
      var n := |ids| - 1;
      assert ids == ids[..n] + [ids[n]];
      UsableMeans(sources, ids[..n], s);
      FoundIsFirst(sources, ids[n]);
      if s.id == ids[n] && FirstListed(sources, s) {
        FirstIsListed(sources, s);
        FirstIsOne(sources, s, FindSource(sources, ids[n]).value);
      }
    }
  }

  lemma FirstIsListed(sources: seq<Source>, s: Source)
    ensures FirstListed(sources, s) ==> s in sources
  {
  }

  lemma FilterMembers<T(!new)>(s: seq<T>, keep: T -> bool, x: T)
    ensures x in Filter(s, keep) <==> x in s && keep(x)
  {
    FilterCount(s, keep, x);
    assert (x in Filter(s, keep) <==> x in multiset(Filter(s, keep))) && (x in s <==> x in multiset(s));
  }

  lemma WantedMeans(sources: seq<Source>, requested: Option<seq<string>>, s: Source)
    ensures s in Wanted(sources, requested) <==> Chosen(sources, requested, s)
  {
    hide FirstSeen, Filter, FirstListed;
    match requested {
      case None => FilterMembers(sources, Available(), s);
      case Some(ids) =>
        UsableMeans(sources, FirstSeen(ids), s);
        FirstIsListed(sources, s);
    }
  }

  lemma {:induction false} RefusedMeans(sources: seq<Source>, ids: seq<string>, requested: Option<seq<string>>,
                                        fetch: string -> Outcome)
    requires requested.Some? && forall id :: id in ids ==> id in requested.value
    ensures forall e :: e in Refused(sources, ids) ==> ErrorHolds(sources, fetch, requested, e)
  {
    hide FirstListed, FindSource, ChosenId;
    if ids != [] {
      var n := |ids| - 1;
      RefusedMeans(sources, ids[..n], requested, fetch);
      FoundIsFirst(sources, ids[n]);
    }
  }

  lemma {:induction false} FetchErrorsMean(fetch: string -> Outcome, wanted: seq<Source>, sources: seq<Source>,
                                           requested: Option<seq<string>>)
    requires forall s :: s in wanted ==> Chosen(sources, requested, s)
    ensures forall e :: e in FetchErrors(fetch, requested.Some?, wanted) ==> ErrorHolds(sources, fetch, requested, e)
  {
    hide Chosen;
    if wanted != [] {
      var n := |wanted| - 1;
      FetchErrorsMean(fetch, wanted[..n], sources, requested);
      assert Chosen(sources, requested, wanted[n]);
      assert ChosenId(sources, requested, wanted[n].id);
    }
  }

  // ----------------------------------------------------------- the headline

  lemma {:induction false} LoadedMeans(fetch: string -> Outcome, named: bool, wanted: seq<Source>)
    ensures forall l :: l in LoadedOf(fetch, named, wanted) ==>
              l.source in wanted && fetch(l.source.id) == Fetched(l.rows) && (named ==> l.rows != [])
  {
    if wanted != [] {
      LoadedMeans(fetch, named, wanted[..|wanted| - 1]);
    }
  }

  lemma OwnersMean(fetch: string -> Outcome, sources: seq<Source>, requested: Option<seq<string>>, id: string)
    ensures id in Owners(LoadedOf(fetch, requested.Some?, Wanted(sources, requested)))
            <==> Contends(sources, requested, fetch, id)
  {
    hide LoadedOf, Wanted, Chosen;
    var wanted := Wanted(sources, requested);
    var loaded := LoadedOf(fetch, requested.Some?, wanted);
    LoadedIsFetched(fetch, requested.Some?, wanted);
    if id in Owners(loaded) {
      var i := OwnerIndex(loaded, id);
      assert loaded[i] in loaded;
      WantedMeans(sources, requested, loaded[i].source);
    }
    if s :| Chosen(sources, requested, s) && s.id == id && s.eligible && Returned(fetch, s) {
      WantedMeans(sources, requested, s);
      var l := Loaded(s, fetch(s.id).rows);
      var i :| 0 <= i < |loaded| && loaded[i] == l;
      assert CanOwn(loaded[i]);
    }
  }

  lemma {:induction false} FirstOwnerIsFirst(group: seq<string>, owners: set<string>, id: string)
    ensures FirstOwner(group, owners) == Some(id) <==>
              exists k :: 0 <= k < |group| && group[k] == id && id in owners
                          && forall j :: 0 <= j < k ==> group[j] !in owners
  {
    if group != [] && group[0] !in owners {
      var rest := group[1..];
      FirstOwnerIsFirst(rest, owners, id);
      if k :| 0 <= k < |rest| && rest[k] == id && id in owners && forall j :: 0 <= j < k ==> rest[j] !in owners {
        assert group[k + 1] == id && forall j :: 1 <= j < k + 1 ==> group[j] == rest[j - 1];
      }
      if k :| 0 <= k < |group| && group[k] == id && id in owners && forall j :: 0 <= j < k ==> group[j] !in owners {
        assert rest[k - 1] == id && forall j :: 0 <= j < k - 1 ==> rest[j] == group[j + 1];
      }
    } else if group != [] {
      assert group[0] in owners;
    }
  }

  lemma GroupIs(id: string)
    ensures GroupFor(REPEATED_BILL_GROUPS, id) == if id in REPEATED then Some(REPEATED) else None
  {
    assert REPEATED_BILL_GROUPS[1..] == [];
  }

  lemma HeadlineMeans(fetch: string -> Outcome, sources: seq<Source>, requested: Option<seq<string>>, l: Loaded)
    ensures InHeadline(REPEATED_BILL_GROUPS, Owners(LoadedOf(fetch, requested.Some?, Wanted(sources, requested))), l)
            <==> BelongsInHeadline(sources, requested, fetch, l.source)
  {
    hide LoadedOf, Wanted, Contends, GroupFor, FirstOwner, Owners;
    var owners := Owners(LoadedOf(fetch, requested.Some?, Wanted(sources, requested)));
    forall id
      ensures id in owners <==> Contends(sources, requested, fetch, id)
    {
      OwnersMean(fetch, sources, requested, id);
    }
    GroupIs(l.source.id);
    FirstOwnerIsFirst(REPEATED, owners, l.source.id);
  }

  /**
   Every row of the report is about a source that was to be fetched and delivered, with the figures of its own rows and
   its place in or out of the headline; and every error is true of the source it names.
   */
  lemma ReportIsTrue(leq: (string, string) -> bool, sources: seq<Source>, fetch: string -> Outcome,
                     requested: Option<seq<string>>)
    ensures var r := SourcesReportOn(leq, REPEATED_BILL_GROUPS, sources, fetch, requested);
            && (forall i :: 0 <= i < |r.perSource| ==>
                  RowIsTrue(leq, sources, fetch, requested, r.perSource[i]))
            && (forall e :: e in r.errors ==> ErrorHolds(sources, fetch, requested, e))
  {
    hide LoadedOf, Wanted, Chosen, InHeadline, Owners, ReportOn, HeadlineRows, Refused, FetchErrors, FirstSeen;
    hide BelongsInHeadline, ErrorHolds;
    var wanted := Wanted(sources, requested);
    var loaded := LoadedOf(fetch, requested.Some?, wanted);
    LoadedMeans(fetch, requested.Some?, wanted);
    var rows := SourcesReportOn(leq, REPEATED_BILL_GROUPS, sources, fetch, requested).perSource;
    forall i | 0 <= i < |loaded|
      ensures RowIsTrue(leq, sources, fetch, requested, rows[i])
    {
      assert loaded[i] in loaded;
      WantedMeans(sources, requested, loaded[i].source);
      HeadlineMeans(fetch, sources, requested, loaded[i]);
      assert ReportsOn(leq, sources, fetch, requested, rows[i], loaded[i].source);
    }
    forall s | s in wanted
      ensures Chosen(sources, requested, s)
    {
      WantedMeans(sources, requested, s);
    }
    FetchErrorsMean(fetch, wanted, sources, requested);
    if requested.Some? {
      RefusedMeans(sources, FirstSeen(requested.value), requested, fetch);
    }
  }
}
