/** The history behind an accepted job: one evidence basis from queueing to acceptance. */
module AgentHistory {
  import opened Basics
  import opened AgentJobs
  import opened AgentInvariant
  import opened AgentRuns

  /** Event `n` of the run created job `i`, whose basis was then the basis of the current evidence. */
  ghost predicate QueuedAt(start: State, events: seq<Event>, i: nat, n: nat) {
    && n < |events|
    && |After(start, events[..n]).jobs| == i < |After(start, events[..n + 1]).jobs|
    && BasisHolds(After(start, events[..n]), After(start, events[..n + 1]).jobs[i])
  }

  predicate BasisHolds(s: State, j: Job) { ReviewBasis(s, j.workloadId) == Some(j.basis) }

  /** Event `n` took job `i` into review, evaluating evidence with the job's basis. */
  ghost predicate ProcessedAt(start: State, events: seq<Event>, i: nat, n: nat) {
    && n < |events|
    && var before, after := After(start, events[..n]), After(start, events[..n + 1]);
    && i < |after.jobs| && after.jobs[i].status == InReview
    && (i < |before.jobs| ==> before.jobs[i].status != InReview)
    && BasisHolds(before, after.jobs[i])
    && CarriesProposal(after.jobs[i], before.evidence[after.jobs[i].workloadId])
  }

  /** Event `n` accepted job `i` while the current evidence still had the job's basis. */
  ghost predicate AcceptedAt(start: State, events: seq<Event>, i: nat, n: nat) {
    && n < |events|
    && var before, after := After(start, events[..n]), After(start, events[..n + 1]);
    && i < |before.jobs| && i < |after.jobs|
    && before.jobs[i].status == InReview && after.jobs[i].status == Accepted
    && BasisHolds(before, after.jobs[i])
    && after.jobs[i].review.Some? && after.jobs[i].review.value.reviewer != after.jobs[i].requestedBy
  }

  /** What one event can newly bring about for job `i`. */
  ghost predicate Explained(s: State, t: State, i: nat) {
    && (i >= |s.jobs| && i < |t.jobs| ==> i == |s.jobs| && BasisHolds(s, t.jobs[i]) && t.jobs[i].status in {Queued, InReview})
    && (i < |t.jobs| && t.jobs[i].status == InReview && (i < |s.jobs| ==> s.jobs[i].status != InReview) ==>
          BasisHolds(s, t.jobs[i]) && CarriesProposal(t.jobs[i], s.evidence[t.jobs[i].workloadId]))
    && (i < |s.jobs| && i < |t.jobs| && t.jobs[i].status == InReview && s.jobs[i].status == InReview ==>
          t.jobs[i].result == s.jobs[i].result)
    && (i < |s.jobs| && i < |t.jobs| && t.jobs[i].status == Accepted && s.jobs[i].status != Accepted ==>
          s.jobs[i].status == InReview && BasisHolds(s, t.jobs[i]) && t.jobs[i].result == s.jobs[i].result)
    && (i < |s.jobs| && i < |t.jobs| && s.jobs[i].status == Accepted ==> t.jobs[i] == s.jobs[i])
  }

  lemma JobCommandExplained(s: State, j: Job, actor: string, c: Command, now: int, uuid: string)
    requires !c.Queue? && JobOk(j) && JobCommand(s, j, actor, c, now, uuid).Ok?
    ensures var k := JobCommand(s, j, actor, c, now, uuid).value;
            && j.status != Accepted
            && (k.status == InReview ==> j.status != InReview && BasisHolds(s, k)
                                         && CarriesProposal(k, s.evidence[k.workloadId]))
            && (k.status == Accepted ==> j.status == InReview && BasisHolds(s, k) && k.result == j.result)
  {
    hide Propose, Proposed;
    if j.workloadId in s.evidence {
      ProposalFits(s.evidence[j.workloadId]);
    }
  }

  lemma EventExplained(s: State, e: Event, i: nat)
    requires Inv(s) && (e.AskFrank? ==> Unused(s, e.ids.job))
    ensures Explained(s, Apply(s, e), i)
  {
    hide JobOk, JobCommand, Proposed, ReviewWithFrank;
    if Attempt(s, e).Ok? {
      match e {
        case Act(actor, c, now, uuid) =>
          if !c.Queue? {
            var k := FindJob(s.jobs, c.jobId.value).value;
            JobCommandExplained(s, s.jobs[k], actor, c, now, uuid);
          }
        case AskFrank(actor, w, now, ids) =>
          FrankExplained(s, e, i);
        case Observe(_) =>
      }
    }
  }

  lemma FrankExplained(s: State, e: Event, i: nat)
    requires Inv(s) && e.AskFrank? && Attempt(s, e).Ok? && Unused(s, e.ids.job)
    ensures Explained(s, Apply(s, e), i)
  {
    hide JobOk, RunFrank, Proposed;
    var w := e.workloadId.value;
    var (queued, changed) := QueueReview(s, e.requester, e.workloadId, e.at, e.ids.job).value;
    QueueKeepsInv(s, e.requester, e.workloadId, e.at, e.ids.job);
    var k := FindReview(queued.jobs, w, ReviewBasis(s, w).value).value;
    if queued.jobs[k].status == Queued {
      RunFrankSucceeds(queued, k, e.at, e.ids);
    } else {
      NotQueuedWasThere(s, e.requester, w, e.at, e.ids.job, k);
    }
  }

  lemma LastExplained(start: State, events: seq<Event>, i: nat)
    requires Initial(start) && Fresh(events) && events != []
    ensures Explained(After(start, events[..|events| - 1]), After(start, events), i)
  {
    hide Apply, Inv, Explained;
    var n := |events| - 1;
    FreshInit(events);
    RunsKeepInv(start, events[..n]);
    if events[n].AskFrank? {
      assert events[n].ids.job in Uuids(events[n]);
      UnknownIsUnused(After(start, events[..n]), Issued(events[..n]), events[n].ids.job);
    }
    EventExplained(After(start, events[..n]), events[n], i);
  }

  /** What happened in a prefix of a run happened in the run. */
  lemma HistoryExtends(start: State, events: seq<Event>, m: nat, i: nat, n: nat)
    requires m <= |events|
    ensures QueuedAt(start, events[..m], i, n) ==> QueuedAt(start, events, i, n)
    ensures ProcessedAt(start, events[..m], i, n) ==> ProcessedAt(start, events, i, n)
    ensures AcceptedAt(start, events[..m], i, n) ==> AcceptedAt(start, events, i, n)
    ensures n < m ==> After(start, events[..m][..n + 1]) == After(start, events[..n + 1])
  {
    hide After, BasisHolds, Proposed;
    if n < m {
      assert events[..m][..n] == events[..n] && events[..m][..n + 1] == events[..n + 1];
    }
  }

  lemma {:induction false} QueueHistory(start: State, events: seq<Event>, i: nat) returns (q: nat)
    requires Initial(start) && Fresh(events) && i < |After(start, events).jobs|
    ensures QueuedAt(start, events, i, q)
  {
    hide Apply, Inv, Step;
    var m := |events| - 1;
    LastStep(start, events);
    LastExplained(start, events, i);
    if i < |After(start, events[..m]).jobs| {
      q := QueueHistory(start, events[..m], i);
      HistoryExtends(start, events, m, i, q);
    } else {
      q := m;
      assert events[..m + 1] == events;
    }
  }

  lemma {:induction false} ReviewHistory(start: State, events: seq<Event>, i: nat) returns (q: nat, p: nat)
    requires Initial(start) && Fresh(events) && i < |After(start, events).jobs|
    requires After(start, events).jobs[i].status == InReview
    ensures QueuedAt(start, events, i, q) && ProcessedAt(start, events, i, p) && q <= p
    ensures After(start, events).jobs[i].result == After(start, events[..p + 1]).jobs[i].result
  {
    hide Apply, Inv, BasisHolds, Proposed;
    var m := |events| - 1;
    LastStep(start, events);
    LastExplained(start, events, i);
    assert events[..m + 1] == events;
    var before := After(start, events[..m]);
    if i < |before.jobs| && before.jobs[i].status == InReview {
      q, p := ReviewHistory(start, events[..m], i);
      HistoryExtends(start, events, m, i, q);
      HistoryExtends(start, events, m, i, p);
    } else {
      q := QueueHistory(start, events, i);
      p := m;
    }
  }

  lemma {:induction false} AcceptanceHistory(start: State, events: seq<Event>, i: nat) returns (q: nat, p: nat, a: nat)
    requires Initial(start) && Fresh(events) && i < |After(start, events).jobs|
    requires After(start, events).jobs[i].status == Accepted
    ensures QueuedAt(start, events, i, q) && ProcessedAt(start, events, i, p) && AcceptedAt(start, events, i, a)
    ensures q <= p < a
    ensures After(start, events).jobs[i].result == After(start, events[..p + 1]).jobs[i].result
  {
    hide After, Apply, BasisHolds, Proposed, Step, Inv, QueuedAt, ProcessedAt;
    var m := |events| - 1;
    if events == [] {
      StartOf(start);
    }
    LastStep(start, events);
    LastExplained(start, events, i);
    assert events[..m + 1] == events;
    var before := After(start, events[..m]);
    assert i < |before.jobs| by { AcceptedWasThere(start, events, i); }
    if before.jobs[i].status == Accepted {
      q, p, a := AcceptanceHistory(start, events[..m], i);
      HistoryExtends(start, events, m, i, a);
    } else {
      q, p := ReviewHistory(start, events[..m], i);
      a := m;
      ReachableJobOk(start, events, i);
      assert p < m by { ProcessedInside(start, events[..m], i, p); }
    }
    HistoryExtends(start, events, m, i, q);
    HistoryExtends(start, events, m, i, p);
  }

  lemma ProcessedInside(start: State, events: seq<Event>, i: nat, p: nat)
    requires ProcessedAt(start, events, i, p)
    ensures p < |events|
  {
  }

  lemma AcceptedWasThere(start: State, events: seq<Event>, i: nat)
    requires Initial(start) && Fresh(events) && events != [] && i < |After(start, events).jobs|
    requires After(start, events).jobs[i].status == Accepted
    ensures i < |After(start, events[..|events| - 1]).jobs|
  {
    hide After, Apply, BasisHolds, Proposed, Step, Inv;
    LastExplained(start, events, i);
  }

  lemma ReachableJobOk(start: State, events: seq<Event>, i: nat)
    requires Initial(start) && Fresh(events) && i < |After(start, events).jobs|
    ensures JobOk(After(start, events).jobs[i])
  {
    hide After, JobOk;
    RunsKeepInv(start, events);
  }

  /** An accepted job was queued, processed and accepted, in this order, while the evidence had one and the
      same basis; the accepted proposal is the one computed then, and its reviewer is a second person. */
  lemma AcceptedHistory(start: State, events: seq<Event>, i: nat) returns (q: nat, p: nat, a: nat)
    requires Initial(start) && Fresh(events) && i < |After(start, events).jobs|
    requires After(start, events).jobs[i].status == Accepted
    ensures QueuedAt(start, events, i, q) && ProcessedAt(start, events, i, p) && AcceptedAt(start, events, i, a)
    ensures q <= p < a
    ensures var w, basis := After(start, events).jobs[i].workloadId, Some(After(start, events).jobs[i].basis);
            && ReviewBasis(After(start, events[..q]), w) == basis
            && ReviewBasis(After(start, events[..p]), w) == basis
            && ReviewBasis(After(start, events[..a]), w) == basis
    ensures After(start, events).jobs[i].result == After(start, events[..p + 1]).jobs[i].result
  {
    hide After, Proposed;
    q, p, a := AcceptanceHistory(start, events, i);
    JobsPersist(start, events, q + 1, i);
    JobsPersist(start, events, p + 1, i);
    JobsPersist(start, events, a + 1, i);
  }
}
