/**
 Runs of the agent-review engine: any interleaving of commands by any actors, composite commands and
 changes of the evidence, at any times. Only the freshness of randomUUID is assumed.
 */
module AgentRuns {
  import opened Basics
  import opened Sequences
  import JsText
  import opened AgentJobs
  import opened AgentInvariant

  datatype Event =
    | Act(actor: string, command: Command, now: int, uuid: string)
    | AskFrank(requester: string, workloadId: Option<string>, at: int, ids: Draws)
    | Observe(evidence: map<string, Evidence>)

  function Uuids(e: Event): seq<string> {
    match e
    case Act(_, _, _, uuid) => [uuid]
    case AskFrank(_, _, _, ids) => [ids.job, ids.token, ids.claimAudit, ids.processAudit]
    case Observe(_) => []
  }

  function Attempt(s: State, e: Event): Result<(State, bool), Rejection> {
    match e
    case Act(actor, c, now, uuid) => Execute(s, actor, c, now, uuid)
    case AskFrank(actor, w, now, ids) => ReviewWithFrank(s, actor, w, now, ids)
    case Observe(evidence) => Ok((s.(evidence := evidence), false))
  }

  /** A rejected event leaves the state alone. */
  function Apply(s: State, e: Event): State {
    match Attempt(s, e)
    case Ok((t, _)) => t
    case Err(_) => s
  }

  /** The event is a command that succeeded and reported a change. */
  predicate Effective(s: State, e: Event) {
    Attempt(s, e).Ok? && Attempt(s, e).value.1
  }

  /** The engine commands that took effect in an event: asking Frank claims and processes, and may queue first. */
  function Commands(s: State, e: Event): nat {
    if !Effective(s, e) then 0
    else
      match e
      case AskFrank(requester, workloadId, at, ids) =>
        2 + if QueueReview(s, requester, workloadId, at, ids.job).value.1 then 1 else 0
      case _ => 1
  }

  function After(start: State, events: seq<Event>): State {
    if events == [] then start else Apply(After(start, events[..|events| - 1]), events[|events| - 1])
  }

  function Issued(events: seq<Event>): seq<string> {
    if events == [] then [] else Issued(events[..|events| - 1]) + Uuids(events[|events| - 1])
  }

  /** randomUUID never repeats. */
  ghost predicate Fresh(events: seq<Event>) { Distinct(Issued(events)) }

  /** A workspace before its first agent job. */
  predicate Initial(start: State) { start.jobs == [] }

  ghost predicate NewTo(e: Event, issued: seq<string>) {
    forall u :: u in Uuids(e) ==> u !in issued
  }

  lemma FreshInit(events: seq<Event>)
    requires Fresh(events) && events != []
    ensures Fresh(events[..|events| - 1])
    ensures Distinct(Uuids(events[|events| - 1]))
    ensures NewTo(events[|events| - 1], Issued(events[..|events| - 1]))
  {
    var a, b := Issued(events[..|events| - 1]), Uuids(events[|events| - 1]);
    var all := Issued(events);
    assert all == a + b;
    assert forall i :: 0 <= i < |a| ==> a[i] == all[i];
    assert forall i :: 0 <= i < |b| ==> b[i] == all[|a| + i];
  }

  // ------------------------------------------------------------ the invariant

  /** Job ids and lease tokens come from randomUUID. */
  ghost predicate Known(s: State, issued: seq<string>) {
    forall i :: 0 <= i < |s.jobs| ==>
      s.jobs[i].id in issued && (s.jobs[i].lease.Some? ==> s.jobs[i].lease.value.token in issued)
  }

  lemma UnknownIsUnused(s: State, issued: seq<string>, uuid: string)
    requires Known(s, issued) && uuid !in issued
    ensures Unused(s, uuid)
  {
  }

  /** How one event can move a job that exists: not at all, or down in rank with its identity kept. */
  predicate Moves(a: Job, b: Job) {
    SameIdentity(a, b) && (a == b || (!Terminal(a) && Rank(b) < Rank(a)))
  }

  /** The largest number of commands that can still take effect on a job. */
  function Rank(j: Job): int {
    match j.status
    case Queued => 3 * (3 - j.attempts)
    case Running => 3 * (3 - j.attempts) + 2
    case Failed => 3 * (3 - j.attempts) + 1
    case InReview => 1
    case Accepted | Dismissed => 0
  }

  lemma RankBounds(j: Job)
    requires JobOk(j)
    ensures 0 <= Rank(j) <= 9
    ensures !Terminal(j) ==> Rank(j) >= 1
  {
  }

  /** Job `i` alone changes, and pays for the commands with its rank. */
  ghost predicate Lowers(s: State, t: State, i: nat, commands: nat) {
    && i < |s.jobs| == |t.jobs| && t.jobs == s.jobs[i := t.jobs[i]]
    && Rank(t.jobs[i]) + commands <= Rank(s.jobs[i])
  }

  /** What one event does to the list of jobs. */
  ghost predicate Step(s: State, t: State, e: Event) {
    && |s.jobs| <= |t.jobs| <= |s.jobs| + 1
    && (forall i :: 0 <= i < |s.jobs| ==> Moves(s.jobs[i], t.jobs[i]))
    && (forall i :: 0 <= i < |t.jobs| && t.jobs[i].lease.Some? ==>
          (i < |s.jobs| && t.jobs[i] == s.jobs[i]) || t.jobs[i].lease.value.token in Uuids(e))
    && (|t.jobs| == |s.jobs| + 1 ==> t.jobs[|s.jobs|].id in Uuids(e))
    && (Effective(s, e) <==> t.jobs != s.jobs)
    && (Effective(s, e) && |t.jobs| == |s.jobs| ==>
          exists i :: 0 <= i < |s.jobs| && Lowers(s, t, i, Commands(s, e)))
    && (|t.jobs| == |s.jobs| + 1 ==>
          t.jobs[..|s.jobs|] == s.jobs && Rank(t.jobs[|s.jobs|]) + Commands(s, e) <= 10)
  }

  lemma JobCommandMoves(s: State, j: Job, actor: string, c: Command, now: int, uuid: string)
    requires !c.Queue? && JobOk(j) && JobCommand(s, j, actor, c, now, uuid).Ok?
    ensures Rank(JobCommand(s, j, actor, c, now, uuid).value) < Rank(j)
  {
    hide Propose, GoodRationale, JsText.Trim;
  }

  lemma ActStep(s: State, e: Event)
    requires Inv(s) && e.Act? && Attempt(s, e).Ok?
    ensures Step(s, Apply(s, e), e)
  {
    hide JobOk, JobCommand, Rank;
    var t := Apply(s, e);
    if e.command.Queue? {
      if t.jobs != s.jobs {
        assert t.jobs[..|s.jobs|] == s.jobs;
        NewJobRank(t.jobs[|s.jobs|]);
      }
    } else {
      var i := FindJob(s.jobs, e.command.jobId.value).value;
      JobCommandKeeps(s, s.jobs[i], e.actor, e.command, e.now, e.uuid);
      JobCommandMoves(s, s.jobs[i], e.actor, e.command, e.now, e.uuid);
      assert Lowers(s, t, i, Commands(s, e));
    }
  }

  lemma FrankStep(s: State, e: Event)
    requires Inv(s) && e.AskFrank? && Attempt(s, e).Ok? && Unused(s, e.ids.job)
    ensures Step(s, Apply(s, e), e)
  {
    hide JobOk, RunFrank, Rank, Moves, Inv, QueueReview, CarriesProposal;
    var w := e.workloadId.value;
    var (queued, changed) := QueueReview(s, e.requester, e.workloadId, e.at, e.ids.job).value;
    QueueShape(s, e.requester, w, e.at, e.ids.job);
    QueueLeavesAReview(s, e.requester, w, e.at, e.ids.job);
    QueueKeepsInv(s, e.requester, e.workloadId, e.at, e.ids.job);
    var i := FindReview(queued.jobs, w, ReviewBasis(s, w).value).value;
    var t := Apply(s, e);
    StayingMoves(s.jobs);
    if queued.jobs[i].status == Queued {
      RunFrankSucceeds(queued, i, e.at, e.ids);
      ReachableRank(queued, i);
      QueuedOutranksReview(queued.jobs[i], t.jobs[i]);
      if changed {
        assert t.jobs[..|s.jobs|] == s.jobs;
      } else {
        assert Lowers(s, t, i, Commands(s, e));
      }
    } else {
      NotQueuedWasThere(s, e.requester, w, e.at, e.ids.job, i);
    }
  }

  lemma QueueShape(s: State, actor: string, w: string, now: int, uuid: string)
    requires QueueReview(s, actor, Some(w), now, uuid).Ok?
    ensures var (queued, changed) := QueueReview(s, actor, Some(w), now, uuid).value;
            if changed
            then |queued.jobs| == |s.jobs| + 1 && queued.jobs[..|s.jobs|] == s.jobs
                 && queued.jobs[|s.jobs|].id == uuid && queued.jobs[|s.jobs|].lease.None?
                 && FindReview(queued.jobs, w, ReviewBasis(s, w).value) == Some(|s.jobs|)
            else queued == s
  {
  }

  lemma NewJobRank(j: Job)
    requires j.status == Queued && j.attempts == 0
    ensures Rank(j) == 9
  {
  }

  lemma StayingMoves(jobs: seq<Job>)
    ensures forall i :: 0 <= i < |jobs| ==> Moves(jobs[i], jobs[i])
  {
    hide Rank;
  }

  lemma ReachableRank(s: State, i: nat)
    requires Inv(s) && i < |s.jobs|
    ensures JobOk(s.jobs[i])
  {
    hide JobOk;
  }

  lemma QueuedOutranksReview(a: Job, b: Job)
    requires JobOk(a) && a.status == Queued && b.status == InReview
    ensures Rank(b) + 2 <= Rank(a) && Rank(b) == 1
    ensures SameIdentity(a, b) ==> Moves(a, b)
  {
  }

  /** One event, rejected or not. */
  lemma EventStep(s: State, e: Event, issued: seq<string>)
    requires Inv(s) && Known(s, issued)
    requires NewTo(e, issued)
    ensures Inv(Apply(s, e)) && Known(Apply(s, e), issued + Uuids(e)) && Step(s, Apply(s, e), e)
  {
    hide JobOk, Execute, ReviewWithFrank, Inv;
    if Attempt(s, e).Ok? {
      match e {
        case Act(actor, c, now, uuid) =>
          assert uuid in Uuids(e);
          UnknownIsUnused(s, issued, uuid);
          ExecuteKeepsInv(s, actor, c, now, uuid);
          ActStep(s, e);
        case AskFrank(actor, w, now, ids) =>
          assert ids.job in Uuids(e);
          UnknownIsUnused(s, issued, ids.job);
          FrankKeepsInv(s, actor, w, now, ids);
          FrankStep(s, e);
        case Observe(evidence) =>
          EvidenceIsFree(s, evidence);
          EvidenceStep(s, e);
      }
    } else {
      NothingStep(s, e);
    }
    StepKnown(s, Apply(s, e), e, issued);
  }

  lemma EvidenceIsFree(s: State, evidence: map<string, Evidence>)
    requires Inv(s)
    ensures Inv(s.(evidence := evidence))
  {
  }

  lemma EvidenceStep(s: State, e: Event)
    requires e.Observe?
    ensures Step(s, Apply(s, e), e)
  {
  }

  lemma NothingStep(s: State, e: Event)
    requires Attempt(s, e).Err?
    ensures Step(s, Apply(s, e), e)
  {
    hide Attempt;
  }

  lemma StepKnown(s: State, t: State, e: Event, issued: seq<string>)
    requires Known(s, issued) && Step(s, t, e)
    ensures Known(t, issued + Uuids(e))
  {
    forall i | 0 <= i < |t.jobs|
      ensures t.jobs[i].id in issued + Uuids(e)
      ensures t.jobs[i].lease.Some? ==> t.jobs[i].lease.value.token in issued + Uuids(e)
    {
      if i < |s.jobs| {
        assert Moves(s.jobs[i], t.jobs[i]);
      } else {
        assert i == |s.jobs|;
      }
    }
  }

  /** Every reachable workspace satisfies the invariant. */
  lemma {:induction false} RunsKeepInv(start: State, events: seq<Event>)
    requires Initial(start) && Fresh(events)
    ensures Inv(After(start, events)) && Known(After(start, events), Issued(events))
  {
    hide Apply, JobOk;
    if events != [] {
      var n := |events| - 1;
      FreshInit(events);
      RunsKeepInv(start, events[..n]);
      EventStep(After(start, events[..n]), events[n], Issued(events[..n]));
    }
  }

  /** The step taken by the last event of a run. */
  lemma LastStep(start: State, events: seq<Event>)
    requires Initial(start) && Fresh(events) && events != []
    ensures var n := |events| - 1;
            Inv(After(start, events[..n])) && Fresh(events[..n])
            && Step(After(start, events[..n]), After(start, events), events[n])
  {
    hide Apply, JobOk, Inv, Step;
    var n := |events| - 1;
    FreshInit(events);
    RunsKeepInv(start, events[..n]);
    EventStep(After(start, events[..n]), events[n], Issued(events[..n]));
  }

  // ------------------------------------------------- what a run never changes

  lemma FreshPrefix(events: seq<Event>, n: nat)
    requires Fresh(events) && n <= |events|
    ensures Fresh(events[..n])
    decreases |events|
  {
    if n < |events| {
      FreshInit(events);
      assert events[..|events| - 1][..n] == events[..n];
      FreshPrefix(events[..|events| - 1], n);
    } else {
      assert events[..n] == events;
    }
  }

  /** Jobs are never removed or re-addressed, and accepted or dismissed jobs never change again. */
  lemma {:induction false} JobsPersist(start: State, events: seq<Event>, n: nat, i: nat)
    requires Initial(start) && Fresh(events) && n <= |events|
    requires i < |After(start, events[..n]).jobs|
    ensures i < |After(start, events).jobs|
    ensures SameIdentity(After(start, events[..n]).jobs[i], After(start, events).jobs[i])
    ensures Terminal(After(start, events[..n]).jobs[i]) ==>
              After(start, events).jobs[i] == After(start, events[..n]).jobs[i]
    decreases |events|
  {
    hide After, Rank, Effective, Fresh;
    if n == |events| {
      assert events[..n] == events;
    } else {
      var m := |events| - 1;
      LastStep(start, events);
      assert events[..m][..n] == events[..n];
      JobsPersist(start, events[..m], n, i);
      assert Moves(After(start, events[..m]).jobs[i], After(start, events).jobs[i]);
    }
  }

  // ------------------------------------------------------------------- fencing

  ghost predicate TokenLive(s: State, token: string) {
    exists i :: 0 <= i < |s.jobs| && s.jobs[i].lease.Some? && s.jobs[i].lease.value.token == token
  }

  /** A token that has been issued and is on no lease stays off every lease. */
  lemma {:induction false} RetiredTokensStayRetired(start: State, events: seq<Event>, n: nat, token: string)
    requires Initial(start) && Fresh(events) && n <= |events|
    requires token in Issued(events[..n]) && !TokenLive(After(start, events[..n]), token)
    ensures !TokenLive(After(start, events), token)
    ensures token in Issued(events)
    decreases |events|
  {
    hide After, Step, TokenLive, Inv;
    if n == |events| {
      assert events[..n] == events;
    } else {
      var m := |events| - 1;
      LastStep(start, events);
      FreshInit(events);
      assert events[..m][..n] == events[..n];
      RetiredTokensStayRetired(start, events[..m], n, token);
      OldTokensAreNotPutBack(After(start, events[..m]), After(start, events), events[m], token);
    }
  }

  lemma OldTokensAreNotPutBack(s: State, t: State, e: Event, token: string)
    requires Step(s, t, e) && token !in Uuids(e) && !TokenLive(s, token)
    ensures !TokenLive(t, token)
  {
    hide Rank, Effective, Moves, Commands, Lowers, Uuids;
  }

  /** The event reports on a lease with `token`: a process or fail command. */
  predicate Reports(e: Event, token: string) {
    e.Act? && (e.command.Process? || e.command.Fail?) && e.command.leaseToken == Some(token)
  }

  lemma ReportNeedsLiveToken(s: State, e: Event, token: string)
    requires Reports(e, token) && Attempt(s, e).Ok?
    ensures TokenLive(s, token)
  {
  }

  /** A successful claim puts its token on the job and takes off the one that was there. */
  lemma ClaimReplacesToken(s: State, e: Event, i: nat)
    requires Inv(s) && e.Act? && e.command.Claim? && Attempt(s, e).Ok?
    requires FindJob(s.jobs, e.command.jobId.value) == Some(i)
    requires Unused(s, e.uuid)
    ensures Apply(s, e).jobs[i].lease.Some? && Apply(s, e).jobs[i].lease.value.token == e.uuid
    ensures s.jobs[i].lease.Some? ==> !TokenLive(Apply(s, e), s.jobs[i].lease.value.token)
  {
    hide JobOk;
  }

  lemma ReportTakesTokenOff(s: State, e: Event, token: string)
    requires Inv(s) && Reports(e, token) && Attempt(s, e).Ok?
    ensures !TokenLive(Apply(s, e), token)
  {
    hide JobOk, Propose;
  }

  /** Each claim is consumed by at most one completion or failure report. */
  lemma ClaimsAreConsumedOnce(start: State, events: seq<Event>, n: nat, m: nat, token: string)
    requires Initial(start) && Fresh(events) && n < m < |events|
    requires Reports(events[n], token) && Attempt(After(start, events[..n]), events[n]).Ok?
    requires Reports(events[m], token)
    ensures Attempt(After(start, events[..m]), events[m]).Err?
  {
    hide Apply, Inv, Attempt, Reports;
    FreshPrefix(events, n);
    FreshPrefix(events, m);
    RunsKeepInv(start, events[..n]);
    var s := After(start, events[..n]);
    ReportNeedsLiveToken(s, events[n], token);
    ReportTakesTokenOff(s, events[n], token);
    assert events[..m][..n] == events[..n];
    TakenOffStaysOff(start, events[..m], n, token);
    if Attempt(After(start, events[..m]), events[m]).Ok? {
      ReportNeedsLiveToken(After(start, events[..m]), events[m], token);
    }
  }

  lemma TakenOffStaysOff(start: State, events: seq<Event>, n: nat, token: string)
    requires Initial(start) && Fresh(events) && n < |events|
    requires TokenLive(After(start, events[..n]), token)
    requires !TokenLive(Apply(After(start, events[..n]), events[n]), token)
    ensures !TokenLive(After(start, events), token)
  {
    hide Apply, Inv;
    FreshPrefix(events, n);
    RunsKeepInv(start, events[..n]);
    assert token in Issued(events[..n]);
    assert events[..n + 1][..n] == events[..n];
    assert token in Issued(events[..n + 1]);
    RetiredTokensStayRetired(start, events, n + 1, token);
  }

  predicate Holds(s: State, i: nat, token: string) {
    i < |s.jobs| && s.jobs[i].lease.Some? && s.jobs[i].lease.value.token == token
  }

  /** A token that has been on a job's lease is never on another job's. */
  lemma {:induction false} TokenStaysWithItsJob(start: State, events: seq<Event>, k: nat, i: nat, token: string)
    requires Initial(start) && Fresh(events) && k <= |events| && Holds(After(start, events[..k]), i, token)
    ensures token in Issued(events)
    ensures forall j: nat :: Holds(After(start, events), j, token) ==> j == i
    decreases |events|
  {
    hide After, Rank, Effective, Moves, JobOk;
    if k == |events| {
      assert events[..k] == events;
      RunsKeepInv(start, events);
    } else {
      var m := |events| - 1;
      LastStep(start, events);
      FreshInit(events);
      assert events[..m][..k] == events[..k];
      TokenStaysWithItsJob(start, events[..m], k, i, token);
      var s := After(start, events[..m]);
      forall j: nat | Holds(After(start, events), j, token)
        ensures j == i
      {
        assert Holds(s, j, token);
      }
    }
  }

  lemma ClaimTakesOver(start: State, events: seq<Event>, n: nat, i: nat, token: string)
    requires Initial(start) && Fresh(events) && n < |events| && Holds(After(start, events[..n]), i, token)
    requires events[n].Act? && events[n].command.Claim? && Attempt(After(start, events[..n]), events[n]).Ok?
    requires FindJob(After(start, events[..n]).jobs, events[n].command.jobId.value) == Some(i)
    ensures !TokenLive(After(start, events), token)
  {
    hide Apply, Inv, Attempt;
    FreshPrefix(events, n);
    RunsKeepInv(start, events[..n]);
    var s := After(start, events[..n]);
    assert Unused(s, events[n].uuid) by {
      FreshPrefix(events, n + 1);
      assert events[..n + 1][..n] == events[..n];
      FreshInit(events[..n + 1]);
      UnknownIsUnused(s, Issued(events[..n]), events[n].uuid);
    }
    ClaimReplacesToken(s, events[n], i);
    TakenOffStaysOff(start, events, n, token);
  }

  /**
   Once a job is claimed again, no report under any token it held before ever succeeds, whichever
   earlier claim the token came from.
   */
  lemma ReclaimFencesEarlierTokens(start: State, events: seq<Event>, k: nat, n: nat, m: nat, i: nat, token: string)
    requires Initial(start) && Fresh(events) && k <= n < m < |events|
    requires Holds(After(start, events[..k]), i, token)
    requires events[n].Act? && events[n].command.Claim? && Attempt(After(start, events[..n]), events[n]).Ok?
    requires FindJob(After(start, events[..n]).jobs, events[n].command.jobId.value) == Some(i)
    requires Reports(events[m], token)
    ensures Attempt(After(start, events[..m]), events[m]).Err?
  {
    hide After, Apply, Inv, Attempt, Reports;
    FreshPrefix(events, n);
    FreshPrefix(events, m);
    assert events[..n][..k] == events[..k] && events[..m][..n] == events[..n];
    TokenStaysWithItsJob(start, events[..n], k, i, token);
    if Holds(After(start, events[..n]), i, token) {
      ClaimTakesOver(start, events[..m], n, i, token);
    } else {
      LiveIsHeld(After(start, events[..n]), token);
      RetiredTokensStayRetired(start, events[..m], n, token);
    }
    if Attempt(After(start, events[..m]), events[m]).Ok? {
      ReportNeedsLiveToken(After(start, events[..m]), events[m], token);
    }
  }

  lemma LiveIsHeld(s: State, token: string)
    ensures TokenLive(s, token) ==> exists j: nat :: Holds(s, j, token)
  {
    if TokenLive(s, token) {
      var j :| 0 <= j < |s.jobs| && s.jobs[j].lease.Some? && s.jobs[j].lease.value.token == token;
      assert Holds(s, j, token);
    }
  }

  // ------------------------------------------------------------- bounded work

  function RankSum(jobs: seq<Job>): int {
    if jobs == [] then 0 else RankSum(jobs[..|jobs| - 1]) + Rank(jobs[|jobs| - 1])
  }

  /** The work that can still happen in a workspace: ten commands for each job not yet queued. */
  function Potential(s: State): int {
    RankSum(s.jobs) + 10 * (MAX_JOBS_PER_TENANT - |s.jobs|)
  }

  lemma {:induction false} RankSumUpdate(jobs: seq<Job>, i: nat, j: Job)
    requires i < |jobs|
    ensures RankSum(jobs[i := j]) == RankSum(jobs) - Rank(jobs[i]) + Rank(j)
  {
    hide Rank;
    var n := |jobs| - 1;
    if i == n {
      assert jobs[i := j][..n] == jobs[..n];
    } else {
      assert jobs[i := j][..n] == jobs[..n][i := j];
      RankSumUpdate(jobs[..n], i, j);
    }
  }

  lemma {:induction false} RankSumBounds(jobs: seq<Job>)
    requires forall i :: 0 <= i < |jobs| ==> JobOk(jobs[i])
    ensures 0 <= RankSum(jobs) <= 9 * |jobs|
  {
    hide Rank, JobOk;
    if jobs != [] {
      RankSumBounds(jobs[..|jobs| - 1]);
      RankBounds(jobs[|jobs| - 1]);
    }
  }

  /** Every event lowers the potential by at least the commands that took effect in it. */
  lemma EffectiveEventsCost(s: State, t: State, e: Event)
    requires Step(s, t, e) && Inv(t)
    ensures Potential(t) + Commands(s, e) <= Potential(s)
  {
    hide Rank, JobOk, Effective;
    if |t.jobs| == |s.jobs| + 1 {
      assert t.jobs == s.jobs + [t.jobs[|s.jobs|]];
    } else if Effective(s, e) {
      var i :| 0 <= i < |s.jobs| && Lowers(s, t, i, Commands(s, e));
      RankSumUpdate(s.jobs, i, t.jobs[i]);
    }
  }

  /** How many engine commands took effect in a run. */
  function EffectiveCommands(start: State, events: seq<Event>): nat {
    if events == [] then 0
    else
      EffectiveCommands(start, events[..|events| - 1])
      + Commands(After(start, events[..|events| - 1]), events[|events| - 1])
  }

  /** No run of a tenant, however long, has more than 1000 effective commands. */
  lemma {:induction false} TenantWorkIsBounded(start: State, events: seq<Event>)
    requires Initial(start) && Fresh(events)
    ensures EffectiveCommands(start, events) + Potential(After(start, events)) <= 10 * MAX_JOBS_PER_TENANT
    ensures EffectiveCommands(start, events) <= 1000
  {
    hide Apply, Commands, JobOk, Step, Rank;
    RunsKeepInv(start, events);
    RankSumBounds(After(start, events).jobs);
    if events != [] {
      LastStep(start, events);
      TenantWorkIsBounded(start, events[..|events| - 1]);
      EffectiveEventsCost(After(start, events[..|events| - 1]), After(start, events), events[|events| - 1]);
    }
  }

  /** The commands of one event that took effect on job `i`, the one that queued it left out. */
  function CommandsOn(s: State, t: State, e: Event, i: nat): nat {
    if i < |s.jobs| then if i < |t.jobs| && s.jobs[i] != t.jobs[i] then Commands(s, e) else 0
    else if i < |t.jobs| && Commands(s, e) > 0 then Commands(s, e) - 1
    else 0
  }

  function WorkOn(start: State, events: seq<Event>, i: nat): nat {
    if events == [] then 0
    else
      WorkOn(start, events[..|events| - 1], i)
      + CommandsOn(After(start, events[..|events| - 1]), After(start, events), events[|events| - 1], i)
  }

  lemma JobPays(s: State, t: State, e: Event, i: nat)
    requires Step(s, t, e) && i < |t.jobs|
    ensures i < |s.jobs| ==> CommandsOn(s, t, e, i) + Rank(t.jobs[i]) <= Rank(s.jobs[i])
    ensures i >= |s.jobs| ==> CommandsOn(s, t, e, i) + Rank(t.jobs[i]) <= 9
  {
    hide Rank, Moves, Effective, QueueReview;
    if i >= |s.jobs| {
      assert i == |s.jobs| && Commands(s, e) >= 1;
    }
  }

  /** One job takes at most nine commands after the one that queued it. */
  lemma {:induction false} JobWorkIsBounded(start: State, events: seq<Event>, i: nat)
    requires Initial(start) && Fresh(events)
    ensures i >= |After(start, events).jobs| ==> WorkOn(start, events, i) == 0
    ensures i < |After(start, events).jobs| ==> WorkOn(start, events, i) + Rank(After(start, events).jobs[i]) <= 9
    ensures WorkOn(start, events, i) <= 9
  {
    hide After, Effective, JobOk, Rank, Commands, CommandsOn;
    RunsKeepInv(start, events);
    if events == [] {
      assert After(start, events) == start by { StartOf(start); }
    } else {
      var n := |events| - 1;
      LastStep(start, events);
      JobWorkIsBounded(start, events[..n], i);
      if i < |After(start, events).jobs| {
        RankBounds(After(start, events).jobs[i]);
        JobPays(After(start, events[..n]), After(start, events), events[n], i);
      } else {
        NoJobNoWork(After(start, events[..n]), After(start, events), events[n], i);
      }
    }
  }

  lemma NoJobNoWork(s: State, t: State, e: Event, i: nat)
    requires |s.jobs| <= |t.jobs| <= i
    ensures CommandsOn(s, t, e, i) == 0
  {
  }

  lemma StartOf(start: State)
    ensures After(start, []) == start
  {
  }

  /** Nobody is stuck: a second person can dismiss any job that is not yet accepted or dismissed. */
  lemma DismissalIsEnabled(s: State, i: nat, actor: string, rationale: string, now: int, uuid: string)
    requires Inv(s) && i < |s.jobs| && !Terminal(s.jobs[i])
    requires actor != s.jobs[i].requestedBy && GoodRationale(Some(rationale))
    ensures var r := Execute(s, actor, Review(Some(s.jobs[i].id), Some(Dismiss), Some(rationale)), now, uuid);
            r.Ok? && r.value.0.jobs[i].status == Dismissed
  {
    hide JobOk;
    FindUnique(s.jobs, i);
  }
}
