/** What every agent command keeps, and the composite command that cannot stop half-way. */
module AgentInvariant {
  import opened Basics
  import opened JsText
  import opened AgentJobs

  predicate Terminal(j: Job) { j.status == Accepted || j.status == Dismissed }

  predicate JobOk(j: Job) {
    && (j.lease.Some? <==> j.status == Running)
    && j.attempts <= MAX_ATTEMPTS
    && (j.status == Queued ==> j.attempts < MAX_ATTEMPTS)
    && (j.status in {Running, Failed, InReview, Accepted} ==> j.attempts >= 1)
    && (j.result.Some? ==> j.status in {InReview, Accepted, Dismissed})
    && (j.status in {InReview, Accepted} ==> j.result.Some?)
    && (j.result.Some? && j.result.value.recommendation == Expand ==> j.result.value.governanceReady)
    && (j.review.Some? <==> Terminal(j))
    && (j.review.Some? ==> j.review.value.reviewer != j.requestedBy)
    && (j.status == Failed ==> j.error.Some?)
    && (j.status in {Running, InReview, Accepted} ==> j.error.None?)
  }

  ghost predicate DistinctIds(jobs: seq<Job>) {
    forall i, k :: 0 <= i < k < |jobs| ==> jobs[i].id != jobs[k].id
  }

  /** One review per input snapshot. */
  ghost predicate OneReviewPerSnapshot(jobs: seq<Job>) {
    forall i, k :: 0 <= i < k < |jobs| ==> jobs[i].workloadId != jobs[k].workloadId || jobs[i].basis != jobs[k].basis
  }

  ghost predicate DistinctTokens(jobs: seq<Job>) {
    forall i, k :: 0 <= i < k < |jobs| && jobs[i].lease.Some? && jobs[k].lease.Some? ==>
      jobs[i].lease.value.token != jobs[k].lease.value.token
  }

  ghost predicate Inv(s: State) {
    && |s.jobs| <= MAX_JOBS_PER_TENANT
    && (forall i :: 0 <= i < |s.jobs| ==> JobOk(s.jobs[i]))
    && DistinctIds(s.jobs) && OneReviewPerSnapshot(s.jobs) && DistinctTokens(s.jobs)
  }

  /** `uuid` is neither the id of a job nor the token of a lease. */
  ghost predicate Unused(s: State, uuid: string) {
    forall i :: 0 <= i < |s.jobs| ==>
      s.jobs[i].id != uuid && (s.jobs[i].lease.Some? ==> s.jobs[i].lease.value.token != uuid)
  }

  /** What no command changes on a job. */
  predicate SameIdentity(a: Job, b: Job) {
    a.id == b.id && a.workloadId == b.workloadId && a.requestedBy == b.requestedBy
    && a.createdAt == b.createdAt && a.basis == b.basis
  }

  // ------------------------------------------------------------- proposals

  predicate PartAt(s: string, part: string, k: nat) { k + |part| <= |s| && s[k..k + |part|] == part }

  ghost predicate Mentions(s: string, part: string) { exists k: nat :: PartAt(s, part, k) }

  /** The task of a blocker: procurement settles reviews and financial matters, a technician the rest. */
  ghost predicate TaskFor(t: Task, blocker: string) {
    && t.instruction == blocker && t.role != Executive
    && (t.role == Procurement <==> Mentions(blocker, "review") || Mentions(blocker, "financial"))
  }

  predicate AllApproved(e: Evidence) {
    forall approval :: approval in [e.policyCheck, e.ethicsReview, e.costApproval, e.scaleAuthorized] ==> approval
  }

  /**
   What a proposal says of its evidence. It recommends what the evaluation does, but a review first where expansion
   lacks an approval; its tasks are one for each blocker in order, then the missing approval, then the decision.
   */
  ghost predicate Proposed(e: Evidence, p: Proposal) {
    && (p.recommendation == e.recommendation
        || (p.recommendation == ReviewFirst && e.recommendation == Expand && !AllApproved(e)))
    && (p.recommendation == Expand ==> AllApproved(e))
    && (p.governanceReady <==> AllApproved(e))
    && p.measuredRatio == e.measuredRatio
    && |p.tasks| == |e.blockers| + (if AllApproved(e) then 1 else 2)
    && (forall i :: 0 <= i < |e.blockers| ==> TaskFor(p.tasks[i], e.blockers[i]))
    && (!AllApproved(e) ==>
          p.tasks[|e.blockers|] == Task(Executive, "Complete sequential governance approval before expansion."))
    && p.tasks[|p.tasks| - 1]
       == Task(Executive, "Review outcome evidence and record a business decision in Initiative outcomes.")
  }

  /** The job holds the proposal made from the evidence. */
  ghost predicate CarriesProposal(j: Job, e: Evidence) { j.result.Some? && Proposed(e, j.result.value) }

  lemma {:induction false} IncludesMeans(s: string, part: string)
    ensures Includes(s, part) <==> Mentions(s, part)
  {
    hide PartAt;
    PartAtStart(s, part);
    if s != "" && !PartAt(s, part, 0) {
      IncludesMeans(s[1..], part);
      if k: nat :| PartAt(s[1..], part, k) {
        PartShifts(s, part, k);
      }
      if k: nat :| PartAt(s, part, k) {
        PartShifts(s, part, k - 1);
      }
    }
  }

  lemma PartAtStart(s: string, part: string)
    ensures part <= s <==> PartAt(s, part, 0)
    ensures s == "" ==> forall k: nat :: PartAt(s, part, k) ==> k == 0
  {
    if |part| <= |s| { assert s[0..0 + |part|] == s[..|part|]; }
  }

  lemma PartShifts(s: string, part: string, k: nat)
    requires s != ""
    ensures PartAt(s, part, k + 1) <==> PartAt(s[1..], part, k)
  {
    if k + 1 + |part| <= |s| { assert s[1..][k..k + |part|] == s[k + 1..k + 1 + |part|]; }
  }

  lemma BlockerTaskFits(blocker: string)
    ensures TaskFor(BlockerTask(blocker), blocker)
  {
    hide Includes, Mentions;
    IncludesMeans(blocker, "review");
    IncludesMeans(blocker, "financial");
  }

  lemma ApprovedMeans(e: Evidence)
    ensures GovernanceReady(e) <==> AllApproved(e)
  {
    var all := [e.policyCheck, e.ethicsReview, e.costApproval, e.scaleAuthorized];
    assert all[0] in all && all[1] in all && all[2] in all && all[3] in all;
  }

  /** The engine proposes what the evidence says. */
  lemma ProposalFits(e: Evidence)
    ensures Proposed(e, Propose(e))
  {
    hide BlockerTask, TaskFor, GovernanceReady, AllApproved;
    ApprovedMeans(e);
    forall i | 0 <= i < |e.blockers|
      ensures TaskFor(Propose(e).tasks[i], e.blockers[i])
    {
      BlockerTaskFits(e.blockers[i]);
    }
  }

  /** Only one proposal fits the evidence. */
  lemma ProposalIsDetermined(e: Evidence, p: Proposal, q: Proposal)
    requires Proposed(e, p) && Proposed(e, q)
    ensures p == q
  {
    hide Mentions, AllApproved;
    assert forall i :: 0 <= i < |e.blockers| ==>
                         TaskFor(p.tasks[i], e.blockers[i]) && TaskFor(q.tasks[i], e.blockers[i]);
    assert p.tasks == q.tasks;
  }

  /** It is never proposed to expand without complete governance. */
  lemma ProposalIsSafe(e: Evidence)
    ensures Propose(e).recommendation == Expand ==> Propose(e).governanceReady && e.recommendation == Expand
  {
  }

  /** What a command may make of a job. */
  predicate Keeps(a: Job, b: Job, c: Command, uuid: string) {
    && JobOk(b) && SameIdentity(a, b) && !Terminal(a)
    && (b.lease.Some? ==> c.Claim? && b.lease.value.token == uuid)
  }

  lemma ClaimKeeps(j: Job, actor: string, c: Command, now: int, uuid: string)
    requires c.Claim? && JobOk(j) && ClaimJob(j, actor, now, uuid).Ok?
    ensures Keeps(j, ClaimJob(j, actor, now, uuid).value, c, uuid)
  {
  }

  lemma ProcessKeeps(s: State, j: Job, actor: string, c: Command, now: int, uuid: string)
    requires c.Process? && JobOk(j) && ProcessJob(s, j, actor, c.leaseToken, now).Ok?
    ensures Keeps(j, ProcessJob(s, j, actor, c.leaseToken, now).value, c, uuid)
  {
    hide Propose;
    if j.workloadId in s.evidence {
      ProposalIsSafe(s.evidence[j.workloadId]);
    }
  }

  lemma ReviewKeeps(s: State, j: Job, actor: string, c: Command, now: int, uuid: string)
    requires c.Review? && JobOk(j) && ReviewJob(s, j, actor, c.resolution, c.rationale, now).Ok?
    ensures Keeps(j, ReviewJob(s, j, actor, c.resolution, c.rationale, now).value, c, uuid)
  {
    hide GoodRationale, Trim;
  }

  lemma JobCommandKeeps(s: State, j: Job, actor: string, c: Command, now: int, uuid: string)
    requires !c.Queue? && JobOk(j) && JobCommand(s, j, actor, c, now, uuid).Ok?
    ensures Keeps(j, JobCommand(s, j, actor, c, now, uuid).value, c, uuid)
  {
    hide ClaimJob, ProcessJob, ReviewJob;
    match c {
      case Claim(_) => ClaimKeeps(j, actor, c, now, uuid);
      case Process(_, _) => ProcessKeeps(s, j, actor, c, now, uuid);
      case Review(_, _, _) => ReviewKeeps(s, j, actor, c, now, uuid);
      case Fail(_, _) =>
      case Retry(_) =>
      case Queue(_) =>
    }
  }

  lemma FindUnique(jobs: seq<Job>, i: nat)
    requires DistinctIds(jobs) && i < |jobs|
    ensures FindJob(jobs, jobs[i].id) == Some(i)
  {
  }

  /** Every successful command keeps the invariant. */
  lemma ExecuteKeepsInv(s: State, actor: string, c: Command, now: int, uuid: string)
    requires Inv(s) && Unused(s, uuid)
    requires Execute(s, actor, c, now, uuid).Ok?
    ensures Inv(Execute(s, actor, c, now, uuid).value.0)
  {
    hide JobOk, JobCommand;
    if c.Queue? {
      QueueKeepsInv(s, actor, c.workloadId, now, uuid);
    } else {
      var i := FindJob(s.jobs, c.jobId.value).value;
      JobCommandKeeps(s, s.jobs[i], actor, c, now, uuid);
      var jobs := s.jobs[i := JobCommand(s, s.jobs[i], actor, c, now, uuid).value];
      ReplaceKeepsDistinct(s, i, jobs[i], uuid);
    }
  }

  lemma QueueKeepsInv(s: State, actor: string, workloadId: Option<string>, now: int, uuid: string)
    requires Inv(s) && Unused(s, uuid)
    requires QueueReview(s, actor, workloadId, now, uuid).Ok?
    ensures Inv(QueueReview(s, actor, workloadId, now, uuid).value.0)
  {
  }

  lemma ReplaceKeepsDistinct(s: State, i: nat, j: Job, uuid: string)
    requires Inv(s) && Unused(s, uuid) && i < |s.jobs| && SameIdentity(s.jobs[i], j)
    requires j.lease.Some? ==> j.lease.value.token == uuid
    ensures DistinctIds(s.jobs[i := j]) && OneReviewPerSnapshot(s.jobs[i := j]) && DistinctTokens(s.jobs[i := j])
  {
    hide JobOk;
  }

  // ---------------------------------------------------- the composite command

  /** What the worker looks for: attempts left, and queued or running on an expired lease. */
  predicate Claimable(j: Job, now: int) {
    j.attempts < MAX_ATTEMPTS
    && (j.status == Queued || (j.status == Running && j.lease.Some? && j.lease.value.expiresAt <= now))
  }

  /** A job as a claim leaves it. */
  function Claimed(j: Job, worker: string, now: int, uuid: string): Job {
    j.(attempts := j.attempts + 1, status := Running, error := None,
       lease := Some(Lease(worker, uuid, now + LEASE_MILLISECONDS)), updatedAt := now)
  }

  lemma ClaimSucceeds(s: State, i: nat, actor: string, now: int, uuid: string)
    requires DistinctIds(s.jobs) && i < |s.jobs| && JobOk(s.jobs[i]) && Claimable(s.jobs[i], now)
    ensures var j := s.jobs[i];
            var claimed := Claimed(j, actor, now, uuid);
            Execute(s, actor, Claim(Some(j.id)), now, uuid) == Ok((s.(jobs := s.jobs[i := claimed]), true))
            && JobOk(claimed)
  {
    FindUnique(s.jobs, i);
  }

  lemma ProcessSucceeds(s: State, i: nat, actor: string, now: int)
    requires DistinctIds(s.jobs) && i < |s.jobs| && JobOk(s.jobs[i])
    requires s.jobs[i].lease.Some? && s.jobs[i].lease.value.owner == actor && s.jobs[i].lease.value.expiresAt > now
    requires ReviewBasis(s, s.jobs[i].workloadId) == Some(s.jobs[i].basis)
    ensures var j := s.jobs[i];
            var done := j.(status := InReview, result := Some(Propose(s.evidence[j.workloadId])),
                           lease := None, updatedAt := now);
            Execute(s, actor, Process(Some(j.id), Some(j.lease.value.token)), now, "")
              == Ok((s.(jobs := s.jobs[i := done]), true))
            && JobOk(done) && CarriesProposal(done, s.evidence[j.workloadId])
  {
    hide Propose, Proposed;
    FindUnique(s.jobs, i);
    ProposalIsSafe(s.evidence[s.jobs[i].workloadId]);
    ProposalFits(s.evidence[s.jobs[i].workloadId]);
  }

  /** The audit trail of a review by the simulated agent: the claim and then the processing of the job. */
  function RecordOfFrank(ids: Draws, now: int, jobId: string): seq<Audit> {
    [Audit(ids.claimAudit, now, "Frank Coster (simulated)", "claim-agent-job", jobId),
     Audit(ids.processAudit, now, "Frank Coster (simulated)", "process-agent-job", jobId)]
  }

  lemma RunFrankSucceeds(s: State, i: nat, now: int, ids: Draws)
    requires Inv(s) && i < |s.jobs| && s.jobs[i].status == Queued
    requires ReviewBasis(s, s.jobs[i].workloadId) == Some(s.jobs[i].basis)
    ensures RunFrank(s, s.jobs[i].id, now, ids).Ok?
    ensures var (t, changed) := RunFrank(s, s.jobs[i].id, now, ids).value;
            && changed && |t.jobs| == |s.jobs| && t.evidence == s.evidence
            && t.jobs == s.jobs[i := t.jobs[i]]
            && SameIdentity(s.jobs[i], t.jobs[i])
            && t.jobs[i].status == InReview && t.jobs[i].attempts == s.jobs[i].attempts + 1
            && CarriesProposal(t.jobs[i], s.evidence[s.jobs[i].workloadId])
            && t.jobs[i].lease.None? && JobOk(t.jobs[i])
            && t.audit == s.audit + RecordOfFrank(ids, now, s.jobs[i].id)
  {
    hide JobOk, Execute, Propose, Proposed;
    var j := s.jobs[i];
    QueuedIsClaimable(j, now);
    ClaimSucceeds(s, i, FRANK, now, ids.token);
    var mid := Execute(s, FRANK, Claim(Some(j.id)), now, ids.token).value.0;
    assert DistinctIds(mid.jobs) by { ReplaceKeepsIds(s, i, mid.jobs[i]); }
    FindUnique(mid.jobs, i);
    ProcessSucceeds(mid, i, FRANK, now);
  }

  /**
   A running lease is exclusive: nobody can claim or retry the job, and only the owner can report, under
   the token of the lease. Once it has expired, nobody can report.
   */
  lemma LeaseIsExclusive(s: State, i: nat, actor: string, c: Command, now: int, uuid: string)
    requires Inv(s) && i < |s.jobs| && s.jobs[i].lease.Some?
    requires !c.Queue? && c.jobId == Some(s.jobs[i].id)
    ensures var lease := s.jobs[i].lease.value;
            && (c.Claim? || c.Retry? ==>
                  (Execute(s, actor, c, now, uuid).Ok? <==>
                   c.Claim? && lease.expiresAt <= now && s.jobs[i].attempts < MAX_ATTEMPTS))
            && (c.Fail? ==>
                  (Execute(s, actor, c, now, uuid).Ok? <==>
                   actor == lease.owner && c.leaseToken == Some(lease.token) && now < lease.expiresAt))
            && (c.Process? ==>
                  (Execute(s, actor, c, now, uuid).Ok? <==>
                   actor == lease.owner && c.leaseToken == Some(lease.token) && now < lease.expiresAt
                   && ReviewBasis(s, s.jobs[i].workloadId).Some?))
  {
    hide Propose;
    assert JobOk(s.jobs[i]);
    FindUnique(s.jobs, i);
  }

  lemma QueuedIsClaimable(j: Job, now: int)
    requires JobOk(j) && j.status == Queued
    ensures Claimable(j, now)
  {
  }

  lemma ReplaceKeepsIds(s: State, i: nat, j: Job)
    requires Inv(s) && i < |s.jobs| && j.id == s.jobs[i].id
    ensures DistinctIds(s.jobs[i := j])
  {
    hide JobOk;
  }

  lemma FrankKeepsInv(s: State, actor: string, workloadId: Option<string>, now: int, ids: Draws)
    requires Inv(s) && Unused(s, ids.job)
    requires ReviewWithFrank(s, actor, workloadId, now, ids).Ok?
    ensures Inv(ReviewWithFrank(s, actor, workloadId, now, ids).value.0)
  {
    hide JobOk, RunFrank, Propose, QueueReview, Inv, Proposed;
    var queued := QueueReview(s, actor, workloadId, now, ids.job).value.0;
    QueueKeepsInv(s, actor, workloadId, now, ids.job);
    QueueLeavesAReview(s, actor, workloadId.value, now, ids.job);
    var i := FindReview(queued.jobs, workloadId.value, ReviewBasis(s, workloadId.value).value).value;
    if queued.jobs[i].status == Queued {
      RunFrankSucceeds(queued, i, now, ids);
      var t := RunFrank(queued, queued.jobs[i].id, now, ids).value.0;
      WithoutLeaseKeepsInv(queued, i, t);
    }
  }

  lemma WithoutLeaseKeepsInv(s: State, i: nat, t: State)
    requires Inv(s) && i < |s.jobs| == |t.jobs| && t.jobs == s.jobs[i := t.jobs[i]]
    requires SameIdentity(s.jobs[i], t.jobs[i]) && t.jobs[i].lease.None? && JobOk(t.jobs[i])
    ensures Inv(t)
  {
    hide JobOk;
    WithoutLeaseKeepsDistinct(s, i, t.jobs[i]);
  }

  lemma WithoutLeaseKeepsDistinct(s: State, i: nat, j: Job)
    requires Inv(s) && i < |s.jobs| && SameIdentity(s.jobs[i], j) && j.lease.None?
    ensures DistinctIds(s.jobs[i := j]) && OneReviewPerSnapshot(s.jobs[i := j]) && DistinctTokens(s.jobs[i := j])
  {
    hide JobOk;
  }

  lemma QueueLeavesAReview(s: State, actor: string, workloadId: string, now: int, uuid: string)
    requires QueueReview(s, actor, Some(workloadId), now, uuid).Ok?
    ensures ReviewBasis(s, workloadId).Some?
    ensures var queued := QueueReview(s, actor, Some(workloadId), now, uuid).value.0;
            queued.evidence == s.evidence && queued.audit == s.audit
            && FindReview(queued.jobs, workloadId, ReviewBasis(s, workloadId).value).Some?
  {
    var queued := QueueReview(s, actor, Some(workloadId), now, uuid).value.0;
    var basis := ReviewBasis(s, workloadId).value;
    if FindReview(s.jobs, workloadId, basis).None? {
      assert queued.jobs[|s.jobs|].workloadId == workloadId && queued.jobs[|s.jobs|].basis == basis;
    }
  }

  /** The current evidence of the workload has a finished proposal that awaits a person. */
  ghost predicate AwaitsReview(s: State, workloadId: string) {
    && workloadId in s.evidence
    && exists i :: 0 <= i < |s.jobs| && s.jobs[i].workloadId == workloadId
                   && s.jobs[i].basis == s.evidence[workloadId].basis
                   && s.jobs[i].status == InReview
                   && CarriesProposal(s.jobs[i], s.evidence[workloadId])
  }

  /** The composite command is all or nothing: it is refused only before anything happened, it reports
      "unchanged" only when nothing changed, and otherwise the review of the current evidence is done. */
  lemma FrankIsAllOrNothing(s: State, actor: string, workloadId: Option<string>, now: int, ids: Draws)
    requires Inv(s) && Unused(s, ids.job)
    ensures match ReviewWithFrank(s, actor, workloadId, now, ids)
            case Err(e) => e in {WorkloadRequired, WorkloadNotFound, HistoryLimit}
                           && QueueReview(s, actor, workloadId, now, ids.job) == Err(e)
            case Ok((t, changed)) =>
              t.evidence == s.evidence && if changed then AwaitsReview(t, workloadId.value) else t == s
  {
    hide JobOk, RunFrank, Inv, AwaitsReview, Propose, Proposed;
    if workloadId.Some? && QueueReview(s, actor, workloadId, now, ids.job).Ok? {
      QueueLeavesAReview(s, actor, workloadId.value, now, ids.job);
      FrankAfterQueue(s, actor, workloadId.value, now, ids);
    }
  }

  lemma FrankAfterQueue(s: State, actor: string, workloadId: string, now: int, ids: Draws)
    requires Inv(s) && Unused(s, ids.job)
    requires QueueReview(s, actor, Some(workloadId), now, ids.job).Ok?
    ensures ReviewWithFrank(s, actor, Some(workloadId), now, ids).Ok?
    ensures var (t, changed) := ReviewWithFrank(s, actor, Some(workloadId), now, ids).value;
            t.evidence == s.evidence && if changed then AwaitsReview(t, workloadId) else t == s
  {
    hide JobOk, RunFrank, Inv, Propose, QueueReview, Proposed;
    var queued := QueueReview(s, actor, Some(workloadId), now, ids.job).value.0;
    QueueKeepsInv(s, actor, Some(workloadId), now, ids.job);
    QueueLeavesAReview(s, actor, workloadId, now, ids.job);
    var i := FindReview(queued.jobs, workloadId, ReviewBasis(s, workloadId).value).value;
    if queued.jobs[i].status == Queued {
      RunFrankSucceeds(queued, i, now, ids);
      var t := RunFrank(queued, queued.jobs[i].id, now, ids).value.0;
      assert t.jobs[i].status == InReview;
    } else {
      NotQueuedWasThere(s, actor, workloadId, now, ids.job, i);
    }
  }

  lemma NotQueuedWasThere(s: State, actor: string, workloadId: string, now: int, uuid: string, i: nat)
    requires QueueReview(s, actor, Some(workloadId), now, uuid).Ok?
    requires var q := QueueReview(s, actor, Some(workloadId), now, uuid).value.0;
             FindReview(q.jobs, workloadId, ReviewBasis(s, workloadId).value) == Some(i)
             && i < |q.jobs| && q.jobs[i].status != Queued
    ensures QueueReview(s, actor, Some(workloadId), now, uuid).value == (s, false)
  {
    var q := QueueReview(s, actor, Some(workloadId), now, uuid).value.0;
    if i < |s.jobs| {
      assert q.jobs[i] == s.jobs[i];
    }
  }

  /** Asking again while the evidence stands changes nothing, whoever asks. */
  lemma FrankTwiceIsOnce(s: State, actor: string, workloadId: Option<string>, now: int, ids: Draws,
                         again: string, later: int, more: Draws)
    requires Inv(s) && Unused(s, ids.job)
    requires ReviewWithFrank(s, actor, workloadId, now, ids).Ok?
    ensures var t := ReviewWithFrank(s, actor, workloadId, now, ids).value.0;
            ReviewWithFrank(t, again, workloadId, later, more) == Ok((t, false))
  {
    hide JobOk, RunFrank, QueueReview, Propose, Proposed;
    FrankIsAllOrNothing(s, actor, workloadId, now, ids);
    FrankKeepsInv(s, actor, workloadId, now, ids);
    var (t, changed) := ReviewWithFrank(s, actor, workloadId, now, ids).value;
    hide ReviewWithFrank;
    var basis := ReviewBasis(s, workloadId.value).value;
    if changed {
      var i :| 0 <= i < |t.jobs| && t.jobs[i].workloadId == workloadId.value
               && t.jobs[i].basis == t.evidence[workloadId.value].basis && t.jobs[i].status == InReview;
      var k := FindReview(t.jobs, workloadId.value, basis).value;
      assert k == i;
      FoundIsUnchanged(t, k, again, workloadId.value, later, more);
    } else {
      UnchangedFrankFoundIt(s, actor, workloadId, now, ids);
      FoundIsUnchanged(t, FindReview(t.jobs, workloadId.value, basis).value, again, workloadId.value, later, more);
    }
  }

  lemma FoundIsUnchanged(s: State, k: nat, actor: string, workloadId: string, now: int, ids: Draws)
    requires workloadId in s.evidence && FindReview(s.jobs, workloadId, s.evidence[workloadId].basis) == Some(k)
    requires k < |s.jobs| && s.jobs[k].status != Queued
    ensures ReviewWithFrank(s, actor, Some(workloadId), now, ids) == Ok((s, false))
  {
    hide RunFrank, Propose;
  }

  lemma UnchangedFrankFoundIt(s: State, actor: string, workloadId: Option<string>, now: int, ids: Draws)
    requires Inv(s) && Unused(s, ids.job)
    requires ReviewWithFrank(s, actor, workloadId, now, ids) == Ok((s, false))
    ensures var found := FindReview(s.jobs, workloadId.value, ReviewBasis(s, workloadId.value).value);
            found.Some? && s.jobs[found.value].status != Queued
  {
    hide JobOk, RunFrank;
    var basis := ReviewBasis(s, workloadId.value).value;
    var (queued, changed) := QueueReview(s, actor, workloadId, now, ids.job).value;
    QueueKeepsInv(s, actor, workloadId, now, ids.job);
    if changed {
      assert queued.jobs[|s.jobs|].workloadId == workloadId.value && queued.jobs[|s.jobs|].basis == basis;
    }
    var i := FindReview(queued.jobs, workloadId.value, basis).value;
    if queued.jobs[i].status == Queued {
      RunFrankSucceeds(queued, i, now, ids);
    }
  }
}
