/**
 The workspace object that the commands update in place, and the bounded drain of
 scripts/simulation/worker.ts.
 */
module AgentWorkspace {
  import opened Basics
  import opened JsText
  import opened AgentJobs
  import opened AgentInvariant

  class Workspace {
    var agentJobs: seq<Job>
    var evidence: map<string, Evidence>
    var audit: seq<Audit>

    ghost function View(): State
      reads this
    {
      State(agentJobs, evidence, audit)
    }

    /** A rejected command leaves every field as it was; an accepted one does what `Execute` says. */
    method ExecuteAgentCommand(actor: string, c: Command, now: int, uuid: string) returns (r: Result<bool, Rejection>)
      modifies this`agentJobs
      ensures match Execute(old(View()), actor, c, now, uuid)
              case Err(e) => r == Err(e) && View() == old(View())
              case Ok((s, changed)) => r == Ok(changed) && View() == s
    {
      hide Propose, Trim;
      var s := State(agentJobs, evidence, audit);
      if c.Queue? {
        if c.workloadId.None? { return Err(WorkloadRequired); }
        var basis := ReviewBasis(s, c.workloadId.value);
        if basis.None? { return Err(WorkloadNotFound); }
        if FindReview(agentJobs, c.workloadId.value, basis.value).Some? { return Ok(false); }
        if |agentJobs| >= MAX_JOBS_PER_TENANT { return Err(HistoryLimit); }
        agentJobs := agentJobs + [NewJob(uuid, c.workloadId.value, actor, now, basis.value)];
        return Ok(true);
      }
      if c.jobId.None? { return Err(JobRequired); }
      var found := FindJob(agentJobs, c.jobId.value);
      if found.None? { return Err(JobNotFound); }
      var i := found.value;
      var j := agentJobs[i];
      match c {
        case Claim(_) =>
          if !(j.status == Queued || (j.status == Running && j.lease.Some? && j.lease.value.expiresAt <= now)) {
            return Err(NotAvailable);
          }
          if j.attempts >= MAX_ATTEMPTS { return Err(AttemptLimit); }
          j := j.(attempts := j.attempts + 1);
          j := j.(status := Running);
          j := j.(error := None);
          j := j.(lease := Some(Lease(actor, uuid, now + LEASE_MILLISECONDS)));
        case Retry(_) =>
          if !(j.status == Failed && j.attempts < MAX_ATTEMPTS) { return Err(CannotRetry); }
          j := j.(status := Queued);
          j := j.(lease := None);
        case Process(_, token) =>
          if !HoldsLease(j, actor, token, now) { return Err(LeaseRequired); }
          var basis := ReviewBasis(s, j.workloadId);
          if basis.None? { return Err(WorkloadNotFound); }
          if j.basis != basis.value {
            j := j.(status := Failed);
            j := j.(error := Some(EvidenceChanged));
          } else {
            j := j.(result := Some(Propose(evidence[j.workloadId])));
            j := j.(status := InReview);
          }
          j := j.(lease := None);
        case Fail(_, token) =>
          if !HoldsLease(j, actor, token, now) { return Err(LeaseRequired); }
          j := j.(status := Failed);
          j := j.(error := Some(Interrupted));
          j := j.(lease := None);
        case Review(_, resolution, rationale) =>
          if resolution.None? { return Err(ChooseResolution); }
          if !(j.status == InReview || (resolution == Some(Dismiss) && j.status in {Queued, Failed, Running})) {
            return Err(NotAwaitingReview);
          }
          if j.requestedBy == actor { return Err(SamePerson); }
          if resolution == Some(Accept) {
            var basis := ReviewBasis(s, j.workloadId);
            if basis.None? { return Err(WorkloadNotFound); }
            if j.basis != basis.value { return Err(Stale); }
          }
          if !GoodRationale(rationale) { return Err(RationaleRequired); }
          j := j.(status := if resolution == Some(Accept) then Accepted else Dismissed);
          j := j.(review := Some(HumanReview(actor, now, Trim(rationale.value))));
          j := j.(lease := None);
        case Queue(_) => assert false;
      }
      j := j.(updatedAt := now);
      agentJobs := agentJobs[i := j];
      return Ok(true);
    }

    /** The composite command: from a workspace in the invariant, a refusal leaves everything as it was. */
    method Frank(actor: string, workloadId: Option<string>, now: int, ids: Draws) returns (r: Result<bool, Rejection>)
      modifies this`agentJobs, this`audit
      ensures match ReviewWithFrank(old(View()), actor, workloadId, now, ids)
              case Err(e) => r == Err(e)
              case Ok((s, changed)) => r == Ok(changed) && View() == s
      ensures r.Err? && Inv(old(View())) && Unused(old(View()), ids.job) ==> View() == old(View())
    {
      hide Execute, QueueReview, Inv, RunFrank, Unused, Propose, JobOk;
      ghost var s0 := View();
      QueueIsExecute(s0, actor, workloadId, now, ids.job);
      if Inv(s0) && Unused(s0, ids.job) {
        FrankIsAllOrNothing(s0, actor, workloadId, now, ids);
      }
      if workloadId.None? { return Err(WorkloadRequired); }
      var basis := ReviewBasis(State(agentJobs, evidence, audit), workloadId.value);
      if basis.None? { return Err(WorkloadNotFound); }
      var queued := ExecuteAgentCommand(actor, Queue(workloadId), now, ids.job);
      if queued.Err? { return queued; }
      var found := FindReview(agentJobs, workloadId.value, basis.value);
      if found.None? { return Err(JobNotFound); }
      var jobId := agentJobs[found.value].id;
      if agentJobs[found.value].status != Queued { return queued; }
      r := RunFrankInPlace(jobId, now, ids);
    }

    /** Claim and process as the agent, then record both. */
    method RunFrankInPlace(jobId: string, now: int, ids: Draws) returns (r: Result<bool, Rejection>)
      modifies this`agentJobs, this`audit
      ensures match RunFrank(old(View()), jobId, now, ids)
              case Err(e) => r == Err(e)
              case Ok((s, changed)) => r == Ok(changed) && View() == s
    {
      hide Execute;
      var claimed := ExecuteAgentCommand(FRANK, Claim(Some(jobId)), now, ids.token);
      if claimed.Err? { return claimed; }
      var at := FindJob(agentJobs, jobId);
      if at.None? { return Err(JobNotFound); }
      var job := agentJobs[at.value];
      var token := if job.lease.Some? then Some(job.lease.value.token) else None;
      var processed := ExecuteAgentCommand(FRANK, Process(Some(jobId), token), now, "");
      if processed.Err? { return processed; }
      audit := audit + [Audit(ids.claimAudit, now, FRANK, "claim-agent-job", jobId)];
      audit := audit + [Audit(ids.processAudit, now, FRANK, "process-agent-job", jobId)];
      return Ok(true);
    }

    /** One turn of the drain: claim the job, then process it under the token of the claim. The claim stands
        even when processing is refused, which happens exactly when the workload no longer exists. */
    method ClaimAndProcess(worker: string, i: nat, now: int, uuid: string) returns (r: Result<bool, Rejection>)
      requires DistinctIds(agentJobs) && i < |agentJobs| && JobOk(agentJobs[i]) && Claimable(agentJobs[i], now)
      modifies this`agentJobs
      ensures r.Ok? <==> old(agentJobs)[i].workloadId in evidence
      ensures r.Err? ==>
                r.error == WorkloadNotFound
                && agentJobs == old(agentJobs)[i := Claimed(old(agentJobs)[i], worker, now, uuid)]
      ensures r.Ok? ==>
                && |agentJobs| == |old(agentJobs)| && agentJobs == old(agentJobs)[i := agentJobs[i]]
                && DealtWith(old(View()), old(agentJobs)[i], agentJobs[i], now)
                && JobOk(agentJobs[i]) && agentJobs[i].lease.None?
    {
      hide Execute, JobOk, Propose, Proposed, Claimable;
      ghost var before := View();
      var jobId := agentJobs[i].id;
      ClaimSucceeds(before, i, worker, now, uuid);
      var claimed := ExecuteAgentCommand(worker, Claim(Some(jobId)), now, uuid);
      ghost var mid := View();
      assert DistinctIds(mid.jobs);
      FindUnique(agentJobs, i);
      var at := FindJob(agentJobs, jobId);
      var token := agentJobs[at.value].lease.value.token;
      ProcessOutcome(mid, i, worker, now);
      r := ExecuteAgentCommand(worker, Process(Some(jobId), Some(token)), now, "");
    }

    /** One bounded drain of the worker at one clock reading: the first claimable jobs, at most ten, are claimed
        and processed and no other job is touched. A conflict ends the drain, any other refusal is raised: that
        happens exactly when one of these jobs is for a workload that no longer exists. The job then keeps its
        claim and its attempt is spent, the ones before it are dealt with and the ones after it are not. */
    method Drain(worker: string, now: int, tokens: seq<string>) returns (r: Result<nat, Rejection>)
      requires Inv(View())
      requires |tokens| == MAX_JOBS_PER_DRAIN && forall k :: 0 <= k < |tokens| ==> Unused(View(), tokens[k])
      modifies this`agentJobs
      ensures r.Ok? ==>
                && r.value == Min(10, ClaimableCount(old(agentJobs), now))
                && ClaimableCount(agentJobs, now) == ClaimableCount(old(agentJobs), now) - r.value
                && Drained(old(View()), agentJobs, now, r.value)
                && Inv(View())
      ensures r.Ok? <==> AllServed(old(View()), now)
      ensures r.Err? ==>
                && r.error == WorkloadNotFound && HttpStatus(r.error) == 404
                && (exists n, i :: Stuck(old(View()), agentJobs, worker, now, tokens, n, i))
                && Inv(View())
    {
      hide JobOk, Claimable, ClaimableCount, DealtWith, Unused, Stuck, AllServed, Claimed;
      ghost var s0 := View();
      var processed := 0;
      while processed < MAX_JOBS_PER_DRAIN
        invariant processed <= MAX_JOBS_PER_DRAIN
        invariant Inv(View()) && Drained(s0, agentJobs, now, processed)
        invariant ClaimableCount(agentJobs, now) == ClaimableCount(s0.jobs, now) - processed
        invariant evidence == s0.evidence && audit == s0.audit
        decreases MAX_JOBS_PER_DRAIN - processed
      {
        var found := FindClaimable(agentJobs, now);
        if found.None? {
          break;
        }
        ghost var before := View();
        var turn := ClaimAndProcess(worker, found.value, now, tokens[processed]);
        if turn.Err? {
          if HttpStatus(turn.error) == 409 {
            break;
          }
          StuckHere(s0, before, worker, now, tokens, processed, found.value);
          return Err(turn.error);
        }
        DrainStep(s0, before, found.value, agentJobs[found.value], now, processed);
        processed := processed + 1;
      }
      DrainedServed(s0, agentJobs, now, processed);
      return Ok(processed);
    }
  }

  // -------------------------------------------------------------- the worker

  const MAX_JOBS_PER_DRAIN: nat := 10

  function Min(a: nat, b: nat): nat { if a <= b then a else b }

  function FindClaimable(jobs: seq<Job>, now: int): (i: Option<nat>)
    ensures i.Some? ==> i.value < |jobs| && Claimable(jobs[i.value], now)
    ensures i.Some? ==> forall k :: 0 <= k < i.value ==> !Claimable(jobs[k], now)
    ensures i.None? ==> ClaimableCount(jobs, now) == 0 && forall k :: 0 <= k < |jobs| ==> !Claimable(jobs[k], now)
  {
    if jobs == [] then None
    else
      assert forall k :: 0 <= k < |jobs| - 1 ==> jobs[..|jobs| - 1][k] == jobs[k];
      match FindClaimable(jobs[..|jobs| - 1], now)
      case Some(i) => Some(i)
      case None => if Claimable(jobs[|jobs| - 1], now) then Some(|jobs| - 1) else None
  }

  function ClaimableCount(jobs: seq<Job>, now: int): nat {
    if jobs == [] then 0
    else ClaimableCount(jobs[..|jobs| - 1], now) + if Claimable(jobs[|jobs| - 1], now) then 1 else 0
  }

  /** A job the worker has dealt with: reviewed if its evidence stands, failed if the evidence moved on. */
  ghost predicate DealtWith(s: State, a: Job, b: Job, now: int) {
    && SameIdentity(a, b) && Claimable(a, now) && b.attempts == a.attempts + 1
    && a.workloadId in s.evidence
    && if s.evidence[a.workloadId].basis == a.basis
       then b.status == InReview && CarriesProposal(b, s.evidence[a.workloadId])
       else b.status == Failed && b.error == Some(EvidenceChanged)
  }

  /** The first `n` claimable jobs are dealt with, and every other job is as it was. */
  ghost predicate Drained(s: State, jobs: seq<Job>, now: int, n: nat) {
    && |jobs| == |s.jobs|
    && forall i :: 0 <= i < |jobs| ==>
         if Claimable(s.jobs[i], now) && CountBefore(s.jobs, i, now) < n then DealtWith(s, s.jobs[i], jobs[i], now)
         else jobs[i] == s.jobs[i]
  }

  /** The drain stopped at job `i`: claimed and left running, with `n` jobs dealt with and every other one as it was. */
  ghost predicate Stuck(s: State, jobs: seq<Job>, worker: string, now: int, tokens: seq<string>, n: nat, i: nat) {
    && i < |jobs| == |s.jobs| && n < MAX_JOBS_PER_DRAIN && n < |tokens|
    && Claimable(s.jobs[i], now) && CountBefore(s.jobs, i, now) == n && s.jobs[i].workloadId !in s.evidence
    && jobs[i] == Claimed(s.jobs[i], worker, now, tokens[n])
    && Drained(s, jobs[i := s.jobs[i]], now, n)
  }

  /** The jobs one drain reaches all have a workload to process. */
  ghost predicate AllServed(s: State, now: int) {
    forall i :: 0 <= i < |s.jobs| && Claimable(s.jobs[i], now) && CountBefore(s.jobs, i, now) < 10 ==>
      s.jobs[i].workloadId in s.evidence
  }

  /** How many claimable jobs come before a position. */
  function CountBefore(jobs: seq<Job>, i: nat, now: int): nat
    requires i <= |jobs|
  {
    ClaimableCount(jobs[..i], now)
  }

  lemma CountNext(jobs: seq<Job>, i: nat, now: int)
    requires i < |jobs|
    ensures CountBefore(jobs, i + 1, now) == CountBefore(jobs, i, now) + if Claimable(jobs[i], now) then 1 else 0
  {
    hide Claimable;
    assert jobs[..i + 1][..i] == jobs[..i];
  }

  lemma {:induction false} CountGrows(jobs: seq<Job>, i: nat, k: nat, now: int)
    requires i <= k <= |jobs|
    ensures CountBefore(jobs, i, now) <= CountBefore(jobs, k, now)
    decreases k
  {
    hide Claimable, CountBefore;
    if i < k {
      CountNext(jobs, k - 1, now);
      CountGrows(jobs, i, k - 1, now);
    }
  }

  /** Among more than `n` claimable jobs there is one with exactly `n` before it. */
  lemma {:induction false} NthClaimable(jobs: seq<Job>, i: nat, n: nat, now: int) returns (k: nat)
    requires i <= |jobs| && CountBefore(jobs, i, now) > n
    ensures k < i && Claimable(jobs[k], now) && CountBefore(jobs, k, now) == n
  {
    hide Claimable, CountBefore;
    NoneBefore(jobs, now);
    CountNext(jobs, i - 1, now);
    if CountBefore(jobs, i - 1, now) > n {
      k := NthClaimable(jobs, i - 1, n, now);
    } else {
      k := i - 1;
    }
  }

  lemma NoneBefore(jobs: seq<Job>, now: int)
    ensures CountBefore(jobs, 0, now) == 0
  {
  }

  lemma DealtWithIsNotClaimable(s: State, a: Job, b: Job, now: int)
    requires DealtWith(s, a, b, now)
    ensures !Claimable(b, now)
  {
  }

  /** The first claimable job left is the next one of the start. */
  lemma NextInLine(s0: State, jobs: seq<Job>, i: nat, now: int, n: nat)
    requires Drained(s0, jobs, now, n) && i < |jobs|
    requires Claimable(jobs[i], now) && forall k :: 0 <= k < i ==> !Claimable(jobs[k], now)
    ensures jobs[i] == s0.jobs[i] && CountBefore(s0.jobs, i, now) == n
  {
    hide Claimable, CountBefore, DealtWith;
    if Claimable(s0.jobs[i], now) && CountBefore(s0.jobs, i, now) < n {
      DealtWithIsNotClaimable(s0, s0.jobs[i], jobs[i], now);
    }
    if CountBefore(s0.jobs, i, now) > n {
      var _ := NthClaimable(s0.jobs, i, n, now);
    }
  }

  lemma DrainedMore(s0: State, jobs: seq<Job>, i: nat, j: Job, now: int, n: nat)
    requires Drained(s0, jobs, now, n) && i < |jobs| && jobs[i] == s0.jobs[i]
    requires Claimable(s0.jobs[i], now) && CountBefore(s0.jobs, i, now) == n
    requires DealtWith(s0, s0.jobs[i], j, now)
    ensures Drained(s0, jobs[i := j], now, n + 1)
  {
    hide Claimable, CountBefore, DealtWith;
    forall k | 0 <= k < |jobs| && k != i && Claimable(s0.jobs[k], now)
      ensures CountBefore(s0.jobs, k, now) != n
    {
      CountNext(s0.jobs, i, now);
      CountNext(s0.jobs, k, now);
      if k < i {
        CountGrows(s0.jobs, k + 1, i, now);
      } else {
        CountGrows(s0.jobs, i + 1, k, now);
      }
    }
  }

  lemma QueueIsExecute(s: State, actor: string, workloadId: Option<string>, now: int, uuid: string)
    ensures Execute(s, actor, Queue(workloadId), now, uuid) == QueueReview(s, actor, workloadId, now, uuid)
  {
  }

  lemma ProcessOutcome(s: State, i: nat, actor: string, now: int)
    requires DistinctIds(s.jobs) && i < |s.jobs| && JobOk(s.jobs[i])
    requires s.jobs[i].lease.Some? && s.jobs[i].lease.value.owner == actor && s.jobs[i].lease.value.expiresAt > now
    ensures match Execute(s, actor, Process(Some(s.jobs[i].id), Some(s.jobs[i].lease.value.token)), now, "")
            case Err(e) => e == WorkloadNotFound && s.jobs[i].workloadId !in s.evidence
            case Ok((t, changed)) =>
              && changed && t.evidence == s.evidence && t.audit == s.audit
              && |t.jobs| == |s.jobs| && t.jobs == s.jobs[i := t.jobs[i]]
              && SameIdentity(s.jobs[i], t.jobs[i]) && t.jobs[i].attempts == s.jobs[i].attempts
              && t.jobs[i].lease.None? && JobOk(t.jobs[i])
              && s.jobs[i].workloadId in s.evidence
              && if s.evidence[s.jobs[i].workloadId].basis == s.jobs[i].basis
                 then t.jobs[i].status == InReview && CarriesProposal(t.jobs[i], s.evidence[s.jobs[i].workloadId])
                 else t.jobs[i].status == Failed && t.jobs[i].error == Some(EvidenceChanged)
  {
    hide Propose, Proposed;
    FindUnique(s.jobs, i);
    if s.jobs[i].workloadId in s.evidence {
      ProposalFits(s.evidence[s.jobs[i].workloadId]);
      ProposalIsSafe(s.evidence[s.jobs[i].workloadId]);
    }
  }

  lemma {:induction false} CountUpdate(jobs: seq<Job>, i: nat, j: Job, now: int)
    requires i < |jobs| && Claimable(jobs[i], now) && !Claimable(j, now)
    ensures ClaimableCount(jobs[i := j], now) == ClaimableCount(jobs, now) - 1
  {
    hide Claimable;
    var n := |jobs| - 1;
    if i == n {
      assert jobs[i := j][..n] == jobs[..n];
    } else {
      assert jobs[i := j][..n] == jobs[..n][i := j];
      CountUpdate(jobs[..n], i, j, now);
    }
  }

  lemma DrainStep(s0: State, before: State, i: nat, j: Job, now: int, n: nat)
    requires Inv(before) && Drained(s0, before.jobs, now, n) && before.evidence == s0.evidence
    requires i < |before.jobs| && JobOk(j) && j.lease.None?
    requires forall k :: 0 <= k < i ==> !Claimable(before.jobs[k], now)
    requires DealtWith(before, before.jobs[i], j, now)
    ensures Inv(before.(jobs := before.jobs[i := j]))
    ensures Drained(s0, before.jobs[i := j], now, n + 1)
    ensures ClaimableCount(before.jobs[i := j], now) == ClaimableCount(before.jobs, now) - 1
  {
    hide JobOk, Proposed, Drained, CountBefore;
    DealtWithIsNotClaimable(before, before.jobs[i], j, now);
    CountUpdate(before.jobs, i, j, now);
    WithoutLeaseKeepsDistinct(before, i, j);
    NextInLine(s0, before.jobs, i, now, n);
    DrainedMore(s0, before.jobs, i, j, now, n);
  }

  lemma DrainedUnused(s0: State, before: State, now: int, n: nat, token: string)
    requires Inv(before) && Drained(s0, before.jobs, now, n) && Unused(s0, token)
    ensures Unused(before, token)
  {
    hide CountBefore, Claimable, Proposed;
  }

  /** Where a turn is refused the drain is stuck. */
  lemma StuckHere(s0: State, before: State, worker: string, now: int, tokens: seq<string>, n: nat, i: nat)
    requires Inv(before) && Drained(s0, before.jobs, now, n) && before.evidence == s0.evidence
    requires n < MAX_JOBS_PER_DRAIN && n < |tokens| && Unused(s0, tokens[n])
    requires i < |before.jobs| && Claimable(before.jobs[i], now) && before.jobs[i].workloadId !in before.evidence
    requires forall k :: 0 <= k < i ==> !Claimable(before.jobs[k], now)
    ensures var jobs := before.jobs[i := Claimed(before.jobs[i], worker, now, tokens[n])];
            Stuck(s0, jobs, worker, now, tokens, n, i) && Inv(before.(jobs := jobs)) && !AllServed(s0, now)
  {
    hide CountBefore, Drained, Unused, DealtWith;
    NextInLine(s0, before.jobs, i, now, n);
    assert |before.jobs| == |s0.jobs| by { DrainedLength(s0, before.jobs, now, n); }
    var j := Claimed(before.jobs[i], worker, now, tokens[n]);
    assert before.jobs[i := j][i := s0.jobs[i]] == before.jobs;
    DrainedUnused(s0, before, now, n, tokens[n]);
    ReplaceKeepsDistinct(before, i, j, tokens[n]);
  }

  lemma DrainedLength(s: State, jobs: seq<Job>, now: int, n: nat)
    requires Drained(s, jobs, now, n)
    ensures |jobs| == |s.jobs|
  {
  }

  /** A drain that was not refused served every job it could reach. */
  lemma DrainedServed(s: State, jobs: seq<Job>, now: int, n: nat)
    requires Drained(s, jobs, now, n)
    requires n == MAX_JOBS_PER_DRAIN || n == ClaimableCount(s.jobs, now)
    ensures AllServed(s, now)
  {
    hide Claimable, CountBefore, Proposed;
    forall i | 0 <= i < |s.jobs| && Claimable(s.jobs[i], now) && CountBefore(s.jobs, i, now) < MAX_JOBS_PER_DRAIN
      ensures s.jobs[i].workloadId in s.evidence
    {
      CountNext(s.jobs, i, now);
      CountGrows(s.jobs, i + 1, |s.jobs|, now);
      CountAll(s.jobs, now);
      assert DealtWith(s, s.jobs[i], jobs[i], now);
    }
  }

  lemma CountAll(jobs: seq<Job>, now: int)
    ensures CountBefore(jobs, |jobs|, now) == ClaimableCount(jobs, now)
  {
    assert jobs[..|jobs|] == jobs;
  }
}
