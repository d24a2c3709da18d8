/**
 When each command of src/agent-workflows/engine.ts is accepted, what an accepted one does and what a refusal says,
 stated on the workspace alone.
 */
module AgentCommands {
  import opened Basics
  import opened JsText
  import opened AgentJobs
  import opened AgentInvariant

  /** The job a command names: the first with its id. */
  predicate Names(s: State, c: Command, i: nat)
    requires !c.Queue?
  {
    && i < |s.jobs| && c.jobId == Some(s.jobs[i].id)
    && forall k :: 0 <= k < i ==> s.jobs[k].id != s.jobs[i].id
  }

  /** The evidence of the workload is the one the review was asked for. */
  predicate Stands(s: State, workloadId: string, basis: string) {
    workloadId in s.evidence && s.evidence[workloadId].basis == basis
  }

  ghost predicate Reviewed(s: State, workloadId: string) {
    exists i :: 0 <= i < |s.jobs| && s.jobs[i].workloadId == workloadId && Stands(s, workloadId, s.jobs[i].basis)
  }

  /** Free to be worked on: queued, or left behind by a lease that has run out. */
  predicate Free(j: Job, now: int) {
    match j.status
    case Queued => true
    case Running => j.lease.Some? && now >= j.lease.value.expiresAt
    case _ => false
  }

  /** The actor reports in time, under the token of its own lease. */
  predicate MayReport(j: Job, actor: string, token: Option<string>, now: int) {
    match (j.status, j.lease, token)
    case (Running, Some(lease), Some(t)) => lease.owner == actor && lease.token == t && now < lease.expiresAt
    case _ => false
  }

  /** Unfinished jobs can be dismissed, and only a proposal can be accepted. */
  predicate Settles(j: Job, resolution: Resolution) {
    match j.status
    case InReview => true
    case Queued | Running | Failed => resolution == Dismiss
    case Accepted | Dismissed => false
  }

  /** At least ten characters between white space, in at most a thousand. */
  ghost predicate Rationale(text: string, core: string) { CoreOf(text, core) && |core| >= 10 && |text| <= 1000 }

  ghost predicate GivesRationale(rationale: Option<string>) {
    rationale.Some? && exists core :: Rationale(rationale.value, core)
  }

  /** What must hold for a command on a job to be accepted. */
  ghost predicate Allowed(s: State, j: Job, actor: string, c: Command, now: int)
    requires !c.Queue?
  {
    match c
    case Claim(_) => Free(j, now) && j.attempts < 3
    case Process(_, token) => MayReport(j, actor, token, now) && j.workloadId in s.evidence
    case Fail(_, token) => MayReport(j, actor, token, now)
    case Retry(_) => j.status == Failed && j.attempts < 3
    case Review(_, resolution, rationale) =>
      && resolution.Some? && Settles(j, resolution.value) && j.requestedBy != actor && GivesRationale(rationale)
      && (resolution.value == Accept ==> Stands(s, j.workloadId, j.basis))
  }

  /** When a command is accepted. */
  ghost predicate Admits(s: State, actor: string, c: Command, now: int) {
    if c.Queue? then
      var w := c.workloadId;
      w.Some? && w.value in s.evidence && (Reviewed(s, w.value) || |s.jobs| < 100)
    else exists i: nat :: Names(s, c, i) && Allowed(s, s.jobs[i], actor, c, now)
  }

  // ------------------------------------------------------------- the effect

  ghost predicate Changes(s: State, a: Job, b: Job, actor: string, c: Command, now: int, uuid: string)
    requires !c.Queue?
  {
    && SameIdentity(a, b) && b.updatedAt == now
    && match c
       case Claim(_) =>
         && b.status == Running && b.attempts == a.attempts + 1 && b.lease == Some(Lease(actor, uuid, now + 60 * 1000))
         && b.error.None? && b.result == a.result && b.review == a.review
       case Process(_, _) =>
         && b.attempts == a.attempts && b.lease.None? && b.review == a.review
         && (if Stands(s, a.workloadId, a.basis)
             then b.status == InReview && b.error == a.error && CarriesProposal(b, s.evidence[a.workloadId])
             else b.status == Failed && b.error == Some(EvidenceChanged) && b.result == a.result)
       case Fail(_, _) =>
         && b.status == Failed && b.error == Some(Interrupted) && b.lease.None?
         && b.attempts == a.attempts && b.result == a.result && b.review == a.review
       case Retry(_) =>
         && b.status == Queued && b.lease.None?
         && b.attempts == a.attempts && b.error == a.error && b.result == a.result && b.review == a.review
       case Review(_, resolution, rationale) =>
         && b.status == (if resolution == Some(Accept) then Accepted else Dismissed) && b.lease.None?
         && b.attempts == a.attempts && b.error == a.error && b.result == a.result
         && b.review.Some? && b.review.value.reviewer == actor && b.review.value.at == now
         && rationale.Some? && Rationale(rationale.value, b.review.value.rationale)
  }

  /** A queue command adds one job for evidence not yet under review. */
  ghost predicate Queues(s: State, t: State, changed: bool, actor: string, w: string, now: int, uuid: string) {
    if Reviewed(s, w) then t == s && !changed
    else
      && changed && t.evidence == s.evidence && t.audit == s.audit
      && |t.jobs| == |s.jobs| + 1 && t.jobs[..|s.jobs|] == s.jobs
      && var j := t.jobs[|s.jobs|];
      && j.id == uuid && j.workloadId == w && Stands(s, w, j.basis) && j.requestedBy == actor
      && j.createdAt == now && j.updatedAt == now && j.status == Queued && j.attempts == 0
      && j.lease.None? && j.error.None? && j.result.None? && j.review.None?
  }

  /** What an accepted command makes of the workspace. */
  ghost predicate Does(s: State, t: State, changed: bool, actor: string, c: Command, now: int, uuid: string) {
    if c.Queue? then c.workloadId.Some? && Queues(s, t, changed, actor, c.workloadId.value, now, uuid)
    else
      && changed && t.evidence == s.evidence && t.audit == s.audit && |t.jobs| == |s.jobs|
      && exists i: nat :: Names(s, c, i) && t.jobs == s.jobs[i := t.jobs[i]]
                     && Changes(s, s.jobs[i], t.jobs[i], actor, c, now, uuid)
  }

  // ------------------------------------------------------------ the refusal

  /** The ground of a refusal about a job, and its HTTP status. */
  ghost predicate JobGround(s: State, j: Job, actor: string, c: Command, now: int, e: Rejection) {
    match e
    case WorkloadNotFound => !c.Claim? && !c.Fail? && !c.Retry? && j.workloadId !in s.evidence && HttpStatus(e) == 404
    case NotAvailable => c.Claim? && !Free(j, now) && HttpStatus(e) == 409
    case AttemptLimit => c.Claim? && j.attempts >= 3 && HttpStatus(e) == 409
    case CannotRetry => c.Retry? && (j.status != Failed || j.attempts >= 3) && HttpStatus(e) == 409
    case LeaseRequired => (c.Process? || c.Fail?) && !MayReport(j, actor, c.leaseToken, now) && HttpStatus(e) == 409
    case ChooseResolution => c.Review? && c.resolution.None? && HttpStatus(e) == 400
    case NotAwaitingReview =>
      c.Review? && c.resolution.Some? && !Settles(j, c.resolution.value) && HttpStatus(e) == 409
    case SamePerson => c.Review? && j.requestedBy == actor && HttpStatus(e) == 403
    case Stale =>
      && c.Review? && c.resolution == Some(Accept) && j.workloadId in s.evidence
      && !Stands(s, j.workloadId, j.basis) && HttpStatus(e) == 409
    case RationaleRequired => c.Review? && !GivesRationale(c.rationale) && HttpStatus(e) == 400
    case _ => false
  }

  /** A refusal names a reason that is true. */
  ghost predicate Grounds(s: State, actor: string, c: Command, now: int, e: Rejection) {
    if c.Queue? then
      match e
      case WorkloadRequired => c.workloadId.None? && HttpStatus(e) == 400
      case WorkloadNotFound => c.workloadId.Some? && c.workloadId.value !in s.evidence && HttpStatus(e) == 404
      case HistoryLimit =>
        c.workloadId.Some? && !Reviewed(s, c.workloadId.value) && |s.jobs| >= 100 && HttpStatus(e) == 409
      case _ => false
    else
      match e
      case JobRequired => c.jobId.None? && HttpStatus(e) == 400
      case JobNotFound => (forall i :: 0 <= i < |s.jobs| ==> Some(s.jobs[i].id) != c.jobId) && HttpStatus(e) == 404
      case _ => exists i: nat :: Names(s, c, i) && JobGround(s, s.jobs[i], actor, c, now, e)
  }

  // --------------------------------------------------------------- the laws

  lemma {:induction false} FoundIsFirst(jobs: seq<Job>, id: string)
    ensures var i := FindJob(jobs, id);
            i.Some? ==> forall k :: 0 <= k < i.value ==> jobs[k].id != id
  {
    if jobs != [] {
      FoundIsFirst(jobs[..|jobs| - 1], id);
    }
  }

  lemma FoundMeans(s: State, c: Command)
    requires !c.Queue? && c.jobId.Some?
    ensures match FindJob(s.jobs, c.jobId.value)
            case Some(i) => forall k: nat :: Names(s, c, k) <==> k == i
            case None => forall k: nat :: !Names(s, c, k)
  {
    hide FindJob;
    FoundIsFirst(s.jobs, c.jobId.value);
  }

  lemma ReviewedMeans(s: State, w: string)
    requires w in s.evidence
    ensures FindReview(s.jobs, w, s.evidence[w].basis).Some? <==> Reviewed(s, w)
  {
    hide FindReview;
  }

  lemma RationaleMeans(rationale: Option<string>)
    ensures GoodRationale(rationale) <==> GivesRationale(rationale)
    ensures GoodRationale(rationale) ==> rationale.Some? && Rationale(rationale.value, Trim(rationale.value))
  {
    hide CoreOf, Trim;
    if rationale.Some? {
      TrimMeans(rationale.value);
      assert GoodRationale(rationale) ==> Rationale(rationale.value, Trim(rationale.value));
      if core :| Rationale(rationale.value, core) {
        CoreIsUnique(rationale.value, core, Trim(rationale.value));
      }
    }
  }

  lemma JobCommandMeans(s: State, j: Job, actor: string, c: Command, now: int, uuid: string)
    requires !c.Queue?
    ensures match JobCommand(s, j, actor, c, now, uuid)
            case Ok(k) => Allowed(s, j, actor, c, now) && Changes(s, j, k, actor, c, now, uuid)
            case Err(e) => !Allowed(s, j, actor, c, now) && JobGround(s, j, actor, c, now, e)
  {
    hide GoodRationale, GivesRationale, Rationale, Trim, Propose, Proposed;
    if c.Review? {
      RationaleMeans(c.rationale);
    }
    if c.Process? && j.workloadId in s.evidence {
      ProposalFits(s.evidence[j.workloadId]);
    }
  }

  /**
   A command is accepted exactly when its conditions hold; it then does what it is for and nothing else, and a
   refusal names a reason that is true.
   */
  lemma CommandMeans(s: State, actor: string, c: Command, now: int, uuid: string)
    ensures match Execute(s, actor, c, now, uuid)
            case Ok((t, changed)) => Admits(s, actor, c, now) && Does(s, t, changed, actor, c, now, uuid)
            case Err(e) => !Admits(s, actor, c, now) && Grounds(s, actor, c, now, e)
  {
    hide JobCommand, Allowed, Changes, Reviewed, Names, Free, MayReport, Settles, GivesRationale;
    if c.Queue? {
      if c.workloadId.Some? && c.workloadId.value in s.evidence {
        ReviewedMeans(s, c.workloadId.value);
      }
    } else if c.jobId.None? {
      NobodyNamed(s, c);
    } else {
      FoundMeans(s, c);
      var found := FindJob(s.jobs, c.jobId.value);
      if found.Some? {
        JobCommandMeans(s, s.jobs[found.value], actor, c, now, uuid);
      }
    }
  }

  lemma NobodyNamed(s: State, c: Command)
    requires !c.Queue? && c.jobId.None?
    ensures forall i: nat :: !Names(s, c, i)
  {
  }

  // ---------------------------------------------------- the agent and the worker

  /** What the worker looks for is exactly what a claim is accepted for. */
  lemma ClaimableExactlyWhenClaimed(s: State, i: nat, worker: string, now: int, uuid: string)
    requires DistinctIds(s.jobs) && i < |s.jobs|
    ensures Claimable(s.jobs[i], now) <==> Execute(s, worker, Claim(Some(s.jobs[i].id)), now, uuid).Ok?
  {
    FindUnique(s.jobs, i);
  }

  /** Job `i` finishes the review of the workload's current evidence; nothing else changes but the audit. */
  ghost predicate FrankReviews(s: State, t: State, actor: string, w: string, now: int, ids: Draws, i: nat) {
    && i <= |s.jobs| && i < |t.jobs| && |t.jobs| == (if i == |s.jobs| then |s.jobs| + 1 else |s.jobs|)
    && (forall k :: 0 <= k < |s.jobs| && k != i ==> t.jobs[k] == s.jobs[k])
    && t.evidence == s.evidence && t.audit == s.audit + RecordOfFrank(ids, now, t.jobs[i].id)
    && var j := t.jobs[i];
    && j.workloadId == w && Stands(s, w, j.basis) && j.status == InReview && CarriesProposal(j, s.evidence[w])
    && j.lease.None? && j.error.None? && j.review.None?
    && (if i == |s.jobs| then j.id == ids.job && j.requestedBy == actor && j.createdAt == now && j.attempts == 1
        else s.jobs[i].status == Queued && SameIdentity(s.jobs[i], j) && j.attempts == s.jobs[i].attempts + 1)
  }

  ghost predicate SomeFrankReview(s: State, t: State, actor: string, w: string, now: int, ids: Draws) {
    exists i: nat :: FrankReviews(s, t, actor, w, now, ids, i)
  }

  /** Asking the agent either changes nothing or finishes exactly one review, on the record. */
  lemma FrankMeans(s: State, actor: string, workloadId: Option<string>, now: int, ids: Draws)
    requires Inv(s) && Unused(s, ids.job)
    ensures match ReviewWithFrank(s, actor, workloadId, now, ids)
            case Err(e) => Grounds(s, actor, Queue(workloadId), now, e)
            case Ok((t, changed)) =>
              && workloadId.Some?
              && if changed then SomeFrankReview(s, t, actor, workloadId.value, now, ids) else t == s
  {
    hide JobOk, RunFrank, Inv, AwaitsReview, Propose, Proposed, Grounds, SomeFrankReview;
    FrankIsAllOrNothing(s, actor, workloadId, now, ids);
    CommandMeans(s, actor, Queue(workloadId), now, ids.job);
    QueueCommand(s, actor, workloadId, now, ids.job);
    if ReviewWithFrank(s, actor, workloadId, now, ids).Ok? && ReviewWithFrank(s, actor, workloadId, now, ids).value.1 {
      FrankFinishes(s, actor, workloadId.value, now, ids);
    }
  }

  lemma QueueCommand(s: State, actor: string, workloadId: Option<string>, now: int, uuid: string)
    ensures Execute(s, actor, Queue(workloadId), now, uuid) == QueueReview(s, actor, workloadId, now, uuid)
  {
  }

  lemma FrankFinishes(s: State, actor: string, w: string, now: int, ids: Draws)
    requires Inv(s) && Unused(s, ids.job)
    requires ReviewWithFrank(s, actor, Some(w), now, ids).Ok? && ReviewWithFrank(s, actor, Some(w), now, ids).value.1
    ensures SomeFrankReview(s, ReviewWithFrank(s, actor, Some(w), now, ids).value.0, actor, w, now, ids)
  {
    hide JobOk, RunFrank, Inv, Propose, Proposed, CarriesProposal;
    var (queued, changed) := QueueReview(s, actor, Some(w), now, ids.job).value;
    QueueKeepsInv(s, actor, Some(w), now, ids.job);
    QueueLeavesAReview(s, actor, w, now, ids.job);
    var i := FindReview(queued.jobs, w, ReviewBasis(s, w).value).value;
    var t := ReviewWithFrank(s, actor, Some(w), now, ids).value.0;
    if queued.jobs[i].status == Queued {
      RunFrankSucceeds(queued, i, now, ids);
      InReviewHasNeither(t.jobs[i]);
      assert FrankReviews(s, t, actor, w, now, ids, i);
    } else {
      NotQueuedWasThere(s, actor, w, now, ids.job, i);
    }
  }

  lemma InReviewHasNeither(j: Job)
    requires JobOk(j) && j.status == InReview
    ensures j.error.None? && j.review.None?
  {
  }
}
