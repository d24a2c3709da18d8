/**
 The agent-review job engine (src/agent-workflows/engine.ts): one command as a function on workspace
 states. Times are milliseconds; `uuid` is what randomUUID returns.
 */
module AgentJobs {
  import opened Basics
  import opened JsText

  const MAX_JOBS_PER_TENANT: nat := 100
  const MAX_ATTEMPTS: nat := 3
  const LEASE_MILLISECONDS: nat := 60_000

  datatype Status = Queued | Running | Failed | InReview | Accepted | Dismissed

  datatype Lease = Lease(owner: string, token: string, expiresAt: int)

  datatype Recommendation = ReviewFirst | Continue | Expand | Change | Stop

  datatype Role = Technical | Procurement | Executive

  datatype Task = Task(role: Role, instruction: string)

  datatype Proposal = Proposal(
    recommendation: Recommendation,
    measuredRatio: Option<int>,
    governanceReady: bool,
    tasks: seq<Task>)

  datatype HumanReview = HumanReview(reviewer: string, at: int, rationale: string)

  datatype Fault = Interrupted | EvidenceChanged

  datatype Job = Job(
    id: string,
    workloadId: string,
    requestedBy: string,
    createdAt: int,
    updatedAt: int,
    basis: string,
    status: Status,
    attempts: nat,
    lease: Option<Lease>,
    error: Option<Fault>,
    result: Option<Proposal>,
    review: Option<HumanReview>)

  /** What the outcome model says about one workload: the hash of its inputs and its evaluation. */
  datatype Evidence = Evidence(
    basis: string,
    recommendation: Recommendation,
    measuredRatio: Option<int>,
    blockers: seq<string>,
    policyCheck: bool,
    ethicsReview: bool,
    costApproval: bool,
    scaleAuthorized: bool)

  datatype Audit = Audit(id: string, at: int, actor: string, action: string, target: string)

  /** `evidence` holds the workloads that have an outcome record. */
  datatype State = State(jobs: seq<Job>, evidence: map<string, Evidence>, audit: seq<Audit>)

  /** `None` stands for a missing or ill-typed field of the request. */
  datatype Resolution = Accept | Dismiss

  datatype Command =
    | Queue(workloadId: Option<string>)
    | Claim(jobId: Option<string>)
    | Process(jobId: Option<string>, leaseToken: Option<string>)
    | Fail(jobId: Option<string>, leaseToken: Option<string>)
    | Retry(jobId: Option<string>)
    | Review(jobId: Option<string>, resolution: Option<Resolution>, rationale: Option<string>)

  datatype Rejection =
    | WorkloadRequired | WorkloadNotFound | HistoryLimit
    | JobRequired | JobNotFound | NotAvailable | AttemptLimit | CannotRetry | LeaseRequired
    | ChooseResolution | NotAwaitingReview | SamePerson | Stale | RationaleRequired

  function HttpStatus(r: Rejection): nat {
    match r
    case WorkloadRequired | JobRequired | ChooseResolution | RationaleRequired => 400
    case SamePerson => 403
    case WorkloadNotFound | JobNotFound => 404
    case _ => 409
  }

  function ReviewBasis(s: State, workloadId: string): Option<string> {
    if workloadId in s.evidence then Some(s.evidence[workloadId].basis) else None
  }

  /** `jobs.find(j => j.id === id)`. */
  function FindJob(jobs: seq<Job>, id: string): (i: Option<nat>)
    ensures i.Some? ==> i.value < |jobs| && jobs[i.value].id == id
    ensures i.None? ==> forall k :: 0 <= k < |jobs| ==> jobs[k].id != id
  {
    if jobs == [] then None
    else
      match FindJob(jobs[..|jobs| - 1], id)
      case Some(i) => Some(i)
      case None => if jobs[|jobs| - 1].id == id then Some(|jobs| - 1) else None
  }

  /** `jobs.find(j => j.workloadId === workloadId && j.basis === basis)`. */
  function FindReview(jobs: seq<Job>, workloadId: string, basis: string): (i: Option<nat>)
    ensures i.Some? ==> i.value < |jobs| && jobs[i.value].workloadId == workloadId && jobs[i.value].basis == basis
    ensures i.None? ==> forall k :: 0 <= k < |jobs| ==> jobs[k].workloadId != workloadId || jobs[k].basis != basis
  {
    if jobs == [] then None
    else
      match FindReview(jobs[..|jobs| - 1], workloadId, basis)
      case Some(i) => Some(i)
      case None =>
        var last := jobs[|jobs| - 1];
        if last.workloadId == workloadId && last.basis == basis then Some(|jobs| - 1) else None
  }

  // ---------------------------------------------------------------- one command

  function NewJob(uuid: string, workloadId: string, actor: string, now: int, basis: string): Job {
    Job(uuid, workloadId, actor, now, now, basis, Queued, 0, None, None, None, None)
  }

  function QueueReview(s: State, actor: string, workloadId: Option<string>, now: int, uuid: string)
    : Result<(State, bool), Rejection>
  {
    if workloadId.None? then Err(WorkloadRequired)
    else
      match ReviewBasis(s, workloadId.value)
      case None => Err(WorkloadNotFound)
      case Some(basis) =>
        if FindReview(s.jobs, workloadId.value, basis).Some? then Ok((s, false))
        else if |s.jobs| >= MAX_JOBS_PER_TENANT then Err(HistoryLimit)
        else Ok((s.(jobs := s.jobs + [NewJob(uuid, workloadId.value, actor, now, basis)]), true))
  }

  function ClaimJob(j: Job, actor: string, now: int, uuid: string): Result<Job, Rejection> {
    if !(j.status == Queued || (j.status == Running && j.lease.Some? && j.lease.value.expiresAt <= now)) then
      Err(NotAvailable)
    else if j.attempts >= MAX_ATTEMPTS then Err(AttemptLimit)
    else
      Ok(j.(attempts := j.attempts + 1, status := Running, error := None,
            lease := Some(Lease(actor, uuid, now + LEASE_MILLISECONDS)), updatedAt := now))
  }

  function RetryJob(j: Job, now: int): Result<Job, Rejection> {
    if j.status == Failed && j.attempts < MAX_ATTEMPTS
    then Ok(j.(status := Queued, lease := None, updatedAt := now))
    else Err(CannotRetry)
  }

  predicate HoldsLease(j: Job, actor: string, token: Option<string>, now: int) {
    && j.status == Running && j.lease.Some?
    && j.lease.value.owner == actor && Some(j.lease.value.token) == token && j.lease.value.expiresAt > now
  }

  function FailJob(j: Job, actor: string, token: Option<string>, now: int): Result<Job, Rejection> {
    if !HoldsLease(j, actor, token, now) then Err(LeaseRequired)
    else Ok(j.(status := Failed, error := Some(Interrupted), lease := None, updatedAt := now))
  }

  predicate GovernanceReady(e: Evidence) {
    e.policyCheck && e.ethicsReview && e.costApproval && e.scaleAuthorized
  }

  function BlockerTask(instruction: string): Task {
    Task(if Includes(instruction, "review") || Includes(instruction, "financial") then Procurement else Technical,
         instruction)
  }

  function Propose(e: Evidence): Proposal {
    var ready := GovernanceReady(e);
    Proposal(
      if e.recommendation == Expand && !ready then ReviewFirst else e.recommendation,
      e.measuredRatio,
      ready,
      seq(|e.blockers|, i requires 0 <= i < |e.blockers| => BlockerTask(e.blockers[i]))
      + (if ready then [] else [Task(Executive, "Complete sequential governance approval before expansion.")])
      + [Task(Executive, "Review outcome evidence and record a business decision in Initiative outcomes.")])
  }

  function ProcessJob(s: State, j: Job, actor: string, token: Option<string>, now: int): Result<Job, Rejection> {
    if !HoldsLease(j, actor, token, now) then Err(LeaseRequired)
    else
      match ReviewBasis(s, j.workloadId)
      case None => Err(WorkloadNotFound)
      case Some(basis) =>
        Ok((if j.basis != basis then j.(status := Failed, error := Some(EvidenceChanged))
            else j.(status := InReview, result := Some(Propose(s.evidence[j.workloadId]))))
           .(lease := None, updatedAt := now))
  }

  predicate GoodRationale(rationale: Option<string>) {
    rationale.Some? && |Trim(rationale.value)| >= 10 && |rationale.value| <= 1000
  }

  function ReviewJob(s: State, j: Job, actor: string, resolution: Option<Resolution>, rationale: Option<string>,
                     now: int): Result<Job, Rejection>
  {
    if resolution.None? then Err(ChooseResolution)
    else if !(j.status == InReview || (resolution == Some(Dismiss) && j.status in {Queued, Failed, Running})) then
      Err(NotAwaitingReview)
    else if j.requestedBy == actor then Err(SamePerson)
    else if resolution == Some(Accept) && ReviewBasis(s, j.workloadId).None? then Err(WorkloadNotFound)
    else if resolution == Some(Accept) && ReviewBasis(s, j.workloadId) != Some(j.basis) then Err(Stale)
    else if !GoodRationale(rationale) then Err(RationaleRequired)
    else
      Ok(j.(status := if resolution == Some(Accept) then Accepted else Dismissed,
            review := Some(HumanReview(actor, now, Trim(rationale.value))),
            lease := None, updatedAt := now))
  }

  function JobCommand(s: State, j: Job, actor: string, c: Command, now: int, uuid: string): Result<Job, Rejection>
    requires !c.Queue?
  {
    match c
    case Claim(_) => ClaimJob(j, actor, now, uuid)
    case Process(_, token) => ProcessJob(s, j, actor, token, now)
    case Fail(_, token) => FailJob(j, actor, token, now)
    case Retry(_) => RetryJob(j, now)
    case Review(_, resolution, rationale) => ReviewJob(s, j, actor, resolution, rationale, now)
  }

  function Execute(s: State, actor: string, c: Command, now: int, uuid: string): Result<(State, bool), Rejection> {
    if c.Queue? then QueueReview(s, actor, c.workloadId, now, uuid)
    else if c.jobId.None? then Err(JobRequired)
    else
      match FindJob(s.jobs, c.jobId.value)
      case None => Err(JobNotFound)
      case Some(i) =>
        match JobCommand(s, s.jobs[i], actor, c, now, uuid)
        case Err(e) => Err(e)
        case Ok(j) => Ok((s.(jobs := s.jobs[i := j]), true))
  }

  // ------------------------------------------------------- the composite command

  const FRANK: string := "Frank Coster (simulated)"

  /** The identifiers one composite command may draw. */
  datatype Draws = Draws(job: string, token: string, claimAudit: string, processAudit: string)

  function ReviewWithFrank(s: State, actor: string, workloadId: Option<string>, now: int, ids: Draws)
    : Result<(State, bool), Rejection>
  {
    if workloadId.None? then Err(WorkloadRequired)
    else
      match ReviewBasis(s, workloadId.value)
      case None => Err(WorkloadNotFound)
      case Some(basis) =>
        match QueueReview(s, actor, workloadId, now, ids.job)
        case Err(e) => Err(e)
        case Ok((queued, changed)) =>
          match FindReview(queued.jobs, workloadId.value, basis)
          case None => Err(JobNotFound)
          case Some(i) =>
            if queued.jobs[i].status != Queued then Ok((queued, changed))
            else RunFrank(queued, queued.jobs[i].id, now, ids)
  }

  /** Claim and process, then record both in the audit trail. */
  function RunFrank(s: State, jobId: string, now: int, ids: Draws): Result<(State, bool), Rejection> {
    match Execute(s, FRANK, Claim(Some(jobId)), now, ids.token)
    case Err(e) => Err(e)
    case Ok((claimed, _)) =>
      match FindJob(claimed.jobs, jobId)
      case None => Err(JobNotFound)
      case Some(i) =>
        var token := if claimed.jobs[i].lease.Some? then Some(claimed.jobs[i].lease.value.token) else None;
        match Execute(claimed, FRANK, Process(Some(jobId), token), now, "")
        case Err(e) => Err(e)
        case Ok((done, _)) =>
          Ok((done.(audit := done.audit + [Audit(ids.claimAudit, now, FRANK, "claim-agent-job", jobId),
                                          Audit(ids.processAudit, now, FRANK, "process-agent-job", jobId)]), true))
  }
}
