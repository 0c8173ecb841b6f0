/** The relay's jobs as values: one function per critical section of the store's mutex. */
module RelayJobs {
  import opened Text
  import opened RelayKernel

  datatype JobState = AwaitingSignatures | Ready | Broadcasting | Submitted | Waiting | Retryable | ReapprovalRequired
      | FinalizedObserved

  /** Creation and update stamps are not kept: nothing reads them. */
  datatype Job = Job(
    outboxID: string, command: Command, state: JobState, prepared: Option<Prepared>, artifactHandle: string,
    authorizationKey: string, authorizationHash: string, outer: Option<Outer>, lastOutcome: Option<Evidence>,
        attempts: nat,
    leaseOwner: string, leaseToken: string, leaseExpiresAt: Time)

  datatype Queued = Queued(outboxID: string, command: Command, consumed: bool)

  datatype Authorization = Authorization(inputHash: string, workflowID: string)

  datatype Store = Store(commands: seq<Queued>, jobs: map<string, Job>, authorizations: map<string, Authorization>)

  datatype Lease = Lease(job: Job, token: string)

  datatype Error = NoWork | StateConflict | IdempotencyConflict | LeaseLost | NotFound | InvalidCommand

  datatype Result<+T> = Ok(value: T) | Err(error: Error)

  function NewJob(q: Queued): Job {
    Job(q.outboxID, q.command, AwaitingSignatures, None, "", "", "", None, None, 0, "", "", 0)
  }

  function Consume(s: Store, i: nat): Store
    requires i < |s.commands|
  {
    var q := s.commands[i];
    s.(commands := s.commands[i := q.(consumed := true)],
       jobs := if q.command.workflowID in s.jobs then s.jobs else s.jobs[q.command.workflowID := NewJob(q)])
  }

  function Scope(organizationID: string, key: string): string {
    organizationID + "\0" + key
  }

  /** `Ok((job, replayed))`. The record of a scope always names a stored job, so the lookup under it never misses. */
  function Authorize(s: Store, organizationID: string, workflowID: string, key: string, inputHash: string,
        p: Prepared, handle: string): (Store, Result<(Job, bool)>) {
    var scope := Scope(organizationID, key);
    if scope in s.authorizations then
      (s, if s.authorizations[scope] != Authorization(inputHash, workflowID) then Err(IdempotencyConflict)
          else if workflowID in s.jobs then Ok((s.jobs[workflowID], true)) else Err(NotFound))
    else if workflowID !in s.jobs || s.jobs[workflowID].command.organizationID != organizationID then (s, Err(NotFound))
    else if s.jobs[workflowID].state != AwaitingSignatures || p.workflowID != workflowID
        || p.organizationID != organizationID
            || !Identifier(handle) || !Hash(inputHash) then (s, Err(StateConflict))
    else
      var job := s.jobs[workflowID].(prepared := Some(p), artifactHandle := handle, authorizationKey := key,
          authorizationHash := inputHash, state := Ready);
      (s.(jobs := s.jobs[workflowID := job], authorizations :=
          s.authorizations[scope := Authorization(inputHash, workflowID)]),
       Ok((job, false)))
  }

  predicate Eligible(job: Job, relay: bool, now: Time) {
    && (if relay then job.state == Ready || job.state == Retryable || job.state == Broadcasting
        else job.state == Submitted || job.state == Waiting)
    && (job.leaseExpiresAt == 0 || job.leaseExpiresAt <= now)
  }

  function Leased(job: Job, worker: string, token: string, expiresAt: Time): Job {
    job.(leaseOwner := worker, leaseToken := token, leaseExpiresAt := expiresAt)
  }

  // ---------- Writes under a lease ----------

  predicate HoldsLease(s: Store, lease: Lease, now: Time) {
    var id := lease.job.command.workflowID;
    id in s.jobs && s.jobs[id].leaseToken == lease.token && now <= s.jobs[id].leaseExpiresAt
  }

  function WithLease(s: Store, lease: Lease, now: Time, change: Job -> Option<Job>): (Store, Result<Job>) {
    var id := lease.job.command.workflowID;
    if !HoldsLease(s, lease, now) then (s, Err(LeaseLost))
    else if change(s.jobs[id]).None? then (s, Err(StateConflict))
    else (s.(jobs := s.jobs[id := change(s.jobs[id]).value]), Ok(change(s.jobs[id]).value))
  }

  function WithOuter(job: Job, outer: Outer, now: Time): Option<Job> {
    if job.state == Broadcasting && job.outer == Some(outer) then Some(job)
    else if (job.state != Ready && job.state != Retryable) || job.prepared.None?
        || !ValidOuter(outer, job.prepared.value, now) then None
    else Some(job.(outer := Some(outer), state := Broadcasting))
  }

  function WithSubmission(job: Job, hash: string): Option<Job> {
    if job.outer.None? || job.outer.value.transactionHash != hash then None
    else if job.state == Submitted then Some(job)
    else if job.state != Broadcasting then None
    else Some(job.(state := Submitted, attempts := job.attempts + 1))
  }

  function StateAfter(d: Decision): JobState {
    match d case Wait => Waiting case RetryExact => Retryable case Reapprove(_) => ReapprovalRequired case Finalize =>
        FinalizedObserved
  }

  function WithDecision(job: Job, e: Option<Evidence>, d: Decision): Option<Job> {
    var refresh := job.state == Retryable && (d == RetryExact || d == Finalize);
    if job.state != Submitted && job.state != Waiting && !refresh && !d.Reapprove? then None
    else Some(job.(state := StateAfter(d), lastOutcome := if e.Some? && e.value.workflowID != "" then e
        else job.lastOutcome))
  }

  function RecordOuterPrepared(s: Store, lease: Lease, outer: Outer, now: Time): (Store, Result<Job>) {
    WithLease(s, lease, now, job => WithOuter(job, outer, now))
  }

  function RecordSubmitted(s: Store, lease: Lease, hash: string, now: Time): (Store, Result<Job>) {
    WithLease(s, lease, now, job => WithSubmission(job, hash))
  }

  function ApplyDecision(s: Store, lease: Lease, e: Option<Evidence>, d: Decision, now: Time): (Store, Result<Job>) {
    WithLease(s, lease, now, job => WithDecision(job, e, d))
  }

  function ReleaseLease(s: Store, lease: Lease): (Store, Result<Job>) {
    var id := lease.job.command.workflowID;
    if id !in s.jobs || s.jobs[id].leaseToken != lease.token then (s, Err(LeaseLost))
    else (s.(jobs := s.jobs[id := Leased(s.jobs[id], "", "", 0)]), Ok(Leased(s.jobs[id], "", "", 0)))
  }
}
