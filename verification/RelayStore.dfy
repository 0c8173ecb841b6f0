/** The job store itself: its methods change the maps in place and are proved to be the functions of RelayJobs. */
module RelayStore {
  import opened Text
  import opened Ordering
  import opened RelayKernel
  import opened RelayJobs

  class MemoryStore {
    var commands: seq<Queued>
    var jobs: map<string, Job>
    var authorizations: map<string, Authorization>

    function Value(): Store
      reads this
    {
      Store(commands, jobs, authorizations)
    }

    constructor ()
      ensures Value() == Store([], map[], map[])
    {
      commands, jobs, authorizations := [], map[], map[];
    }

    /** The first command not consumed yet is turned into its job, exactly once. */
    method ConsumeCommand() returns (r: Result<(Job, bool)>)
      modifies this
      ensures r.Err? <==> forall q | q in old(commands) :: q.consumed
      ensures r.Err? ==> Value() == old(Value()) && r.error == NoWork
      ensures r.Ok? ==> exists i ::
                && 0 <= i < |old(commands)| && !old(commands)[i].consumed
                    && (forall j | 0 <= j < i :: old(commands)[j].consumed)
                && Value() == Consume(old(Value()), i)
                && r.value.1 == (old(commands)[i].command.workflowID in old(jobs))
                    && r.value.0 == jobs[old(commands)[i].command.workflowID]
    {
      for index := 0 to |commands|
        invariant Value() == old(Value()) && forall j | 0 <= j < index :: commands[j].consumed
      {
        var q := commands[index];
        if !q.consumed {
          var existing := q.command.workflowID in jobs;
          if !existing { jobs := jobs[q.command.workflowID := NewJob(q)]; }
          commands := commands[index := q.(consumed := true)];
          assert old(commands)[index] in old(commands);
          return Ok((jobs[q.command.workflowID], existing));
        }
      }
      return Err(NoWork);
    }

    method Get(organizationID: string, workflowID: string) returns (r: Result<Job>)
      ensures r.Ok? <==> workflowID in jobs && jobs[workflowID].command.organizationID == organizationID
      ensures r.Ok? ==> r.value == jobs[workflowID]
    {
      if workflowID !in jobs || jobs[workflowID].command.organizationID != organizationID { return Err(NotFound); }
      return Ok(jobs[workflowID]);
    }

    method Authorize(organizationID: string, workflowID: string, key: string, inputHash: string, p: Prepared,
          handle: string) returns (r: Result<(Job, bool)>)
      modifies this
      ensures (Value(), r) == RelayJobs.Authorize(old(Value()), organizationID, workflowID, key, inputHash, p, handle)
    {
      hide Hash, Identifier;
      var scope := Scope(organizationID, key);
      if scope in authorizations {
        var record := authorizations[scope];
        if record.workflowID != workflowID || record.inputHash != inputHash { return Err(IdempotencyConflict); }
        if workflowID !in jobs { return Err(NotFound); }
        return Ok((jobs[workflowID], true));
      }
      if workflowID !in jobs || jobs[workflowID].command.organizationID != organizationID { return Err(NotFound); }
      var job := jobs[workflowID];
      if job.state != AwaitingSignatures || p.workflowID != workflowID || p.organizationID != organizationID
          || !Identifier(handle) || !Hash(inputHash) {
        return Err(StateConflict);
      }
      job := job.(prepared := Some(p), artifactHandle := handle);
      job := job.(authorizationKey := key, authorizationHash := inputHash);
      job := job.(state := Ready);
      jobs := jobs[workflowID := job];
      authorizations := authorizations[scope := Authorization(inputHash, workflowID)];
      return Ok((job, false));
    }

    /** The workflow IDs in string order. */
    method SortedIDs() returns (ids: seq<string>)
      ensures Ascending(StringLess, ids) && forall id :: id in ids <==> id in jobs
    {
      var left := jobs.Keys;
      ids := [];
      while left != {}
        invariant left <= jobs.Keys && NoDuplicates(ids) && forall id :: id in ids <==> id in jobs.Keys - left
        decreases |left|
      {
        var id :| id in left;
        left := left - {id};
        assert id !in ids;
        ids := ids + [id];
      }
      var sorted := Sort(StringLess, ids);
      SortPermutes(StringLess, ids);
      StringLessIsTotal();
      SortSorts(StringLess, ids);
      DuplicatesSurvivePermutation(ids, sorted);
      NeighboursShowDuplicates(StringLess, sorted);
      forall id ensures id in sorted <==> id in ids { assert id in multiset(sorted) <==> id in multiset(ids); }
      ids := sorted;
    }

    /** The two queues of the relayer: work to broadcast and outcomes to observe, each while unleased. */
    static method Free(job: Job, relay: bool, now: Clock) returns (ok: bool)
      ensures ok == Eligible(job, relay, now)
    {
      var queued := (relay && (job.state == Ready || job.state == Retryable || job.state == Broadcasting))
                    || (!relay && (job.state == Submitted || job.state == Waiting));
      return queued && !(job.leaseExpiresAt != 0 && now < job.leaseExpiresAt);
    }

    /** Leases the least eligible job; without one nothing changes. */
    method Claim(worker: string, token: string, duration: int, relay: bool, now: Clock) returns (r: Result<Lease>)
      modifies this`jobs
      ensures r.Ok? <==> Identifier(worker) && SECOND <= duration <= MINUTE && exists id ::
          id in old(jobs) && Eligible(old(jobs)[id], relay, now)
      ensures r.Err? ==> jobs == old(jobs)
      ensures r.Ok? ==> exists id ::
                && id in old(jobs) && Eligible(old(jobs)[id], relay, now)
                && r.value == Lease(Leased(old(jobs)[id], worker, token, now + duration), token)
                && jobs == old(jobs)[id := r.value.job]
                && forall other | other in old(jobs) && Eligible(old(jobs)[other], relay, now) :: other == id
                    || StringLess(id, other)
    {
      hide Identifier, StringLess, Eligible;
      if !Identifier(worker) || duration < SECOND || duration > MINUTE { return Err(InvalidCommand); }
      var ids := SortedIDs();
      for k := 0 to |ids|
        invariant jobs == old(jobs) && forall j | 0 <= j < k :: !Eligible(jobs[ids[j]], relay, now)
      {
        assert ids[k] in jobs;
        var job := jobs[ids[k]];
        var free := Free(job, relay, now);
        if !free { continue; }
        job := job.(leaseOwner := worker, leaseToken := token, leaseExpiresAt := now + duration);
        jobs := jobs[ids[k] := job];
        return Ok(Lease(job, token));
      }
      return Err(NoWork);
    }

    method RecordOuterPrepared(lease: Lease, outer: Outer, now: Clock) returns (r: Result<Job>)
      modifies this`jobs
      ensures (Value(), r) == RelayJobs.RecordOuterPrepared(old(Value()), lease, outer, now)
    {
      hide ValidOuter;
      var id := lease.job.command.workflowID;
      if id !in jobs || jobs[id].leaseToken != lease.token || jobs[id].leaseExpiresAt < now { return Err(LeaseLost); }
      var job := jobs[id];
      if job.state != Broadcasting || job.outer != Some(outer) {
        if (job.state != Ready && job.state != Retryable) || job.prepared.None?
            || !ValidOuter(outer, job.prepared.value, now) { return Err(StateConflict); }
        job := job.(outer := Some(outer));
        job := job.(state := Broadcasting);
      }
      jobs := jobs[id := job];
      return Ok(job);
    }

    method RecordSubmitted(lease: Lease, hash: string, now: Clock) returns (r: Result<Job>)
      modifies this`jobs
      ensures (Value(), r) == RelayJobs.RecordSubmitted(old(Value()), lease, hash, now)
    {
      var id := lease.job.command.workflowID;
      if id !in jobs || jobs[id].leaseToken != lease.token || jobs[id].leaseExpiresAt < now { return Err(LeaseLost); }
      var job := jobs[id];
      var same := job.outer.Some? && job.outer.value.transactionHash == hash;
      if job.state != Submitted || !same {
        if job.state != Broadcasting || !same { return Err(StateConflict); }
        job := job.(state := Submitted, attempts := job.attempts + 1);
      }
      jobs := jobs[id := job];
      return Ok(job);
    }

    method ApplyDecision(lease: Lease, e: Option<Evidence>, d: Decision, now: Clock) returns (r: Result<Job>)
      modifies this`jobs
      ensures (Value(), r) == RelayJobs.ApplyDecision(old(Value()), lease, e, d, now)
    {
      var id := lease.job.command.workflowID;
      if id !in jobs || jobs[id].leaseToken != lease.token || jobs[id].leaseExpiresAt < now { return Err(LeaseLost); }
      var job := jobs[id];
      var refresh := job.state == Retryable && (d == RetryExact || d == Finalize);
      if job.state != Submitted && job.state != Waiting && !refresh && !d.Reapprove? { return Err(StateConflict); }
      match d {
        case Wait => job := job.(state := Waiting);
        case RetryExact => job := job.(state := Retryable);
        case Reapprove(_) => job := job.(state := ReapprovalRequired);
        case Finalize => job := job.(state := FinalizedObserved);
      }
      if e.Some? && e.value.workflowID != "" { job := job.(lastOutcome := e); }
      jobs := jobs[id := job];
      return Ok(job);
    }

    method ReleaseLease(lease: Lease) returns (r: Result<Job>)
      modifies this`jobs
      ensures (Value(), r) == RelayJobs.ReleaseLease(old(Value()), lease)
    {
      var id := lease.job.command.workflowID;
      if id !in jobs || jobs[id].leaseToken != lease.token { return Err(LeaseLost); }
      jobs := jobs[id := jobs[id].(leaseOwner := "", leaseToken := "", leaseExpiresAt := 0)];
      return Ok(jobs[id]);
    }
  }
}
