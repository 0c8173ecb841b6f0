/**
  Service.RelayOnce and Service.ObserveOnce in the source's own control flow. Each call is shown to be a
  run of the relay protocol, and the call's outcome is stated without reference to the protocol's steps.
 */
module RelayService {
  import opened Text
  import opened RelayKernel
  import opened RelayJobs
  import opened RelayRuns
  import opened RelaySafety

  /** Which outside parties answer during one call, and the hash the broadcaster reports. */
  datatype Links = Links(outcomes: bool, directory: bool, snapshots: bool, vault: bool, broadcaster: bool,
                         submissionRecorded: bool, failureRecorded: bool, reapprovalRecorded: bool,
                             broadcastHash: Option<string>)

  /** What one call meets: its successive clock readings, the answers and who is reachable. */
  datatype Weather = Weather(t0: Clock, t1: Clock, t2: Clock, t3: Clock, t4: Clock, t5: Clock, t6: Clock, input: Input,
        up: Links)

  predicate Ordered(x: Weather, clock: Clock) {
    x.t0 <= x.t1 <= x.t2 <= x.t3 <= x.t4 <= x.t5 <= x.t6 <= clock
  }

  /** The broadcaster accepts exactly the recorded transaction and the submission is written before the lease ends. */
  predicate Delivers(job: Job, outer: Outer, x: Weather) {
    x.up.broadcastHash == Some(outer.transactionHash) && x.up.submissionRecorded && x.t6 <= job.leaseExpiresAt
  }

  /** The checks between a claim and a broadcast pass, and the outer transaction is recorded before the lease ends. */
  predicate Passes(cfg: Setting, job: Job, x: Weather)
    requires job.prepared.Some?
  {
    var p, g := job.prepared.value, x.input.gate;
    && job.attempts < MAX_RELAY_ATTEMPTS
    && x.up.directory && x.up.snapshots && x.up.vault && x.up.broadcaster
    && GatePasses(cfg, job.command, p, g, x.t3) && VerifyPrepared(cfg.safe, job.command, p, g.calldata)
    && ValidOuter(x.input.outer, p, x.t4) && ValidOuter(x.input.outer, p, x.t5) && x.t5 <= job.leaseExpiresAt
  }

  /** What the fresh evidence says about the job's current outer transaction. */
  function Verdict(cfg: Setting, job: Job, x: Weather): Option<Decision>
    requires job.prepared.Some? && job.outer.Some?
  {
    if x.up.outcomes then DecideRetry(job.prepared.value, job.outer.value.transactionHash, x.input.evidence,
        cfg.quorum, x.t1) else None
  }

  /** A job in RETRYABLE_EXACT is resumed. */
  predicate Resumes(cfg: Setting, job: Job, x: Weather)
    requires job.prepared.Some? && job.outer.Some?
  {
    Verdict(cfg, job, x) == Some(RetryExact) && job.attempts < MAX_RELAY_ATTEMPTS && x.t2 <= job.leaseExpiresAt
  }

  /** A job in BROADCASTING is sent once more: its transaction is proven gone and the live Safe still fits. */
  predicate Resends(cfg: Setting, job: Job, x: Weather)
    requires job.prepared.Some? && job.outer.Some?
  {
    && Verdict(cfg, job, x) == Some(RetryExact) && job.attempts < MAX_RELAY_ATTEMPTS && x.up.directory && x.up.snapshots
    && GatePasses(cfg, job.command, job.prepared.value, x.input.gate, x.t3)
  }

  /** The evidence shows that the recorded transaction reached the network, and this is written down in time. */
  predicate Crosses(cfg: Setting, job: Job, x: Weather)
    requires job.prepared.Some? && job.outer.Some?
  {
    var d := Verdict(cfg, job, x);
    d.Some? && d != Some(RetryExact) && x.up.submissionRecorded && x.t2 <= job.leaseExpiresAt
  }

  predicate Shaped(job: Job) {
    job.prepared.Some? && (job.state != Ready ==> job.outer.Some?)
  }

  /** The call hands a transaction to the broadcaster. */
  predicate Sends(cfg: Setting, job: Job, x: Weather)
    requires Shaped(job)
  {
    if job.state == Broadcasting then Resends(cfg, job, x)
    else Passes(cfg, job, x) && (job.state == Retryable ==> Resumes(cfg, job, x))
  }

  /** The transaction it hands over: a recorded one is never replaced. */
  function Outbound(job: Job, x: Weather): Outer
    requires Shaped(job)
  {
    if job.state == Broadcasting then job.outer.value else x.input.outer
  }

  /** Why an authorized artifact must go back to its signers. */
  ghost predicate Stale(cfg: Setting, job: Job, x: Weather)
    requires Shaped(job)
  {
    var p, g := job.prepared.value, x.input.gate;
    || job.attempts >= MAX_RELAY_ATTEMPTS || g.directorySafe != p.transaction.safe
    || (exists reason ::
        ValidateRelaySnapshot(cfg.safe, job.command, p, g.snapshot, cfg.quorum, x.t3) == Some(Reapprove(reason)))
    || (job.outer.Some? && exists reason :: Verdict(cfg, job, x) == Some(Reapprove(reason)))
  }

  /** The call ends with a recorded submission. */
  predicate Submits(cfg: Setting, job: Job, x: Weather)
    requires Shaped(job)
  {
    || (Sends(cfg, job, x) && Delivers(job, Outbound(job, x), x))
    || (job.state == Broadcasting && Crosses(cfg, job, x) && Verdict(cfg, job, x) == Some(Wait))
  }

  /** What one relay cycle on the claimed `job` returns and hands to the broadcaster. */
  ghost predicate Concluded(cfg: Setting, job: Job, x: Weather, r: Option<Job>, sent: seq<(string, string)>,
        sent': seq<(string, string)>) {
    && Shaped(job)
    && ((r.Some? && r.value.state == Submitted) <==> Submits(cfg, job, x))
    && (r.Some? ==>
          match r.value.state
          case Submitted => r.value.outer == Some(Outbound(job, x)) && r.value.attempts == job.attempts + 1
          case ReapprovalRequired => Stale(cfg, job, x)
          case FinalizedObserved => job.outer.Some? && Verdict(cfg, job, x) == Some(Finalize)
          case _ => r.value == job && job.state == Retryable && job.outer.Some? && Verdict(cfg, job, x) == Some(Wait))
    && sent' == sent + if Sends(cfg, job, x) then [(job.command.workflowID, Outbound(job, x).transactionHash)] else []
  }

  /** The job as it leaves a delivered broadcast. */
  function Submission(job: Job, outer: Outer): Job {
    job.(state := Submitted, outer := Some(outer), attempts := job.attempts + 1)
  }

  function Observed(job: Job, x: Weather): Job {
    if x.input.evidence.workflowID != "" then job.(lastOutcome := Some(x.input.evidence)) else job
  }

  /** What one observation cycle makes of the claimed `job`; nothing when it cannot be written everywhere in time. */
  function ObservationOf(cfg: Setting, job: Job, x: Weather): Option<Job>
    requires job.prepared.Some? && job.outer.Some?
  {
    var d := Verdict(cfg, job, x);
    if d.None? || job.leaseExpiresAt < x.t2 || (d.value.Reapprove? && !x.up.reapprovalRecorded)
       || (d.value == RetryExact && !x.up.failureRecorded) then None
    else Some(Observed(job, x).(state := StateAfter(d.value)))
  }

  /** Only the job `id` differs. */
  ghost predicate OnlyJob(s: Store, s': Store, id: string) {
    && s'.commands == s.commands && s'.authorizations == s.authorizations && s'.jobs.Keys == s.jobs.Keys
    && forall other | other in s.jobs && other != id :: s'.jobs[other] == s.jobs[other]
  }

  ghost predicate Mirrors(sent: seq<(string, string)>, sendings: seq<Sending>) {
    && |sent| == |sendings|
    && forall i | 0 <= i < |sent| :: sent[i] == (sendings[i].workflowID, sendings[i].transactionHash)
  }

  predicate Stored(s: Store, id: string, job: Job) {
    id in s.jobs && s.jobs[id] == job
  }

  /** The operation `token` stands at `pc` with the stored job as its snapshot. */
  predicate Stands(w: World, s: Store, token: string, job: Job, pc: Pc, now: Time) {
    && token in w.ops && w.ops[token].job == job && w.ops[token].pc == pc && w.ops[token].read <= now <= w.clock
    && Stored(s, job.command.workflowID, job) && job.leaseToken == token && job.prepared.Some?
  }

  /** The operation may still release its lease. */
  predicate Owns(w: World, s: Store, token: string, id: string) {
    token in w.ops && w.ops[token].job.command.workflowID == id && id in s.jobs && s.jobs[id].leaseToken == token
  }

  /** Whatever it remembers besides, an operation at `pc` goes on to `pc'`. */
  ghost predicate Leads(cfg: Setting, job: Job, pc: Pc, x: Input, now: Time, pc': Pc) {
    forall op: Op | op.job == job && op.pc == pc :: Move(cfg, op, x, now).job == job && Move(cfg, op, x, now).pc == pc'
  }

  class Service {
    const cfg: Setting
    var store: Store
    var sent: seq<(string, string)>
    ghost const origin: Clock
    ghost var done: seq<Step>
    ghost var w: World

    /** A worker joins the system in any state it can be in. */
    constructor (cfg: Setting, store: Store, sent: seq<(string, string)>, ghost origin: Clock, ghost steps: seq<Step>)
      requires Run(cfg, origin, steps).store == store && Mirrors(sent, Run(cfg, origin, steps).sendings)
      ensures Valid() && this.cfg == cfg && this.store == store && this.sent == sent && done == steps
    {
      this.cfg, this.origin, this.store, this.sent, done, w := cfg, origin, store, sent, steps, Run(cfg, origin, steps);
    }

    /** The store and the broadcasts are those of a protocol run. */
    ghost predicate Valid()
      reads this
    {
      w == Run(cfg, origin, done) && w.store == store && Mirrors(sent, w.sendings)
    }

    ghost predicate At(token: string, job: Job, pc: Pc, now: Time)
      reads this
    {
      Valid() && Stands(w, store, token, job, pc, now)
    }

    ghost predicate Holds(token: string, id: string)
      reads this
    {
      Valid() && Owns(w, store, token, id)
    }

    ghost method Protocol(step: Step)
      requires w == Run(cfg, origin, done)
      modifies this`w, this`done
      ensures w == Next(cfg, old(w), step) && done == old(done) + [step] && w == Run(cfg, origin, done)
    {
      hide Next;
      w, done := Next(cfg, w, step), done + [step];
      assert done[..|done| - 1] == old(done);
    }

    /** A check that writes nothing. */
    ghost method Think(token: string, job: Job, pc: Pc, pc': Pc, x: Input, now: Clock)
      requires At(token, job, pc, now)
      requires Leads(cfg, job, pc, x, now, pc')
      modifies this`w, this`done
      ensures At(token, job, pc', now) && old(done) <= done && w.clock == old(w.clock)
    {
      hide Run, Move, Mirrors;
      assert Move(cfg, w.ops[token], x, now).pc == pc';
      Protocol(Local(token, x, now));
    }

    method Begin(id: string, token: string, worker: string, duration: int, relay: bool, now: Clock) returns (job: Job)
      requires Valid() && id in store.jobs && Eligible(store.jobs[id], relay, now)
      requires token != "" && token !in w.ops && now <= w.clock && SECOND <= duration <= MINUTE
      modifies this
      ensures job == Leased(old(store).jobs[id], worker, token, now + duration) && At(token, job, Begun(relay), now)
      ensures job.command.workflowID == id && (job.state != Ready ==> job.outer.Some?)
      ensures store == old(store).(jobs := old(store).jobs[id := job])
      ensures sent == old(sent) && w.clock == old(w.clock) && old(done) <= done
    {
      hide Run, Eligible, Mirrors;
      JobShape(cfg, origin, done, id, relay, now);
      job := store.jobs[id].(leaseOwner := worker, leaseToken := token, leaseExpiresAt := now + duration);
      store := store.(jobs := store.jobs[id := job]);
      Protocol(Claimed(id, token, worker, duration, relay, now));
    }

    /** Store.ApplyDecision. */
    method Decide(token: string, job: Job, cause: Option<Evidence>, d: Decision, resume: bool,
          now: Clock) returns (r: Option<Job>)
      requires At(token, job, Deciding(cause, d, resume), now)
      modifies this
      ensures r == if now <= job.leaseExpiresAt then WithDecision(job, cause, d) else None
      ensures r.Some? ==> At(token, r.value, if resume then Checking else Over, now)
      ensures Holds(token, job.command.workflowID) && OnlyJob(old(store), store, job.command.workflowID)
      ensures Stored(store, job.command.workflowID, if r.Some? then r.value else job)
      ensures sent == old(sent) && w.clock == old(w.clock) && old(done) <= done
    {
      hide Run, WithDecision, Mirrors;
      DecisionShape(job, cause, d);
      var (store', result) := ApplyDecision(store, Lease(job, token), cause, d, now);
      store := store';
      r := if result.Ok? then Some(result.value) else None;
      Protocol(Wrote(token, now));
    }

    /** requireReapproval: first the workflow, then the job. */
    method RequireReapproval(token: string, job: Job, cause: Option<Evidence>, reason: Reason, x: Weather,
          now: Clock) returns (r: Option<Job>)
      requires At(token, job, Deciding(cause, Reapprove(reason), false), now)
      modifies this
      ensures r.Some? <==> x.up.reapprovalRecorded && now <= job.leaseExpiresAt
      ensures r.Some? ==> r == WithDecision(job, cause, Reapprove(reason)) && r.value.state == ReapprovalRequired
      ensures Holds(token, job.command.workflowID) && OnlyJob(old(store), store, job.command.workflowID)
      ensures Stored(store, job.command.workflowID, if r.Some? then r.value else job)
      ensures sent == old(sent) && w.clock == old(w.clock) && old(done) <= done
    {
      hide Run, Mirrors;
      if !x.up.reapprovalRecorded { return None; }
      r := Decide(token, job, cause, Reapprove(reason), false, now);
    }

    /** broadcastPrepared. */
    method BroadcastPrepared(token: string, job: Job, x: Weather) returns (r: Option<Job>)
      requires At(token, job, Outgoing, x.t6) && job.outer.Some? && job.state == Broadcasting
      modifies this
      ensures r == if Delivers(job, job.outer.value, x) then Some(Submission(job, job.outer.value)) else None
      ensures Holds(token, job.command.workflowID) && OnlyJob(old(store), store, job.command.workflowID)
      ensures Stored(store, job.command.workflowID, if r.Some? then r.value else job)
      ensures sent == old(sent) + [(job.command.workflowID, job.outer.value.transactionHash)]
      ensures w.clock == old(w.clock) && old(done) <= done
    {
      hide Run;
      sent := sent + [(job.command.workflowID, job.outer.value.transactionHash)];
      Protocol(RelayRuns.Broadcast(token));
      if x.up.broadcastHash != Some(job.outer.value.transactionHash) { return None; }
      if !x.up.submissionRecorded { return None; }
      r := RecordSubmission(token, job, Sent, x.t6);
    }

    /** Store.RecordSubmitted. */
    method RecordSubmission(token: string, job: Job, pc: Pc, now: Clock) returns (r: Option<Job>)
      requires At(token, job, pc, now) && job.outer.Some? && job.state == Broadcasting && (pc.Sent? || pc.Crossed?)
      modifies this
      ensures r == if now <= job.leaseExpiresAt then Some(Submission(job, job.outer.value)) else None
      ensures r.Some? ==> At(token, r.value, if pc.Crossed? && (pc.decision.Reapprove? || pc.decision == Finalize)
                                             then Deciding(Some(pc.evidence), pc.decision, false) else Over, now)
      ensures Holds(token, job.command.workflowID) && OnlyJob(old(store), store, job.command.workflowID)
      ensures Stored(store, job.command.workflowID, if r.Some? then r.value else job)
      ensures sent == old(sent) && w.clock == old(w.clock) && old(done) <= done
    {
      hide Run, Mirrors;
      var (store', result) := RecordSubmitted(store, Lease(job, token), job.outer.value.transactionHash, now);
      store := store';
      r := if result.Ok? then Some(result.value) else None;
      Protocol(Wrote(token, now));
    }

    /** Store.RecordOuterPrepared. */
    method RecordOuter(token: string, job: Job, outer: Outer, now: Clock) returns (r: Option<Job>)
      requires At(token, job, Offered(outer), now) && (job.state == Ready || job.state == Retryable)
      modifies this
      ensures r == if now <= job.leaseExpiresAt && ValidOuter(outer, job.prepared.value, now)
                   then Some(job.(state := Broadcasting, outer := Some(outer))) else None
      ensures r.Some? ==> At(token, r.value, Outgoing, now)
      ensures Holds(token, job.command.workflowID) && OnlyJob(old(store), store, job.command.workflowID)
      ensures Stored(store, job.command.workflowID, if r.Some? then r.value else job)
      ensures sent == old(sent) && w.clock == old(w.clock) && old(done) <= done
    {
      hide Run, Mirrors, ValidOuter;
      var (store', result) := RecordOuterPrepared(store, Lease(job, token), outer, now);
      store := store';
      r := if result.Ok? then Some(result.value) else None;
      Protocol(Wrote(token, now));
    }

    /** The live Safe before any broadcast: another Safe, owner set, threshold or nonce sends the artifact back. */
    method CheckSafe(token: string, job: Job, pc: Pc, cause: Option<Evidence>, x: Weather) returns (passed: bool,
          r: Option<Job>)
      requires At(token, job, pc, x.t3) && Ordered(x, w.clock) && Shaped(job) && Rechecks(job, pc, cause)
      modifies this
      ensures passed <==> x.up.directory && x.up.snapshots && GatePasses(cfg, job.command, job.prepared.value,
          x.input.gate, x.t3)
      ensures passed ==> store == old(store) && At(token, job, pc, x.t3)
      ensures Holds(token, job.command.workflowID) && OnlyJob(old(store), store, job.command.workflowID)
      ensures Stored(store, job.command.workflowID, if r.Some? then r.value else job)
      ensures r.Some? ==> !passed && r.value.state == ReapprovalRequired && Stale(cfg, job, x)
      ensures sent == old(sent) && w.clock == old(w.clock) && old(done) <= done
    {
      hide Run, Mirrors, ValidateRelaySnapshot, WithDecision, Stands, Owns, OnlyJob, Leads, Verdict, Rechecks;
      Standing(w, store, token, job, pc, x.t3);
      var p, g := job.prepared.value, x.input.gate;
      if !x.up.directory { return false, None; }
      if g.directorySafe != p.transaction.safe {
        OtherSafe(cfg, job, pc, cause, x.input, x.t3);
        Think(token, job, pc, Deciding(cause, Reapprove(PreconditionChanged), false), x.input, x.t3);
        Standing(w, store, token, job, Deciding(cause, Reapprove(PreconditionChanged), false), x.t3);
        r := RequireReapproval(token, job, cause, PreconditionChanged, x, x.t4);
        return false, r;
      }
      if !x.up.snapshots { return false, None; }
      var v := ValidateRelaySnapshot(cfg.safe, job.command, p, g.snapshot, cfg.quorum, x.t3);
      GateDecides(cfg.safe, job.command, p, g.snapshot, cfg.quorum, x.t3);
      if v.None? { return false, None; }
      if v.value.Reapprove? {
        ChangedSafe(cfg, job, pc, cause, x.input, x.t3);
        Think(token, job, pc, Deciding(cause, v.value, false), x.input, x.t3);
        Standing(w, store, token, job, Deciding(cause, v.value, false), x.t3);
        r := RequireReapproval(token, job, cause, v.value.reason, x, x.t4);
        return false, r;
      }
      return true, None;
    }

    /** RelayOnce from the attempt limit on: check, prepare, record, broadcast. */
    method RelayChecked(token: string, job: Job, x: Weather) returns (r: Option<Job>)
      requires At(token, job, Checking, x.t3) && Ordered(x, w.clock)
          && (job.state == Ready || job.state == Retryable) && Shaped(job)
      modifies this
      ensures Holds(token, job.command.workflowID) && old(done) <= done
          && OnlyJob(old(store), store, job.command.workflowID)
      ensures r.Some? ==> Stored(store, job.command.workflowID, r.value)
      ensures r == Some(Submission(job, x.input.outer)) <==> Passes(cfg, job, x) && Delivers(job, x.input.outer, x)
      ensures r.Some? ==>
                || r.value == Submission(job, x.input.outer)
                || (r.value.state == ReapprovalRequired && Stale(cfg, job, x))
      ensures sent == old(sent) + if Passes(cfg, job, x)
          then [(job.command.workflowID, x.input.outer.transactionHash)] else []
    {
      hide Run, Mirrors, ValidOuter, VerifyPrepared, GatePasses, ValidateRelaySnapshot, WithDecision, Verdict;
      hide Stands, Owns, OnlyJob, Leads, Stored;
      Standing(w, store, token, job, Checking, x.t3);
      var p, g := job.prepared.value, x.input.gate;
      if job.attempts >= MAX_RELAY_ATTEMPTS {
        Exhausted(cfg, job, x.input, x.t3);
        Think(token, job, Checking, Deciding(None, Reapprove(ReceiptRejected), false), x.input, x.t3);
        Standing(w, store, token, job, Deciding(None, Reapprove(ReceiptRejected), false), x.t3);
        r := RequireReapproval(token, job, None, ReceiptRejected, x, x.t4);
        return;
      }
      var passed;
      passed, r := CheckSafe(token, job, Checking, None, x);
      if !passed { return; }
      if !x.up.vault || !VerifyPrepared(cfg.safe, job.command, p, g.calldata) { return None; }
      CheckClears(cfg, job, x.input, x.t3);
      Think(token, job, Checking, Cleared, x.input, x.t3);
      Standing(w, store, token, job, Cleared, x.t3);
      if !x.up.broadcaster || !ValidOuter(x.input.outer, p, x.t4) { return None; }
      OuterOffered(cfg, job, x.input, x.t4);
      Think(token, job, Cleared, Offered(x.input.outer), x.input, x.t4);
      Standing(w, store, token, job, Offered(x.input.outer), x.t4);
      r := RecordOuter(token, job, x.input.outer, x.t5);
      if r.None? { return None; }
      Standing(w, store, token, r.value, Outgoing, x.t5);
      ghost var between := store;
      r := BroadcastPrepared(token, r.value, x);
      OnlyJobTwice(old(store), between, store, job.command.workflowID);
    }

    /** recoverBroadcasting. */
    method RecoverBroadcasting(token: string, job: Job, x: Weather) returns (r: Option<Job>)
      requires At(token, job, Begun(true), x.t1) && Ordered(x, w.clock) && job.state == Broadcasting && Shaped(job)
      modifies this
      ensures Holds(token, job.command.workflowID) && old(done) <= done
          && OnlyJob(old(store), store, job.command.workflowID)
      ensures r.Some? ==> Stored(store, job.command.workflowID, r.value)
      ensures r == Some(Submission(job, job.outer.value)) <==>
              || (Resends(cfg, job, x) && Delivers(job, job.outer.value, x))
              || (Crosses(cfg, job, x) && Verdict(cfg, job, x) == Some(Wait))
      ensures r.Some? ==>
                || r.value == Submission(job, job.outer.value)
                || (r.value.state == ReapprovalRequired && Stale(cfg, job, x))
                || (r.value.state == FinalizedObserved && Verdict(cfg, job, x) == Some(Finalize))
      ensures sent == old(sent) + if Resends(cfg, job, x)
          then [(job.command.workflowID, job.outer.value.transactionHash)] else []
    {
      hide Run, Mirrors, GatePasses, ValidateRelaySnapshot, DecideRetry, WithDecision;
      hide Stands, Owns, OnlyJob, Leads, Stored;
      Standing(w, store, token, job, Begun(true), x.t1);
      var e := x.input.evidence;
      if !x.up.outcomes { return None; }
      var d := DecideRetry(job.prepared.value, job.outer.value.transactionHash, e, cfg.quorum, x.t1);
      if d.None? { return None; }
      if d.value != RetryExact {
        r := RecordCrossing(token, job, d.value, x);
        return;
      }
      if job.attempts >= MAX_RELAY_ATTEMPTS {
        RecoveryExhausted(cfg, job, x.input, x.t1);
        Think(token, job, Begun(true), Deciding(Some(e), Reapprove(ReceiptRejected), false), x.input, x.t1);
        Standing(w, store, token, job, Deciding(Some(e), Reapprove(ReceiptRejected), false), x.t1);
        r := RequireReapproval(token, job, Some(e), ReceiptRejected, x, x.t4);
        return;
      }
      Gone(cfg, job, x.input, x.t1);
      Think(token, job, Begun(true), Recovering(e), x.input, x.t1);
      Standing(w, store, token, job, Recovering(e), x.t1);
      var passed;
      passed, r := CheckSafe(token, job, Recovering(e), Some(e), x);
      if !passed { return; }
      SafeUnchanged(cfg, job, e, x.input, x.t3);
      Think(token, job, Recovering(e), Outgoing, x.input, x.t3);
      Standing(w, store, token, job, Outgoing, x.t3);
      r := BroadcastPrepared(token, job, x);
    }

    /** The tail of recoverBroadcasting: the recorded transaction crossed the external boundary. */
    method RecordCrossing(token: string, job: Job, d: Decision, x: Weather) returns (r: Option<Job>)
      requires At(token, job, Begun(true), x.t1) && Ordered(x, w.clock) && job.state == Broadcasting && Shaped(job)
      requires Verdict(cfg, job, x) == Some(d) && d != RetryExact
      modifies this
      ensures Holds(token, job.command.workflowID) && old(done) <= done
          && OnlyJob(old(store), store, job.command.workflowID)
      ensures r.Some? ==> Stored(store, job.command.workflowID, r.value)
      ensures r == Some(Submission(job, job.outer.value)) <==> Crosses(cfg, job, x) && d == Wait
      ensures r.Some? ==>
                || r.value == Submission(job, job.outer.value)
                || (r.value.state == ReapprovalRequired && Stale(cfg, job, x))
                || (r.value.state == FinalizedObserved && d == Finalize)
      ensures sent == old(sent)
    {
      hide Run, Mirrors, ValidateRelaySnapshot, DecideRetry;
      hide Stands, Owns, OnlyJob, Leads, Stored;
      var e := x.input.evidence;
      HasCrossed(cfg, job, x, d);
      Think(token, job, Begun(true), Crossed(e, d), x.input, x.t1);
      Standing(w, store, token, job, Crossed(e, d), x.t1);
      if !x.up.submissionRecorded { return None; }
      r := RecordSubmission(token, job, Crossed(e, d), x.t2);
      ghost var between := store;
      if r.None? { return; }
      if d.Reapprove? || d == Finalize { Standing(w, store, token, r.value, Deciding(Some(e), d, false), x.t2); }
      if d.Reapprove? {
        r := RequireReapproval(token, r.value, Some(e), d.reason, x, x.t4);
        OnlyJobTwice(old(store), between, store, job.command.workflowID);
      } else if d == Finalize {
        r := Decide(token, r.value, Some(e), Finalize, false, x.t4);
        OnlyJobTwice(old(store), between, store, job.command.workflowID);
      }
    }

    /** release, which every return path runs. */
    method Release(token: string, id: string)
      requires Holds(token, id)
      modifies this
      ensures Valid() && store == old(store).(jobs := old(store).jobs[id := Leased(old(store).jobs[id], "", "", 0)])
      ensures sent == old(sent) && w.clock == old(w.clock) && old(done) <= done
    {
      hide Run, Mirrors;
      store := store.(jobs := store.jobs[id :=
          store.jobs[id].(leaseOwner := "", leaseToken := "", leaseExpiresAt := 0)]);
      Protocol(Released(token));
    }

    /** RelayOnce on RETRYABLE_EXACT: the retry proof is taken anew before anything is prepared. */
    method RefreshRetry(token: string, job: Job, x: Weather) returns (resumed: bool, r: Option<Job>)
      requires At(token, job, Begun(true), x.t1) && Ordered(x, w.clock) && job.state == Retryable && Shaped(job)
      modifies this
      ensures resumed <==> Resumes(cfg, job, x)
      ensures resumed ==> r == Some(Observed(job, x)) && At(token, r.value, Checking, x.t2)
      ensures Holds(token, job.command.workflowID) && old(done) <= done
          && OnlyJob(old(store), store, job.command.workflowID)
      ensures r.Some? ==> Stored(store, job.command.workflowID, r.value)
      ensures !resumed && r.Some? ==>
                || (r.value == job && Verdict(cfg, job, x) == Some(Wait))
                || (r.value.state == ReapprovalRequired && Stale(cfg, job, x))
                || (r.value.state == FinalizedObserved && Verdict(cfg, job, x) == Some(Finalize))
      ensures sent == old(sent) && w.clock == old(w.clock)
    {
      hide Run, Mirrors, DecideRetry, ValidateRelaySnapshot;
      hide Stands, Owns, OnlyJob, Leads, Stored;
      Standing(w, store, token, job, Begun(true), x.t1);
      var e := x.input.evidence;
      if !x.up.outcomes { return false, None; }
      var d := DecideRetry(job.prepared.value, job.outer.value.transactionHash, e, cfg.quorum, x.t1);
      if d.None? { return false, None; }
      if d.value == Wait { return false, Some(job); }
      var next := if d.value == RetryExact && job.attempts >= MAX_RELAY_ATTEMPTS then Reapprove(ReceiptRejected)
          else d.value;
      Refreshes(cfg, job, x.input, x.t1, d.value);
      Think(token, job, Begun(true), Deciding(Some(e), next, next == RetryExact), x.input, x.t1);
      Standing(w, store, token, job, Deciding(Some(e), next, next == RetryExact), x.t1);
      if next.Reapprove? {
        r := RequireReapproval(token, job, Some(e), next.reason, x, x.t2);
        return false, r;
      }
      r := Decide(token, job, Some(e), next, next == RetryExact, x.t2);
      resumed := next == RetryExact && r.Some?;
    }

    method RelayRetryable(token: string, job: Job, x: Weather) returns (r: Option<Job>)
      requires At(token, job, Begun(true), x.t1) && Ordered(x, w.clock) && job.state == Retryable && Shaped(job)
      modifies this
      ensures Holds(token, job.command.workflowID) && old(done) <= done
          && OnlyJob(old(store), store, job.command.workflowID)
      ensures r.Some? ==> Stored(store, job.command.workflowID, r.value)
      ensures Concluded(cfg, job, x, r, old(sent), sent)
    {
      hide Run, Mirrors, Passes, Resumes, Crosses, Delivers, Verdict, Stale, Stands, Owns, OnlyJob, Leads, Stored;
      var resumed;
      resumed, r := RefreshRetry(token, job, x);
      if !resumed { return; }
      ghost var between := store;
      Standing(w, store, token, r.value, Checking, x.t2);
      ObservedSame(cfg, job, x);
      r := RelayChecked(token, r.value, x);
      OnlyJobTwice(old(store), between, store, job.command.workflowID);
    }

    /** One relay cycle. */
    method RelayOnce(id: string, token: string, worker: string, duration: int, x: Weather) returns (r: Option<Job>)
      requires Valid() && Ordered(x, w.clock) && token != "" && token !in w.ops && SECOND <= duration <= MINUTE
      modifies this
      ensures Valid() && old(done) <= done
      ensures !(id in old(store).jobs && Eligible(old(store).jobs[id], true, x.t0)) ==>
                r.None? && store == old(store) && sent == old(sent)
      ensures id in old(store).jobs && Eligible(old(store).jobs[id], true, x.t0) ==>
                && OnlyJob(old(store), store, id)
                && (r.Some? ==> Stored(store, id, Leased(r.value, "", "", 0)))
                && store.jobs[id] == Leased(store.jobs[id], "", "", 0)
                && Concluded(cfg, Leased(old(store).jobs[id], worker, token, x.t0 + duration), x, r, old(sent), sent)
    {
      hide Run, Mirrors, Passes, Resumes, Resends, Crosses, Delivers, Verdict, Stale, Concluded, Stands, Owns, OnlyJob,
          Eligible, Leads;
      if id !in store.jobs || !Eligible(store.jobs[id], true, x.t0) { return None; }
      var job := Begin(id, token, worker, duration, true, x.t0);
      ClaimedState(old(store).jobs[id], x.t0);
      Standing(w, store, token, job, Begun(true), x.t0);
      ghost var claimed := store;
      OnlyJobAfter(old(store), id, job);
      if job.state == Broadcasting {
        r := RecoverBroadcasting(token, job, x);
        Recovered(cfg, job, x, r, old(sent), sent);
      } else if job.state == Retryable {
        r := RelayRetryable(token, job, x);
      } else {
        Starts(cfg, job, x.input, x.t0);
        Think(token, job, Begun(true), Checking, x.input, x.t0);
        Standing(w, store, token, job, Checking, x.t0);
        r := RelayChecked(token, job, x);
        Relayed(cfg, job, x, r, old(sent), sent);
      }
      OnlyJobTwice(old(store), claimed, store, id);
      ghost var last := store;
      Release(token, id);
      OnlyJobAfter(last, id, store.jobs[id]);
      OnlyJobTwice(old(store), last, store, id);
    }

    /** One observation cycle: the stored state becomes what the evidence decides. */
    method ObserveOnce(id: string, token: string, worker: string, duration: int, x: Weather) returns (r: Option<Job>)
      requires Valid() && Ordered(x, w.clock) && token != "" && token !in w.ops && SECOND <= duration <= MINUTE
      modifies this
      ensures Valid() && old(done) <= done && sent == old(sent)
      ensures !(id in old(store).jobs && Eligible(old(store).jobs[id], false, x.t0)) ==> r.None? && store == old(store)
      ensures id in old(store).jobs && Eligible(old(store).jobs[id], false, x.t0) ==>
                var job := Leased(old(store).jobs[id], worker, token, x.t0 + duration);
                && OnlyJob(old(store), store, id) && Shaped(job) && job.outer.Some?
                && r == ObservationOf(cfg, job, x)
                && Stored(store, id, Leased(if r.Some? then r.value else old(store).jobs[id], "", "", 0))
    {
      hide Run, Mirrors, DecideRetry, Stands, Owns, OnlyJob, Eligible, Leads;
      if id !in store.jobs || !Eligible(store.jobs[id], false, x.t0) { return None; }
      var job := Begin(id, token, worker, duration, false, x.t0);
      ObservedState(old(store).jobs[id], x.t0);
      Standing(w, store, token, job, Begun(false), x.t0);
      ghost var claimed := store;
      OnlyJobAfter(old(store), id, job);
      r := Observe(token, job, x);
      OnlyJobTwice(old(store), claimed, store, id);
      ghost var last := store;
      Release(token, id);
      OnlyJobAfter(last, id, store.jobs[id]);
      OnlyJobTwice(old(store), last, store, id);
    }

    method Observe(token: string, job: Job, x: Weather) returns (r: Option<Job>)
      requires At(token, job, Begun(false), x.t1) && Ordered(x, w.clock) && Shaped(job) && job.outer.Some?
      requires job.state == Submitted || job.state == Waiting
      modifies this
      ensures r == ObservationOf(cfg, job, x)
      ensures Holds(token, job.command.workflowID) && old(done) <= done
          && OnlyJob(old(store), store, job.command.workflowID)
      ensures Stored(store, job.command.workflowID, if r.Some? then r.value else job) && sent == old(sent)
    {
      hide Run, Mirrors, DecideRetry, Stands, Owns, OnlyJob, Leads;
      Standing(w, store, token, job, Begun(false), x.t1);
      var e := x.input.evidence;
      if !x.up.outcomes { return None; }
      var d := DecideRetry(job.prepared.value, job.outer.value.transactionHash, e, cfg.quorum, x.t1);
      if d.None? { return None; }
      Observes(cfg, job, x.input, x.t1, d.value);
      Think(token, job, Begun(false), Deciding(Some(e), d.value, false), x.input, x.t1);
      Standing(w, store, token, job, Deciding(Some(e), d.value, false), x.t1);
      if d.value.Reapprove? {
        r := RequireReapproval(token, job, Some(e), d.value.reason, x, x.t2);
        return;
      }
      if d.value == RetryExact && !x.up.failureRecorded { return None; }
      r := Decide(token, job, Some(e), d.value, false, x.t2);
    }
  }

  lemma JobShape(cfg: Setting, clock: Clock, steps: seq<Step>, id: string, relay: bool, now: Time)
    requires var s := Run(cfg, clock, steps).store; id in s.jobs && Eligible(s.jobs[id], relay, now)
    ensures var job := Run(cfg, clock, steps).store.jobs[id];
            job.command.workflowID == id && job.prepared.Some? && (job.state != Ready ==> job.outer.Some?)
  {
    hide Run, OutcomeOk, HistoryOk;
    RunKeeps(cfg, clock, steps);
    var w := Run(cfg, clock, steps);
    assert JobOk(cfg, id, w.store.jobs[id], History(w, id));
  }

  lemma DecisionShape(job: Job, cause: Option<Evidence>, d: Decision)
    ensures var r := WithDecision(job, cause, d);
            r.Some? ==>
              && r.value.command == job.command && r.value.prepared == job.prepared
              && r.value.leaseToken == job.leaseToken
  {
  }

  // ---------- Where an operation goes next ----------

  /** The two places that check the live Safe. */
  predicate Rechecks(job: Job, pc: Pc, cause: Option<Evidence>) {
    || (pc == Checking && cause == None && job.attempts < MAX_RELAY_ATTEMPTS)
    || (cause.Some? && pc == Recovering(cause.value))
  }

  lemma OtherSafe(cfg: Setting, job: Job, pc: Pc, cause: Option<Evidence>, x: Input, now: Time)
    requires job.prepared.Some? && Rechecks(job, pc, cause)
        && x.gate.directorySafe != job.prepared.value.transaction.safe
    ensures Leads(cfg, job, pc, x, now, Deciding(cause, Reapprove(PreconditionChanged), false))
  {
    hide ValidateRelaySnapshot, VerifyPrepared;
  }

  lemma ChangedSafe(cfg: Setting, job: Job, pc: Pc, cause: Option<Evidence>, x: Input, now: Time)
    requires job.prepared.Some? && Rechecks(job, pc, cause)
        && x.gate.directorySafe == job.prepared.value.transaction.safe
    requires var v := ValidateRelaySnapshot(cfg.safe, job.command, job.prepared.value, x.gate.snapshot, cfg.quorum,
        now);
             v.Some? && v.value.Reapprove?
    ensures Leads(cfg, job, pc, x, now, Deciding(cause,
              ValidateRelaySnapshot(cfg.safe, job.command, job.prepared.value, x.gate.snapshot, cfg.quorum, now).value,
                  false))
  {
    hide ValidateRelaySnapshot, VerifyPrepared;
  }

  lemma Exhausted(cfg: Setting, job: Job, x: Input, now: Time)
    requires job.prepared.Some? && job.attempts >= MAX_RELAY_ATTEMPTS
    ensures Leads(cfg, job, Checking, x, now, Deciding(None, Reapprove(ReceiptRejected), false))
  {
    hide ValidateRelaySnapshot, VerifyPrepared;
  }

  lemma CheckClears(cfg: Setting, job: Job, x: Input, now: Time)
    requires job.prepared.Some? && job.attempts < MAX_RELAY_ATTEMPTS
    requires GatePasses(cfg, job.command, job.prepared.value, x.gate, now)
    requires VerifyPrepared(cfg.safe, job.command, job.prepared.value, x.gate.calldata)
    ensures Leads(cfg, job, Checking, x, now, Cleared)
  {
    hide ValidateRelaySnapshot, VerifyPrepared;
  }

  lemma OuterOffered(cfg: Setting, job: Job, x: Input, now: Time)
    requires job.prepared.Some? && ValidOuter(x.outer, job.prepared.value, now)
    ensures Leads(cfg, job, Cleared, x, now, Offered(x.outer))
  {
    hide ValidOuter;
  }

  lemma SafeUnchanged(cfg: Setting, job: Job, e: Evidence, x: Input, now: Time)
    requires job.prepared.Some? && GatePasses(cfg, job.command, job.prepared.value, x.gate, now)
    ensures Leads(cfg, job, Recovering(e), x, now, Outgoing)
  {
    hide ValidateRelaySnapshot;
  }

  lemma Gone(cfg: Setting, job: Job, x: Input, now: Time)
    requires job.state == Broadcasting && Shaped(job) && job.attempts < MAX_RELAY_ATTEMPTS
    requires DecideRetry(job.prepared.value, job.outer.value.transactionHash, x.evidence, cfg.quorum, now)
        == Some(RetryExact)
    ensures Leads(cfg, job, Begun(true), x, now, Recovering(x.evidence))
  {
    hide DecideRetry;
  }

  lemma RecoveryExhausted(cfg: Setting, job: Job, x: Input, now: Time)
    requires job.state == Broadcasting && Shaped(job) && job.attempts >= MAX_RELAY_ATTEMPTS
    requires DecideRetry(job.prepared.value, job.outer.value.transactionHash, x.evidence, cfg.quorum, now)
        == Some(RetryExact)
    ensures Leads(cfg, job, Begun(true), x, now, Deciding(Some(x.evidence), Reapprove(ReceiptRejected), false))
  {
    hide DecideRetry;
  }

  lemma HasCrossed(cfg: Setting, job: Job, x: Weather, d: Decision)
    requires job.state == Broadcasting && Shaped(job) && Verdict(cfg, job, x) == Some(d) && d != RetryExact
    ensures Leads(cfg, job, Begun(true), x.input, x.t1, Crossed(x.input.evidence, d))
  {
    hide DecideRetry;
  }

  lemma Starts(cfg: Setting, job: Job, x: Input, now: Time)
    requires job.prepared.Some? && job.state == Ready
    ensures Leads(cfg, job, Begun(true), x, now, Checking)
  {
  }

  lemma Refreshes(cfg: Setting, job: Job, x: Input, now: Time, d: Decision)
    requires job.state == Retryable && Shaped(job) && d != Wait
    requires DecideRetry(job.prepared.value, job.outer.value.transactionHash, x.evidence, cfg.quorum, now) == Some(d)
    ensures var next := if d == RetryExact && job.attempts >= MAX_RELAY_ATTEMPTS then Reapprove(ReceiptRejected) else d;
            Leads(cfg, job, Begun(true), x, now, Deciding(Some(x.evidence), next, next == RetryExact))
  {
    hide DecideRetry;
  }

  lemma Observes(cfg: Setting, job: Job, x: Input, now: Time, d: Decision)
    requires Shaped(job) && job.outer.Some?
    requires DecideRetry(job.prepared.value, job.outer.value.transactionHash, x.evidence, cfg.quorum, now) == Some(d)
    ensures Leads(cfg, job, Begun(false), x, now, Deciding(Some(x.evidence), d, false))
  {
    hide DecideRetry;
  }

  // ---------- Outcomes ----------

  lemma ObservedState(job: Job, now: Time)
    requires Eligible(job, false, now)
    ensures job.state == Submitted || job.state == Waiting
  {
  }

  lemma ClaimedState(job: Job, now: Time)
    requires Eligible(job, true, now)
    ensures job.state == Ready || job.state == Retryable || job.state == Broadcasting
  {
  }

  /** The refreshed evidence changes nothing the later checks look at. */
  lemma ObservedSame(cfg: Setting, job: Job, x: Weather)
    requires Shaped(job)
    ensures var seen := Observed(job, x);
            && Shaped(seen) && seen.command == job.command && seen.state == job.state && seen.attempts == job.attempts
            && Passes(cfg, seen, x) == Passes(cfg, job, x) && Stale(cfg, seen, x) == Stale(cfg, job, x)
            && Delivers(seen, x.input.outer, x) == Delivers(job, x.input.outer, x)
  {
    hide GatePasses, VerifyPrepared, ValidOuter, ValidateRelaySnapshot, DecideRetry;
  }

  lemma Relayed(cfg: Setting, job: Job, x: Weather, r: Option<Job>, sent: seq<(string, string)>,
        sent': seq<(string, string)>)
    requires Shaped(job) && job.state == Ready
    requires r == Some(Submission(job, x.input.outer)) <==> Passes(cfg, job, x) && Delivers(job, x.input.outer, x)
    requires r.Some? ==>
        r.value == Submission(job, x.input.outer) || (r.value.state == ReapprovalRequired && Stale(cfg, job, x))
    requires sent' == sent + if Passes(cfg, job, x)
        then [(job.command.workflowID, x.input.outer.transactionHash)] else []
    ensures Concluded(cfg, job, x, r, sent, sent')
  {
    hide Passes, Delivers, Stale, Verdict;
  }

  lemma Recovered(cfg: Setting, job: Job, x: Weather, r: Option<Job>, sent: seq<(string, string)>,
        sent': seq<(string, string)>)
    requires Shaped(job) && job.state == Broadcasting
    requires r == Some(Submission(job, job.outer.value)) <==>
             || (Resends(cfg, job, x) && Delivers(job, job.outer.value, x))
             || (Crosses(cfg, job, x) && Verdict(cfg, job, x) == Some(Wait))
    requires r.Some? ==>
               || r.value == Submission(job, job.outer.value)
               || (r.value.state == ReapprovalRequired && Stale(cfg, job, x))
               || (r.value.state == FinalizedObserved && Verdict(cfg, job, x) == Some(Finalize))
    requires sent' == sent + if Resends(cfg, job, x)
        then [(job.command.workflowID, job.outer.value.transactionHash)] else []
    ensures Concluded(cfg, job, x, r, sent, sent')
  {
    hide Resends, Crosses, Delivers, Stale, Verdict;
  }

  // ---------- Frames ----------

  lemma Standing(w: World, s: Store, token: string, job: Job, pc: Pc, now: Time)
    requires Stands(w, s, token, job, pc, now)
    ensures Owns(w, s, token, job.command.workflowID) && Stored(s, job.command.workflowID, job)
    ensures OnlyJob(s, s, job.command.workflowID) && job.prepared.Some? && now <= w.clock
    ensures forall later | now <= later <= w.clock :: Stands(w, s, token, job, pc, later)
  {
  }

  lemma OnlyJobAfter(s: Store, id: string, job: Job)
    requires id in s.jobs
    ensures OnlyJob(s, s.(jobs := s.jobs[id := job]), id)
  {
  }

  lemma OnlyJobTwice(s: Store, t: Store, u: Store, id: string)
    requires OnlyJob(s, t, id) && OnlyJob(t, u, id)
    ensures OnlyJob(s, u, id)
  {
  }
}
