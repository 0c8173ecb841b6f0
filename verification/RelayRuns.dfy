/**
  Relay workers. One operation is one call of RelayOnce or ObserveOnce; it owns the token its claim
  created and a snapshot of the job. Operations of any number of workers interleave, stop anywhere
  (a crash is an operation that takes no further step) and meet arbitrary chain evidence.
 */
module RelayRuns {
  import opened Text
  import opened RelayKernel
  import opened RelayJobs

  const MAX_RELAY_ATTEMPTS: int := 10

  datatype Setting = Setting(safe: Safe, quorum: int)

  /** What the Safe directory, the snapshot source and the vault answer before a broadcast. */
  datatype Gate = Gate(directorySafe: string, snapshot: Snapshot, calldata: Bytes)

  datatype Input = Input(evidence: Evidence, gate: Gate, outer: Outer)

  datatype Pc =
    | Begun(relay: bool)
    | Checking                                             // live Safe checks next
    | Cleared                                              // may ask for an outer transaction
    | Offered(outer: Outer)                                // outer prepared, not recorded
    | Outgoing                                             // broadcast next
    | Sent                                                 // broadcast done, submission not recorded
    | Recovering(evidence: Evidence)                       // recovery: transaction gone, live Safe checks next
    | Crossed(evidence: Evidence, decision: Decision)      // recovery: record the submission, then decide
    | Deciding(cause: Option<Evidence>, decision: Decision, resume: bool)
    | Over

  /**
    `proof` is the retry evidence this operation accepted, `gate` the live Safe answers that cleared it, each with
    its time. `start` and `read` are the first and last clock readings.
   */
  datatype Op = Op(job: Job, pc: Pc, start: Time, read: Time, proof: Option<(Evidence, Time)>,
        gate: Option<(Gate, Time)>)

  /** One outer transaction as it was durably prepared. */
  datatype Recorded = Recorded(outer: Outer, proof: Option<(Evidence, Time)>, gate: Option<(Gate, Time)>, at: Time)

  datatype Sending = Sending(workflowID: string, transactionHash: string, gate: Option<(Gate, Time)>)

  datatype World = World(store: Store, clock: Clock, ops: map<string, Op>, outers: map<string, seq<Recorded>>,
        sendings: seq<Sending>)

  datatype Step =
    | Tick(to: Clock)
    | Enqueued(outboxID: string, command: Command)
    | Consumed(i: nat)
    | Authorized(organizationID: string, workflowID: string, key: string, inputHash: string, handle: string,
                 safeAddress: string, snapshot: Snapshot, signatures: Bytes, now: Clock)
    | Claimed(id: string, token: string, worker: string, duration: int, relay: bool, now: Clock)
    | Local(token: string, input: Input, now: Clock)
    | Wrote(token: string, now: Clock)
    | Broadcast(token: string)
    | Released(token: string)

  function History(w: World, id: string): seq<Recorded> {
    if id in w.outers then w.outers[id] else []
  }

  // ---------- Steps inside one operation ----------

  /**
    RelayOnce on RETRYABLE_EXACT: re-observe, and resume only on fresh proof that the previous outer
    transaction is gone.
   */
  function Refresh(cfg: Setting, op: Op, e: Evidence, now: Time): Op
    requires op.job.prepared.Some? && op.job.outer.Some?
  {
    var d := DecideRetry(op.job.prepared.value, op.job.outer.value.transactionHash, e, cfg.quorum, now);
    if d.None? || d == Some(Wait) then op.(pc := Over)
    else if d != Some(RetryExact) then op.(pc := Deciding(Some(e), d.value, false))
    else if op.job.attempts >= MAX_RELAY_ATTEMPTS then op.(pc := Deciding(Some(e), Reapprove(ReceiptRejected), false))
    else op.(pc := Deciding(Some(e), RetryExact, true), proof := Some((e, now)))
  }

  /** recoverBroadcasting, up to what the evidence says about the recorded outer transaction. */
  function Reconcile(cfg: Setting, op: Op, e: Evidence, now: Time): Op
    requires op.job.prepared.Some? && op.job.outer.Some?
  {
    var d := DecideRetry(op.job.prepared.value, op.job.outer.value.transactionHash, e, cfg.quorum, now);
    if d.None? then op.(pc := Over)
    else if d != Some(RetryExact) then op.(pc := Crossed(e, d.value))
    else if op.job.attempts >= MAX_RELAY_ATTEMPTS then op.(pc := Deciding(Some(e), Reapprove(ReceiptRejected), false))
    else op.(pc := Recovering(e))
  }

  /** recoverBroadcasting, before the recorded outer transaction is sent once more. */
  function Recheck(cfg: Setting, op: Op, e: Evidence, g: Gate, now: Time): Op
    requires op.job.prepared.Some?
  {
    var p := op.job.prepared.value;
    if g.directorySafe != p.transaction.safe then op.(pc := Deciding(Some(e), Reapprove(PreconditionChanged), false))
    else
      var v := ValidateRelaySnapshot(cfg.safe, op.job.command, p, g.snapshot, cfg.quorum, now);
      if v.None? then op.(pc := Over)
      else if v.value.Reapprove? then op.(pc := Deciding(Some(e), v.value, false))
      else op.(pc := Outgoing, gate := Some((g, now)))
  }

  /** The checks between a claim (or a refreshed retry) and broadcaster.Prepare. */
  function Check(cfg: Setting, op: Op, g: Gate, now: Time): Op
    requires op.job.prepared.Some?
  {
    var p := op.job.prepared.value;
    if op.job.attempts >= MAX_RELAY_ATTEMPTS then op.(pc := Deciding(None, Reapprove(ReceiptRejected), false))
    else if g.directorySafe != p.transaction.safe then op.(pc := Deciding(None, Reapprove(PreconditionChanged), false))
    else
      var v := ValidateRelaySnapshot(cfg.safe, op.job.command, p, g.snapshot, cfg.quorum, now);
      if v.None? then op.(pc := Over)
      else if v.value.Reapprove? then op.(pc := Deciding(None, v.value, false))
      else if !VerifyPrepared(cfg.safe, op.job.command, p, g.calldata) then op.(pc := Over)
      else op.(pc := Cleared, gate := Some((g, now)))
  }

  function Observe(cfg: Setting, op: Op, e: Evidence, now: Time): Op
    requires op.job.prepared.Some? && op.job.outer.Some?
  {
    var d := DecideRetry(op.job.prepared.value, op.job.outer.value.transactionHash, e, cfg.quorum, now);
    if d.None? then op.(pc := Over) else op.(pc := Deciding(Some(e), d.value, false))
  }

  function Move(cfg: Setting, op: Op, x: Input, now: Time): Op {
    var job := op.job;
    if job.prepared.None? then op
    else
      match op.pc
      case Begun(relay) =>
        if relay && job.state == Ready then op.(pc := Checking)
        else if job.outer.None? then op
        else if !relay then Observe(cfg, op, x.evidence, now)
        else if job.state == Retryable then Refresh(cfg, op, x.evidence, now)
        else if job.state == Broadcasting then Reconcile(cfg, op, x.evidence, now)
        else op
      case Checking => Check(cfg, op, x.gate, now)
      case Recovering(e) => Recheck(cfg, op, e, x.gate, now)
      case Cleared => if ValidOuter(x.outer, job.prepared.value, now) then op.(pc := Offered(x.outer))
          else op.(pc := Over)
      case _ => op
  }

  // ---------- Writes ----------

  function After(op: Op, r: Result<Job>, pc: Pc): Op {
    if r.Ok? then op.(job := r.value, pc := pc) else op.(pc := Over)
  }

  function Put(w: World, token: string, store: Store, op: Op): World {
    w.(store := store, ops := w.ops[token := op])
  }

  function Write(w: World, token: string, op: Op, now: Time): World {
    var lease := Lease(op.job, token);
    match op.pc
    case Offered(outer) =>
      var (store, r) := RecordOuterPrepared(w.store, lease, outer, now);
      var id := op.job.command.workflowID;
      if r.Err? then Put(w, token, store, op.(pc := Over))
      else if w.store.jobs[id].state == Broadcasting then Put(w, token, store, After(op, r, Outgoing))
      else Put(w, token, store, After(op, r, Outgoing)).(
             outers := w.outers[id := History(w, id) + [Recorded(outer, op.proof, op.gate, now)]])
    case Sent =>
      if op.job.outer.None? then w
      else var (store, r) := RecordSubmitted(w.store, lease, op.job.outer.value.transactionHash, now);
           Put(w, token, store, After(op, r, Over))
    case Crossed(e, d) =>
      if op.job.outer.None? then w
      else var (store, r) := RecordSubmitted(w.store, lease, op.job.outer.value.transactionHash, now);
           Put(w, token, store, After(op, r, if d.Reapprove? || d == Finalize then Deciding(Some(e), d, false)
               else Over))
    case Deciding(cause, d, resume) =>
      var (store, r) := ApplyDecision(w.store, lease, cause, d, now);
      Put(w, token, store, After(op, r, if resume then Checking else Over))
    case _ => w
  }

  // ---------- The whole system ----------

  predicate Reads(w: World, op: Op, now: Time) {
    op.read <= now <= w.clock
  }

  function StoreStep(cfg: Setting, w: World, step: Step): World {
    match step
    case Tick(to) => if w.clock <= to then w.(clock := to) else w
    case Enqueued(outboxID, command) =>
      if command.workflowID == "" || exists q | q in w.store.commands ::
          q.outboxID == outboxID || q.command.workflowID == command.workflowID then w
      else w.(store := w.store.(commands := w.store.commands + [Queued(outboxID, command, false)]))
    case Consumed(i) => if i < |w.store.commands| && !w.store.commands[i].consumed
        then w.(store := Consume(w.store, i)) else w
    case Authorized(org, id, key, inputHash, handle, safeAddress, snapshot, signatures, now) =>
      if id !in w.store.jobs then w
      else
        var p := Prepare(cfg.safe, w.store.jobs[id].command, safeAddress, snapshot, signatures, cfg.quorum, now);
        if p.None? then w else w.(store := Authorize(w.store, org, id, key, inputHash, p.value.0, handle).0)
    case _ => w
  }

  function OpStep(cfg: Setting, w: World, step: Step): World {
    match step
    case Claimed(id, token, worker, duration, relay, now) =>
      if id !in w.store.jobs || token in w.ops || token == "" || now > w.clock || !(SECOND <= duration <= MINUTE)
         || !Eligible(w.store.jobs[id], relay, now) then w
      else
        var job := Leased(w.store.jobs[id], worker, token, now + duration);
        Put(w, token, w.store.(jobs := w.store.jobs[id := job]), Op(job, Begun(relay), now, now, None, None))
    case Local(token, x, now) =>
      if token !in w.ops || !Reads(w, w.ops[token], now) then w
      else Put(w, token, w.store, Move(cfg, w.ops[token], x, now).(read := now))
    case Wrote(token, now) =>
      if token !in w.ops || !Reads(w, w.ops[token], now) then w else Write(w, token, w.ops[token].(read := now), now)
    case Broadcast(token) =>
      if token !in w.ops || !w.ops[token].pc.Outgoing? || w.ops[token].job.outer.None? then w
      else
        var op := w.ops[token];
        Put(w, token, w.store, op.(pc := Sent)).(sendings := w.sendings + [Sending(op.job.command.workflowID,
            op.job.outer.value.transactionHash, op.gate)])
    case Released(token) =>
      if token !in w.ops then w else Put(w, token, ReleaseLease(w.store, Lease(w.ops[token].job, token)).0,
          w.ops[token].(pc := Over))
    case _ => w
  }

  function Next(cfg: Setting, w: World, step: Step): World {
    if step.Tick? || step.Enqueued? || step.Consumed? || step.Authorized? then StoreStep(cfg, w, step)
        else OpStep(cfg, w, step)
  }

  function Initial(clock: Clock): World {
    World(Store([], map[], map[]), clock, map[], map[], [])
  }

  function Run(cfg: Setting, clock: Clock, steps: seq<Step>): World {
    if |steps| == 0 then Initial(clock) else Next(cfg, Run(cfg, clock, steps[..|steps| - 1]), steps[|steps| - 1])
  }

  // ---------- Invariant ----------

  predicate Terminal(s: JobState) {
    s == ReapprovalRequired || s == FinalizedObserved
  }

  /** The outer transaction `next` was prepared within a minute of proof that `previous` is gone. */
  predicate Justified(cfg: Setting, p: Prepared, previous: Recorded, next: Recorded) {
    && next.proof.Some? && next.proof.value.1 <= next.at <= next.proof.value.1 + MINUTE
    && ProvesGone(p, previous.outer.transactionHash, next.proof.value.0, cfg.quorum, next.proof.value.1)
  }

  /** The live Safe at `at` is the one that was signed for. */
  predicate GatePasses(cfg: Setting, c: Command, p: Prepared, g: Gate, at: Time) {
    g.directorySafe == p.transaction.safe && ValidateRelaySnapshot(cfg.safe, c, p, g.snapshot, cfg.quorum, at)
        == Some(RetryExact)
  }

  /**
    The outer transaction carries the signed Safe transaction, and within the last minute the live Safe
    and the sealed calldata were checked.
   */
  predicate ClearedRecord(cfg: Setting, c: Command, p: Prepared, r: Recorded) {
    && r.outer.safeTxHash == p.safeTxHash && r.outer.execCalldataHash == p.execCalldataHash
    && r.gate.Some? && r.gate.value.1 <= r.at <= r.gate.value.1 + MINUTE
    && GatePasses(cfg, c, p, r.gate.value.0, r.gate.value.1) && VerifyPrepared(cfg.safe, c, p, r.gate.value.0.calldata)
  }

  predicate HistoryOk(cfg: Setting, c: Command, p: Prepared, h: seq<Recorded>) {
    && (forall k | 0 <= k < |h| :: ClearedRecord(cfg, c, p, h[k]))
    && (forall k | 0 < k < |h| :: Justified(cfg, p, h[k - 1], h[k]))
  }

  /** At some moment the evidence `e` led to the decision `d` about the job's own outer transaction. */
  ghost predicate Decided(cfg: Setting, job: Job, e: Evidence, d: Decision) {
    job.prepared.Some? && job.outer.Some? && e.workflowID == job.prepared.value.workflowID
    && exists at :: DecideRetry(job.prepared.value, job.outer.value.transactionHash, e, cfg.quorum, at) == Some(d)
  }

  ghost predicate LastDecided(cfg: Setting, job: Job, d: Decision) {
    job.lastOutcome.Some? && Decided(cfg, job, job.lastOutcome.value, d)
  }

  /** States that speak of the chain rest on the evidence they keep. */
  ghost predicate OutcomeOk(cfg: Setting, job: Job) {
    && (job.state == Retryable ==> LastDecided(cfg, job, RetryExact))
    && (job.state == Waiting ==> LastDecided(cfg, job, Wait))
    && (job.state == FinalizedObserved ==> LastDecided(cfg, job, Finalize))
  }

  predicate LastIs(h: seq<Recorded>, outer: Option<Outer>) {
    |h| > 0 && outer == Some(h[|h| - 1].outer)
  }

  /** Attempts count exactly the outer transactions whose submission is recorded. */
  predicate CountOk(job: Job, h: seq<Recorded>) {
    match job.state
    case AwaitingSignatures | Ready => job.attempts == 0 && h == [] && job.outer == None
    case Broadcasting => |h| == job.attempts + 1 <= MAX_RELAY_ATTEMPTS && LastIs(h, job.outer)
    case Submitted | Waiting | Retryable => |h| == job.attempts <= MAX_RELAY_ATTEMPTS && LastIs(h, job.outer)
    case _ => job.attempts <= |h| <= MAX_RELAY_ATTEMPTS && |h| <= job.attempts + 1
  }

  ghost predicate JobOk(cfg: Setting, id: string, job: Job, h: seq<Recorded>) {
    && job.command.workflowID == id != "" && CountOk(job, h) && OutcomeOk(cfg, job)
    && (if job.state == AwaitingSignatures then job.prepared == None
        else job.prepared.Some? && job.prepared.value.workflowID == id && HistoryOk(cfg, job.command,
            job.prepared.value, h))
  }

  predicate ProofOk(cfg: Setting, op: Op) {
    op.job.state == Retryable ==>
      && op.job.prepared.Some? && op.job.outer.Some? && op.proof.Some? && op.start <= op.proof.value.1 <= op.read
      && ProvesGone(op.job.prepared.value, op.job.outer.value.transactionHash, op.proof.value.0, cfg.quorum,
          op.proof.value.1)
  }

  /** The live Safe was checked in this operation. */
  predicate GateOk(cfg: Setting, op: Op) {
    && op.job.prepared.Some? && op.gate.Some? && op.start <= op.gate.value.1 <= op.read
    && GatePasses(cfg, op.job.command, op.job.prepared.value, op.gate.value.0, op.gate.value.1)
  }

  predicate ClearedOk(cfg: Setting, op: Op) {
    && ProofOk(cfg, op) && op.job.attempts < MAX_RELAY_ATTEMPTS
    && GateOk(cfg, op) && VerifyPrepared(cfg.safe, op.job.command, op.job.prepared.value, op.gate.value.0.calldata)
  }

  ghost predicate PcOk(cfg: Setting, op: Op) {
    var state := op.job.state;
    match op.pc
    case Begun(relay) => if relay then state == Ready || state == Retryable
        || state == Broadcasting else state == Submitted || state == Waiting
    case Checking => (state == Ready || state == Retryable) && ProofOk(cfg, op)
    case Cleared => (state == Ready || state == Retryable) && ClearedOk(cfg, op)
    case Offered(_) => (state == Ready || state == Retryable) && ClearedOk(cfg, op)
    case Recovering(_) => state == Broadcasting
    case Outgoing | Sent => state == Broadcasting && GateOk(cfg, op)
    case Crossed(e, d) => state == Broadcasting && d != RetryExact && Decided(cfg, op.job, e, d)
    case Deciding(cause, d, resume) =>
      && state != AwaitingSignatures && !Terminal(state)
      && (!d.Reapprove? ==> cause.Some? && Decided(cfg, op.job, cause.value, d))
      && (resume ==> d == RetryExact && state == Retryable && ProofOk(cfg, op))
    case Over => true
  }

  ghost predicate OpOk(cfg: Setting, token: string, op: Op) {
    && token != "" && op.start <= op.read
    && (op.pc != Over ==> op.job.leaseToken == token && op.job.leaseExpiresAt <= op.start + MINUTE && PcOk(cfg, op))
  }

  /** Command and authorized artifact stay as they are. */
  predicate SameArtifact(a: Job, b: Job) {
    a.command == b.command && (a.prepared.Some? ==> b.prepared == a.prepared)
  }

  /**
    While the token is current, the stored job is exactly the operation's snapshot; its artifact is the
    snapshot's in any case.
   */
  predicate Fenced(w: World, token: string)
    requires token in w.ops
  {
    var op := w.ops[token];
    var id := op.job.command.workflowID;
    op.pc != Over ==> id in w.store.jobs && SameArtifact(op.job,
        w.store.jobs[id]) && (w.store.jobs[id].leaseToken == token ==> w.store.jobs[id] == op.job)
  }

  predicate Was(h: seq<Recorded>, hash: string) {
    exists k :: 0 <= k < |h| && h[k].outer.transactionHash == hash
  }

  /** An operation only ever knows outer transactions that are recorded. */
  predicate Known(w: World, op: Op) {
    op.pc != Over && op.job.outer.Some? ==>
        Was(History(w, op.job.command.workflowID), op.job.outer.value.transactionHash)
  }

  /** What was sent had been recorded, after a look at the live Safe. */
  predicate SendingOk(cfg: Setting, w: World, s: Sending) {
    && Was(History(w, s.workflowID), s.transactionHash)
    && s.workflowID in w.store.jobs && w.store.jobs[s.workflowID].prepared.Some? && s.gate.Some?
    && GatePasses(cfg, w.store.jobs[s.workflowID].command, w.store.jobs[s.workflowID].prepared.value, s.gate.value.0,
        s.gate.value.1)
  }

  ghost predicate Inv(cfg: Setting, w: World) {
    && (forall id | id in w.store.jobs :: JobOk(cfg, id, w.store.jobs[id], History(w, id)))
    && (forall id | id in w.outers :: id in w.store.jobs)
    && (forall q | q in w.store.commands :: q.command.workflowID != "")
    && (forall t | t in w.ops :: OpOk(cfg, t, w.ops[t]) && Fenced(w, t) && Known(w, w.ops[t]))
    && (forall s | s in w.sendings :: SendingOk(cfg, w, s))
  }
}
