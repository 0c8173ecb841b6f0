/**
  Two-phase signer activation across its three parties: the control-plane tables, the isolated
  signer and the write-once mirror. Workers are not tracked one by one. Every answer a party ever
  gave stays available in a message set, and any worker may act on any of them, in any order and
  any number of times: that covers crashes, retries, lost leases and duplicate deliveries.
 */
module BearerProtocol {
  import opened Text
  import opened ActivationTables
  import opened ActivationInvariants
  import L = SignerLedger
  import R = SignerRuns

  datatype Setting = Setting(env: L.Env, cfg: Config)

  /** A write-once object: its content and the digest it was stored under. */
  datatype Stored = Stored(content: RegistryEntry, digest: string)

  datatype World = World(
    db: Tables, signer: L.SignerState, mirror: map<string, Stored>, clock: Clock,
    granted: map<string, Time>,               // lease token -> clock when the lease was granted
    snapshots: set<Request>,                   // rows read by Get or Claim
    expiredClaims: set<Request>,               // rows handed out by ClaimExpired
    entries: set<RegistryEntry>,              // registry entries read before mirroring
    prepared: set<(string, string)>,          // (request, handle) answers of the signer's Prepare
    stored: set<(string, string)>,            // (request, digest) successful mirror writes
    acknowledged: set<(string, string)>,      // (request, handle) successful signer acknowledgments
    proofs: set<L.UnactivatedProof>)

  datatype Step =
    | Tick(to: Clock)
    | Authorized(authorizationID: string, authorization: Authorization, expiresAt: Time)
    | Requested(input: ActivationInput, now: Clock, signerBound: bool)
    | Claimed(id: string, worker: string, token: string, now: Clock, duration: int, expired: bool)
    | Returned(held: Held, next: Time)
    | Read(id: string)
    | ReadEntry(digest: string)
    | SignerReplays(snapshot: Request, now: Clock)
    | SignerPrepares(snapshot: Request, signature: Bytes, candidates: seq<string>, nonce: Option<nat>, now: Clock)
    | RecordsPrepared(id: string, handle: string, held: Held, now: Clock)
    | Activates(id: string, held: Held, now: Clock, committed: bool)
    | Mirrors(snapshot: Request, entry: RegistryEntry)
    | RecordsMirrored(id: string, digest: string, held: Held, now: Clock)
    | Acknowledges(snapshot: Request, verified: bool, now: Clock)
    | RecordsAcknowledged(id: string, handle: string, held: Held, now: Clock)
    | Refuses(id: string, held: Held, now: Clock)
    | SignerProves(snapshot: Request, proven: bool, now: Clock)
    | Expires(id: string, proof: L.UnactivatedProof, held: Held, now: Clock)
    | Releases(handle: string, keeperID: string, now: Clock)
    | Finalizes(handle: string, outcome: string, now: Clock)

  function MirrorKey(digest: string): string {
    "bearer-registry/" + digest + ".json"
  }

  /** A worker reads its clock after its lease was granted and before the transaction commits. */
  predicate Timely(s: Setting, w: World, held: Held, now: Time) {
    now <= w.clock && (s.cfg.leasesRequired ==> held.token in w.granted && w.granted[held.token] <= now)
  }

  function After(s: L.SignerState, plan: L.Plan): L.SignerState {
    if plan.Persist? then L.Commit(s, plan.record) else s
  }

  /** The proof the coordinator builds from the row it read. */
  function ProofFrom(r: Request): L.ActivationProof {
    L.ActivationProof(r.input.requestID, r.handle, r.input.operationID, r.input.digest, r.input.nonce, r.mirrorDigest,
        r.activatedAt)
  }

  /** Create-if-absent: an existing object is success only when content and digest are exact. */
  predicate PutSucceeds(mirror: map<string, Stored>, key: string, blob: Stored) {
    key in mirror ==> mirror[key] == blob
  }

  function PrepareCall(s: Setting, step: Step): L.Call
    requires step.SignerPrepares?
  {
    var input := step.snapshot.input;
    L.Prepare(step.now, L.PrepareInput(BindingOf(input, InputHash(s.cfg, input)), step.signature), step.candidates,
        step.nonce)
  }

  function ProveCall(step: Step): L.Call
    requires step.SignerProves?
  {
    var r := step.snapshot;
    L.Prove(step.now, r.input.requestID, r.input.operationID, r.input.actionID, r.inputHash, step.proven)
  }

  function SignerStep(s: Setting, w: World, step: Step): World {
    match step
    case SignerReplays(snapshot, now) =>
      var reply := L.PreparedFor(w.signer, now, snapshot.input.operationID, snapshot.input.actionID,
          InputHash(s.cfg, snapshot.input));
      if snapshot in w.snapshots && snapshot.state == SignRequested && now <= w.clock && reply.Granted?
      then w.(prepared := w.prepared + {(snapshot.input.requestID, reply.handle.id)}) else w
    case SignerPrepares(snapshot, _, _, _, now) =>
      var call := PrepareCall(s, step);
      var plan := L.PlanOf(s.env, w.signer, call);
      if snapshot in w.snapshots && snapshot.state == SignRequested && now <= w.clock
          && ValidInput(s.cfg, snapshot.input, now)
         && R.Ordinary(call) && plan.reply.Granted?
      then w.(signer := After(w.signer, plan), prepared :=
          w.prepared + {(snapshot.input.requestID, plan.reply.handle.id)}) else w
    case Acknowledges(snapshot, verified, now) =>
      var plan := L.PlanActivate(w.signer, now, snapshot.handle, ProofFrom(snapshot), verified);
      if snapshot in w.snapshots && snapshot.state == ActiveMirrored && now <= w.clock && plan.reply.Granted?
      then w.(signer := After(w.signer, plan), acknowledged :=
          w.acknowledged + {(snapshot.input.requestID, snapshot.handle)}) else w
    case SignerProves(snapshot, _, now) =>
      var plan := L.PlanOf(s.env, w.signer, ProveCall(step));
      if snapshot in w.expiredClaims && now <= w.clock && plan.reply.Unactivated?
      then w.(signer := After(w.signer, plan), proofs := w.proofs + {plan.reply.proof}) else w
    case Releases(handle, keeperID, now) =>
      if now <= w.clock then w.(signer := After(w.signer, L.PlanRelease(s.env, w.signer, now, handle, keeperID))) else w
    case Finalizes(handle, outcome, now) => w.(signer := After(w.signer, L.PlanFinalize(w.signer, handle, outcome)))
    case _ => w
  }

  function TableStep(s: Setting, w: World, step: Step): World {
    match step
    case Authorized(authorizationID, authorization, expiresAt) =>
        w.(db := Authorize(w.db, authorizationID, authorization, expiresAt))
    case Requested(input, now, signerBound) =>
      if now <= w.clock then w.(db := Create(s.cfg, w.db, input, now, signerBound).0) else w
    case Claimed(id, worker, token, now, duration, expired) =>
      var (db, result) := Claim(w.db, id, worker, token, now, duration, expired);
      if now > w.clock || token in w.granted || result.Err? then w
      else if expired then w.(db := db, granted := w.granted[token := w.clock], expiredClaims :=
          w.expiredClaims + {result.value})
      else w.(db := db, granted := w.granted[token := w.clock], snapshots := w.snapshots + {result.value})
    case Returned(held, next) => w.(db := ReturnLease(w.db, held, next).0)
    case RecordsPrepared(id, handle, held, now) =>
      if (id, handle) in w.prepared && Timely(s, w, held, now)
      then w.(db := RecordPrepared(s.cfg, w.db, Some(held), id, handle, now).0) else w
    case Activates(id, held, now, committed) =>
      if Timely(s, w, held, now) then w.(db := Activate(s.cfg, w.db, Some(held), id, now, committed).0) else w
    case RecordsMirrored(id, digest, held, now) =>
      if (id, digest) in w.stored && Timely(s, w, held, now)
      then w.(db := MarkPrimaryMirrored(s.cfg, w.db, Some(held), id, digest, now).0) else w
    case RecordsAcknowledged(id, handle, held, now) =>
      if (id, handle) in w.acknowledged && Timely(s, w, held, now)
      then w.(db := MarkAcknowledged(s.cfg, w.db, Some(held), id, handle, now).0) else w
    case Refuses(id, held, now) => if Timely(s, w, held, now)
        then w.(db := Refuse(s.cfg, w.db, Some(held), id, now).0) else w
    case Expires(id, proof, held, now) =>
      if proof in w.proofs && Timely(s, w, held, now)
          then w.(db := ExpireUnactivated(s.cfg, w.db, Some(held), id, proof, now).0) else w
    case _ => w
  }

  function OtherStep(s: Setting, w: World, step: Step): World {
    match step
    case Tick(to) => if w.clock <= to then w.(clock := to) else w
    case Read(id) => if id in w.db.requests then w.(snapshots := w.snapshots + {w.db.requests[id]}) else w
    case ReadEntry(digest) => if digest in w.db.registry then w.(entries := w.entries + {w.db.registry[digest]}) else w
    case Mirrors(snapshot, entry) =>
      var blob := Stored(MirrorObject(entry), MirrorDigest(s.cfg, entry));
      if snapshot in w.snapshots && snapshot.state == ActivePendingMirror && entry in w.entries
          && entry.digest == snapshot.input.digest
         && PutSucceeds(w.mirror, MirrorKey(entry.digest), blob)
      then w.(mirror := w.mirror[MirrorKey(entry.digest) := blob], stored :=
          w.stored + {(snapshot.input.requestID, blob.digest)}) else w
    case _ => w
  }

  /** One step, with the signer's writes acknowledged. */
  function Next(s: Setting, w: World, step: Step): World {
    if step.SignerReplays? || step.SignerPrepares? || step.Acknowledges? || step.SignerProves? || step.Releases?
        || step.Finalizes? then SignerStep(s, w, step)
    else if step.Tick? || step.Read? || step.ReadEntry? || step.Mirrors? then OtherStep(s, w, step)
    else TableStep(s, w, step)
  }

  // ---------- The signer's ledger may fail, and the signer may restart ----------

  datatype System = System(w: World, journal: L.Journal)

  /**
    A step with what the disk does to the write it asks the signer for, if it asks for one; or a restart of the
    signer.
   */
  datatype Act =
    | Does(step: Step, disk: L.Disk)
    | Reopens(now: Clock, revalidated: bool)

  predicate IsSignerCall(step: Step) {
    step.SignerPrepares? || step.Acknowledges? || step.SignerProves? || step.Releases? || step.Finalizes?
  }

  function CallOf(s: Setting, step: Step): L.Call
    requires IsSignerCall(step)
  {
    match step
    case SignerPrepares(_, _, _, _, _) => PrepareCall(s, step)
    case Acknowledges(snapshot, verified, now) => L.Activate(now, snapshot.handle, ProofFrom(snapshot), verified)
    case SignerProves(_, _, _) => ProveCall(step)
    case Releases(handle, keeperID, now) => L.Release(now, handle, keeperID)
    case Finalizes(handle, outcome, now) => L.Finalize(now, handle, outcome)
  }

  /** The call reaches the signer. */
  predicate Enabled(s: Setting, w: World, step: Step)
    requires IsSignerCall(step)
  {
    match step
    case SignerPrepares(snapshot, _, _, _, now) =>
      && snapshot in w.snapshots && snapshot.state == SignRequested && now <= w.clock
          && ValidInput(s.cfg, snapshot.input, now)
      && R.Ordinary(PrepareCall(s, step))
    case Acknowledges(snapshot, _, now) => snapshot in w.snapshots && snapshot.state == ActiveMirrored && now <= w.clock
    case SignerProves(snapshot, _, now) => snapshot in w.expiredClaims && now <= w.clock
    case Releases(_, _, now) => now <= w.clock
    case Finalizes(_, _, _) => true
  }

  /** The record the step asks the ledger to write. */
  function WriteOf(s: Setting, w: World, step: Step): Option<L.SignerRecord> {
    if !IsSignerCall(step) || !Enabled(s, w, step) then None
    else
      var plan := L.PlanOf(s.env, w.signer, CallOf(s, step));
      if plan.Persist? then Some(plan.record) else None
  }

  /**
    A refused or failed write leaves the caller without an answer; it may leave its record in the file all the
    same.
   */
  function Perform(s: Setting, y: System, step: Step, disk: L.Disk): System {
    var record := WriteOf(s, y.w, step);
    if record.None? then y.(w := Next(s, y.w, step))
    else
      var (journal, ok) := L.Append(s.env, y.journal, step.now, record.value, disk);
      System(if ok then Next(s, y.w, step) else y.w, journal)
  }

  ghost function Do(s: Setting, y: System, act: Act): System {
    match act
    case Does(step, disk) => Perform(s, y, step, disk)
    case Reopens(now, revalidated) =>
      var m := R.Restart(s.env, L.Signer(y.w.signer, y.journal), now, revalidated).0;
      System(y.w.(signer := m.mem), m.journal)
  }

  /** Before any signing: authorizations and reservations may exist, everything else is empty. */
  predicate Blank(w: World) {
    && w.db.requests == map[] && w.db.registry == map[] && w.db.handles == map[] && w.db.payments == map[]
        && w.db.outbox == map[]
    && w.signer == L.SignerState(map[], map[]) && w.mirror == map[] && w.granted == map[]
    && w.snapshots == {} && w.expiredClaims == {} && w.entries == {} && w.prepared == {} && w.stored == {}
    && w.acknowledged == {} && w.proofs == {}
  }

  predicate Initial(y: System) {
    Blank(y.w) && y.journal == R.FRESH.journal
  }

  ghost function Run(s: Setting, y: System, acts: seq<Act>): System {
    if |acts| == 0 then y else Do(s, Run(s, y, acts[..|acts| - 1]), acts[|acts| - 1])
  }

  // ---------- The invariant ----------

  /** `handle` is the signer's handle for request `id`. */
  predicate OwnHandle(signer: L.SignerState, id: string, handle: string) {
    handle in signer.byID && signer.byID[handle].handle.binding.requestID == id
  }

  /** Every signer handle binds exactly the immutable input of its request. */
  predicate HandleBound(db: Tables, r: L.SignerRecord) {
    var id := r.handle.binding.requestID;
    id in db.requests && r.handle.binding == BindingOf(db.requests[id].input, db.requests[id].inputHash)
  }

  /** An activated handle belongs to a mirrored row and carries that row's proof. */
  predicate HandleJustified(db: Tables, r: L.SignerRecord) {
    L.Activated(r.handle.state) ==>
      var id := r.handle.binding.requestID;
      && id in db.requests && Mirrored(db.requests[id].state) && db.requests[id].handle == r.handle.id
      && r.activation == Some(ProofFrom(db.requests[id]))
  }

  /** The row of `id` can no longer be activated: its window is over for everyone who could still write to it. */
  predicate Doomed(db: Tables, granted: map<string, Time>, clock: Time, id: string) {
    && id in db.requests
    && var r := db.requests[id];
       && r.input.validUntil <= clock && !ActiveState(r.state)
       && (r.lease.Some? ==> r.lease.value.token in granted && r.input.validUntil <= granted[r.lease.value.token])
  }

  predicate Remembered(db: Tables, snapshot: Request) {
    snapshot.input.requestID in db.requests && Progress(snapshot, db.requests[snapshot.input.requestID])
  }

  predicate RowBacked(w: World, id: string)
    requires id in w.db.requests
  {
    var r := w.db.requests[id];
    && (r.handle != "" ==> OwnHandle(w.signer, id, r.handle))
    && (Mirrored(r.state) ==> MirrorKey(r.input.digest) in w.mirror)
    && (r.state == ActivationAcknowledged ==>
        r.handle in w.signer.byID && L.Activated(w.signer.byID[r.handle].handle.state))
    && (r.lease.Some? ==> r.lease.value.token in w.granted && w.granted[r.lease.value.token] <= w.clock)
  }

  predicate RecordBacked(s: Setting, w: World, r: L.SignerRecord) {
    && HandleBound(w.db, r) && HandleJustified(w.db, r)
    && (s.cfg.leasesRequired && r.handle.state == L.Expired
        ==> Doomed(w.db, w.granted, w.clock, r.handle.binding.requestID))
  }

  predicate ProofBacked(s: Setting, w: World, p: L.UnactivatedProof) {
    && (s.cfg.leasesRequired ==> Doomed(w.db, w.granted, w.clock, p.requestID))
    && (p.handleID != "" ==> OwnHandle(w.signer, p.requestID, p.handleID))
  }

  predicate EntryRemembered(db: Tables, e: RegistryEntry) {
    e.digest in db.registry && MirrorObject(db.registry[e.digest]) == MirrorObject(e)
  }

  ghost predicate MirrorBacked(s: Setting, w: World) {
    forall d: string | MirrorKey(d) in w.mirror ::
      d in w.db.registry && w.mirror[MirrorKey(d)]
          == Stored(MirrorObject(w.db.registry[d]), MirrorDigest(s.cfg, w.db.registry[d]))
  }

  ghost predicate MessagesBacked(s: Setting, w: World) {
    && (forall r | r in w.snapshots :: Remembered(w.db, r))
    && (forall r | r in w.expiredClaims :: Remembered(w.db, r) && (s.cfg.leasesRequired ==>
        Doomed(w.db, w.granted, w.clock, r.input.requestID)))
    && (forall e | e in w.entries :: EntryRemembered(w.db, e))
    && (forall m | m in w.prepared :: OwnHandle(w.signer, m.0, m.1))
    && (forall m | m in w.stored :: m.0 in w.db.requests && MirrorKey(w.db.requests[m.0].input.digest) in w.mirror)
    && (forall m | m in w.acknowledged :: OwnHandle(w.signer, m.0, m.1) && L.Activated(w.signer.byID[m.1].handle.state))
    && (forall p | p in w.proofs :: ProofBacked(s, w, p))
  }

  ghost predicate Inv(s: Setting, w: World) {
    && Consistent(s.cfg, w.db)
    && L.Indexed(w.signer)
    && (forall id | id in w.db.requests :: RowBacked(w, id))
    && (forall h | h in w.signer.byID :: RecordBacked(s, w, w.signer.byID[h]))
    && MirrorBacked(s, w)
    && MessagesBacked(s, w)
  }

  /** The same for a system whose ledger file may hold one record more than the signer's memory. */
  ghost predicate SystemInv(s: Setting, y: System) {
    && Inv(s, y.w) && R.Refines(s.env, L.Signer(y.w.signer, y.journal))
    && (R.Orphan(s.env, y.journal).Some? ==> RecordBacked(s, y.w, R.Orphan(s.env, y.journal).value))
  }
}
