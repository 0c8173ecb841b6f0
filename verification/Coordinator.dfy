/** Coordinator.Advance: one durable or external boundary per call, each call a run of protocol steps. */
module Coordinators {
  import opened Text
  import opened ActivationTables
  import opened ActivationInvariants
  import opened BearerProtocol
  import opened BearerSafety
  import L = SignerLedger
  import R = SignerRuns

  /**
    What one call of Advance meets on its way: clock readings, the engine's answer (none when it refuses or fails),
    the random source, what the disk does to the signer's write, whether the mirror answers, and the verdicts on the
    purchase commitment and on the activation.
   */
  datatype Weather = Weather(
    early: Clock, late: Clock, signature: Option<Bytes>, candidates: seq<string>, nonce: Option<nat>, disk: L.Disk,
    mirrored: bool, committed: bool, verified: bool)

  function Successor(s: ActivationState): ActivationState {
    match s
    case SignRequested => HandlePrepared
    case HandlePrepared => ActivePendingMirror
    case ActivePendingMirror => ActiveMirrored
    case ActiveMirrored => ActivationAcknowledged
    case _ => s
  }

  /** Either the row of `id` moved to the next state and `r` is that row, or no table changed. */
  predicate Advanced(before: Tables, after: Tables, id: string, r: Result<Request>) {
    if r.Ok? then
      && id in before.requests && id in after.requests && r.value == after.requests[id]
      && r.value.state == Successor(before.requests[id].state)
    else after == before
  }

  lemma RunThen(s: Setting, y: System, acts: seq<Act>, act: Act)
    ensures Run(s, y, acts + [act]) == BearerProtocol.Do(s, Run(s, y, acts), act)
  {
    hide BearerProtocol.Do;
    assert (acts + [act])[..|acts|] == acts;
  }

  function PrepareStep(row: Request, x: Weather): Step
    requires x.signature.Some?
  {
    SignerPrepares(row, x.signature.value, x.candidates, x.nonce, x.early)
  }

  /** The signer's store grants a new signature: it decides to, and a record it must write is acknowledged. */
  predicate StoreGrants(s: Setting, y: System, row: Request, x: Weather) {
    && x.signature.Some? && R.Ordinary(PrepareCall(s, PrepareStep(row, x)))
    && var plan := L.PlanOf(s.env, y.w.signer, PrepareCall(s, PrepareStep(row, x)));
       && plan.reply.Granted?
       && (plan.Persist? ==> x.disk == L.Synced && L.Appendable(s.env, y.journal, plan.record))
  }

  /** What the ledger knows about the action of `row`. */
  function Known(s: Setting, y: System, row: Request, x: Weather): L.Reply {
    L.PreparedFor(y.w.signer, x.early, row.input.operationID, row.input.actionID, InputHash(s.cfg, row.input))
  }

  /** Prepare ends with a handle: an earlier record answers, or the engine signs and the store grants. */
  predicate Prepares(s: Setting, y: System, row: Request, x: Weather) {
    && x.early <= y.w.clock && ValidInput(s.cfg, row.input, x.early)
    && (Known(s, y, row, x).Granted? || (Known(s, y, row, x).NoRecord? && StoreGrants(s, y, row, x)))
  }

  /** The signer acknowledges the activation: it decides to, and a record it must write is acknowledged. */
  predicate SignerAcknowledges(s: Setting, y: System, row: Request, x: Weather) {
    && x.early <= y.w.clock
    && var plan := L.PlanActivate(y.w.signer, x.early, row.handle, ProofFrom(row), x.verified);
       && plan.reply.Granted?
       && (plan.Persist? ==> x.disk == L.Synced && L.Appendable(s.env, y.journal, plan.record))
  }

  /** The caller's lease is this request's current one at the time of the write. */
  predicate Leased(s: Setting, y: System, held: Held, id: string, x: Weather) {
    Timely(s, y.w, held, x.late) && LeaseHolds(s.cfg, y.w.db, Some(held), id, x.late)
  }

  /** What a call needs to move its request on, by the state it finds the request in. */
  predicate Succeeds(s: Setting, y: System, id: string, held: Held, x: Weather) {
    && id in y.w.db.requests
    && var (t, row) := (y.w.db, y.w.db.requests[id]);
       match row.state
       case SignRequested => Prepares(s, y, row, x) && Leased(s, y, held, id, x) && x.late < row.input.validUntil
       case HandlePrepared =>
         && Leased(s, y, held, id, x) && row.input.validAfter <= x.late < row.input.validUntil
         && Authorizes(t, row.input) && Unexpired(t, row.input.reservationID, x.late) && x.committed
       case ActivePendingMirror =>
         && x.mirrored && Leased(s, y, held, id, x)
         && row.input.digest in t.registry && Hash(MirrorDigest(s.cfg, t.registry[row.input.digest]))
       case ActiveMirrored => SignerAcknowledges(s, y, row, x) && Leased(s, y, held, id, x)
       case ActivationAcknowledged => true
       case _ => false
  }

  /** A state some run can be in. */
  ghost predicate Sound(s: Setting, y: System) {
    L.CipherLaw(s.env) && SystemInv(s, y)
  }

  lemma SoundTables(s: Setting, y: System, acts: seq<Act>)
    requires Sound(s, y)
    ensures Inv(s, Run(s, y, acts).w) && Consistent(s.cfg, Run(s, y, acts).w.db)
  {
    hide Inv, Consistent, L.CipherLaw, R.Refines, RecordBacked;
    SystemRunKeeps(s, y, acts);
    InvTables(s, Run(s, y, acts).w);
  }

  class Coordinator {
    const s: Setting
    var y: System

    constructor (s: Setting, y: System)
      ensures this.s == s && this.y == y
    {
      this.s, this.y := s, y;
    }

    method Do(step: Step, disk: L.Disk, ghost start: System, ghost done: seq<Act>) returns (ghost trace: seq<Act>)
      requires y == Run(s, start, done)
      modifies this
      ensures trace == done + [Does(step, disk)] && y == Perform(s, old(y), step, disk) == Run(s, start, trace)
    {
      y := Perform(s, y, step, disk);
      trace := done + [Does(step, disk)];
      RunThen(s, start, done, Does(step, disk));
    }

    /** A step that asks the signer for no write. */
    method Take(step: Step, ghost start: System, ghost done: seq<Act>) returns (ghost trace: seq<Act>)
      requires y == Run(s, start, done) && !IsSignerCall(step)
      modifies this
      ensures trace == done + [Does(step, L.Synced)]
          && y == old(y).(w := Next(s, old(y).w, step)) == Run(s, start, trace)
    {
      hide Run, Next;
      trace := Do(step, L.Synced, start, done);
    }

    /** LedgerPreparedSigner.Prepare: answer from the ledger, otherwise ask the engine and store its signature. */
    method PrepareArtifact(row: Request, x: Weather, ghost start: System,
          ghost done: seq<Act>) returns (handle: Option<string>, ghost trace: seq<Act>)
      requires y == Run(s, start, done) && row in y.w.snapshots && row.state == SignRequested
      modifies this
      ensures y == Run(s, start, trace) && y.w.db == old(y.w.db) && y.w.clock == old(y.w.clock)
          && y.w.granted == old(y.w.granted) && |trace| <= |done| + 1
      ensures handle.Some? <==> Prepares(s, old(y), row, x)
      ensures handle.Some? ==> (row.input.requestID, handle.value) in y.w.prepared
      ensures handle.None? ==> y.w == old(y.w)
    {
      hide Run, L.PlanPrepare, L.PreparedFor, ValidInput, R.Ordinary, BindingOf, InputHash;
      handle, trace := None, done;
      if x.early > y.w.clock || !ValidInput(s.cfg, row.input, x.early) { return; }
      var known := L.PreparedFor(y.w.signer, x.early, row.input.operationID, row.input.actionID,
          InputHash(s.cfg, row.input));
      if known.Granted? {
        trace := Do(SignerReplays(row, x.early), x.disk, start, done);
        handle := Some(known.handle.id);
      } else if known.NoRecord? && x.signature.Some? {
        handle, trace := StoreSignature(row, x, start, done);
      }
    }

    /** SignerStore.Prepare with the engine's signature. */
    method StoreSignature(row: Request, x: Weather, ghost start: System,
          ghost done: seq<Act>) returns (handle: Option<string>, ghost trace: seq<Act>)
      requires y == Run(s, start, done) && row in y.w.snapshots && row.state == SignRequested
      requires x.early <= y.w.clock && ValidInput(s.cfg, row.input, x.early) && x.signature.Some?
      modifies this
      ensures y == Run(s, start, trace) && y.w.db == old(y.w.db) && y.w.clock == old(y.w.clock)
          && y.w.granted == old(y.w.granted) && |trace| <= |done| + 1
      ensures handle.Some? <==> StoreGrants(s, old(y), row, x)
      ensures handle.Some? ==> (row.input.requestID, handle.value) in y.w.prepared
      ensures handle.None? ==> y.w == old(y.w)
    {
      hide Run, L.PlanOf, ValidInput, R.Ordinary, BindingOf, InputHash, Perform;
      handle, trace := None, done;
      var step := PrepareStep(row, x);
      if !R.Ordinary(PrepareCall(s, step)) { return; }
      var plan := L.PlanOf(s.env, y.w.signer, PrepareCall(s, step));
      var granted := plan.reply.Granted?;
      if plan.Persist? { granted := L.Append(s.env, y.journal, x.early, plan.record, x.disk).1; }
      PrepareOutcome(s, y, row, x);
      trace := Do(step, x.disk, start, done);
      if granted { handle := Some(plan.reply.handle.id); }
    }

    method SignBoundary(id: string, row: Request, held: Held, x: Weather, ghost start: System, ghost done: seq<Act>)
      returns (r: Result<Request>, ghost trace: seq<Act>)
      requires y == Run(s, start, done) && row in y.w.snapshots && row.state == SignRequested
      requires row.input.requestID == id && id in y.w.db.requests && y.w.db.requests[id] == row
      modifies this
      ensures y == Run(s, start, trace) && |trace| <= |done| + 2 && Advanced(old(y.w.db), y.w.db, id, r)
      ensures Sound(s, start) ==> (r.Ok? <==> Succeeds(s, old(y), id, held, x))
    {
      hide Run, RecordPrepared, Prepares, LeaseHolds, Sound, Inv, Consistent;
      var handle;
      handle, trace := PrepareArtifact(row, x, start, done);
      if handle.None? { return Err(BadState), trace; }
      if !Timely(s, y.w, held, x.late) { return Err(LeaseLost), trace; }
      r := RecordPrepared(s.cfg, y.w.db, Some(held), id, handle.value, x.late).1;
      PreparedResult(s.cfg, y.w.db, Some(held), id, handle.value, x.late);
      if Sound(s, start) {
        SoundTables(s, start, trace);
        RecordPreparedSucceeds(s, y.w, held, id, handle.value, x.late);
      }
      trace := Take(RecordsPrepared(id, handle.value, held, x.late), start, trace);
    }

    method ActivateBoundary(id: string, row: Request, held: Held, x: Weather, ghost start: System, ghost done: seq<Act>)
      returns (r: Result<Request>, ghost trace: seq<Act>)
      requires y == Run(s, start, done) && row.state == HandlePrepared && id in y.w.db.requests
          && y.w.db.requests[id] == row
      modifies this
      ensures y == Run(s, start, trace) && |trace| <= |done| + 1 && Advanced(old(y.w.db), y.w.db, id, r)
      ensures Sound(s, start) ==> (r.Ok? <==> Succeeds(s, old(y), id, held, x))
    {
      hide Run, Next, Activate, Timely, LeaseHolds, Sound, Inv, Consistent;
      trace := done;
      if !Timely(s, y.w, held, x.late) { return Err(LeaseLost), trace; }
      var activated := Activate(s.cfg, y.w.db, Some(held), id, x.late, x.committed).1;
      ActivatedResult(s.cfg, y.w.db, Some(held), id, x.late, x.committed);
      ActivatesEffect(s, y.w, id, held, x.late, x.committed);
      if Sound(s, start) {
        SoundTables(s, start, trace);
        ActivateSucceeds(s.cfg, y.w.db, held, id, x.late, x.committed);
      }
      trace := Take(Activates(id, held, x.late, x.committed), start, trace);
      r := if activated.Err? then Err(activated.error) else Ok(y.w.db.requests[id]);
    }

    method MirrorBoundary(id: string, row: Request, held: Held, x: Weather, ghost start: System, ghost done: seq<Act>)
      returns (r: Result<Request>, ghost trace: seq<Act>)
      requires y == Run(s, start, done) && row in y.w.snapshots && row.state == ActivePendingMirror
      requires row.input.requestID == id && id in y.w.db.requests && y.w.db.requests[id] == row
      modifies this
      ensures y == Run(s, start, trace) && |trace| <= |done| + 3 && Advanced(old(y.w.db), y.w.db, id, r)
      ensures Sound(s, start) ==> (r.Ok? <==> Succeeds(s, old(y), id, held, x))
    {
      hide Run, Next, MarkPrimaryMirrored, MirrorKey, MirrorDigest, MirrorObject, Timely, LeaseHolds, Sound, Inv, Hash,
          Consistent;
      var timely := Timely(s, y.w, held, x.late);
      trace := done;
      if Sound(s, start) {
        SoundTables(s, start, done);
        MirrorSucceeds(s, y.w, id);
        MarkMirroredSucceeds(s.cfg, y.w.db, held, id, x.late);
      }
      if row.input.digest !in y.w.db.registry { return Err(Conflict), trace; }
      var entry := y.w.db.registry[row.input.digest];
      if entry.digest != row.input.digest { return Err(Conflict), trace; }
      ReadEntryEffect(s, y.w, row.input.digest);
      trace := Take(ReadEntry(row.input.digest), start, trace);
      var digest := MirrorDigest(s.cfg, entry);
      if !x.mirrored { return Err(BadState), trace; }
      if !PutSucceeds(y.w.mirror, MirrorKey(entry.digest), Stored(MirrorObject(entry), digest)) {
        return Err(Conflict), trace;
      }
      MirrorsEffect(s, y.w, row, entry);
      trace := Take(Mirrors(row, entry), start, trace);
      if !timely { return Err(LeaseLost), trace; }
      r := MarkPrimaryMirrored(s.cfg, y.w.db, Some(held), id, digest, x.late).1;
      MirroredResult(s.cfg, y.w.db, Some(held), id, digest, x.late);
      TimelyFrame(s, y.w, old(y).w, held, x.late);
      RecordsMirroredEffect(s, y.w, id, digest, held, x.late);
      trace := Take(RecordsMirrored(id, digest, held, x.late), start, trace);
    }

    method AcknowledgeBoundary(id: string, row: Request, held: Held, x: Weather, ghost start: System,
          ghost done: seq<Act>)
      returns (r: Result<Request>, ghost trace: seq<Act>)
      requires y == Run(s, start, done) && row in y.w.snapshots && row.state == ActiveMirrored
      requires row.input.requestID == id && id in y.w.db.requests && y.w.db.requests[id] == row
      modifies this
      ensures y == Run(s, start, trace) && |trace| <= |done| + 2 && Advanced(old(y.w.db), y.w.db, id, r)
      ensures Sound(s, start) ==> (r.Ok? <==> Succeeds(s, old(y), id, held, x))
    {
      hide Run, Next, MarkAcknowledged, L.PlanActivate, L.Append, ProofFrom, Timely, Perform, LeaseHolds, Sound, Inv,
          Consistent, L.Appendable;
      var timely := Timely(s, y.w, held, x.late);
      trace := done;
      if Sound(s, start) {
        SoundTables(s, start, done);
        MarkAcknowledgedSucceeds(s.cfg, y.w.db, held, id, x.late);
      }
      if x.early > y.w.clock { return Err(BadState), trace; }
      var plan := L.PlanActivate(y.w.signer, x.early, row.handle, ProofFrom(row), x.verified);
      var granted := plan.reply.Granted?;
      if plan.Persist? { granted := L.Append(s.env, y.journal, x.early, plan.record, x.disk).1; }
      AcknowledgeOutcome(s, y, row, x);
      trace := Do(Acknowledges(row, x.verified, x.early), x.disk, start, trace);
      if !granted { return Err(BadState), trace; }
      if !timely { return Err(LeaseLost), trace; }
      r := MarkAcknowledged(s.cfg, y.w.db, Some(held), id, row.handle, x.late).1;
      AcknowledgedResult(s.cfg, y.w.db, Some(held), id, row.handle, x.late);
      TimelyFrame(s, y.w, old(y).w, held, x.late);
      RecordsAcknowledgedEffect(s, y.w, id, row.handle, held, x.late);
      trace := Take(RecordsAcknowledged(id, row.handle, held, x.late), start, trace);
    }

    /**
      Every call is a run of at most four protocol steps; a successful one moves its request exactly one state
      on, a failed one no table. In every state a run can be in, it succeeds exactly when the state's own needs are met.
     */
    method Advance(id: string, held: Held, x: Weather) returns (r: Result<Request>, ghost trace: seq<Act>)
      modifies this
      ensures y == Run(s, old(y), trace) && |trace| <= 4 && Advanced(old(y.w.db), y.w.db, id, r)
      ensures Sound(s, old(y)) ==> (r.Ok? <==> Succeeds(s, old(y), id, held, x))
    {
      hide Run, Next, Succeeds, Sound;
      ghost var start := y;
      trace := [];
      assert y == Run(s, start, []) by { EmptyRun(s, start); }
      if id !in y.w.db.requests {
        assert !Succeeds(s, y, id, held, x) by { NoRow(s, y, id, held, x); }
        return Err(NotFound), trace;
      }
      var row := y.w.db.requests[id];
      if row.input.requestID != id {
        if Sound(s, start) { RowsAreNamed(s, start, id); }
        return Err(NotFound), trace;
      }
      ReadEffect(s, y.w, id);
      SameNeeds(s, y, y.(w := Next(s, y.w, Read(id))), id, held, x);
      trace := Take(Read(id), start, trace);
      match row.state
      case SignRequested => r, trace := SignBoundary(id, row, held, x, start, trace);
      case HandlePrepared => r, trace := ActivateBoundary(id, row, held, x, start, trace);
      case ActivePendingMirror => r, trace := MirrorBoundary(id, row, held, x, start, trace);
      case ActiveMirrored => r, trace := AcknowledgeBoundary(id, row, held, x, start, trace);
      case ActivationAcknowledged =>
        EndStates(s, y, id, held, x);
        r := Ok(row);
      case _ =>
        EndStates(s, y, id, held, x);
        r := Err(BadState);
    }
  }

  lemma NoRow(s: Setting, y: System, id: string, held: Held, x: Weather)
    requires id !in y.w.db.requests
    ensures !Succeeds(s, y, id, held, x)
  {
  }

  lemma RowsAreNamed(s: Setting, y: System, id: string)
    requires Sound(s, y) && id in y.w.db.requests
    ensures y.w.db.requests[id].input.requestID == id
  {
    hide Inv, L.CipherLaw, R.Refines, RecordBacked, Consistent;
    InvTables(s, y.w);
    RowHash(s.cfg, y.w.db, id);
  }

  /** Reading the row changes nothing a call depends on. */
  lemma SameNeeds(s: Setting, y: System, z: System, id: string, held: Held, x: Weather)
    requires z.journal == y.journal && z.w.db == y.w.db && z.w.clock == y.w.clock && z.w.granted == y.w.granted
    requires z.w.signer == y.w.signer
    ensures Succeeds(s, z, id, held, x) <==> Succeeds(s, y, id, held, x)
  {
    hide ValidInput, L.PlanPrepare, L.PlanActivate, L.PreparedFor, R.Ordinary, LeaseHolds, L.Appendable, Authorizes,
        Unexpired;
  }

  lemma EndStates(s: Setting, y: System, id: string, held: Held, x: Weather)
    requires id in y.w.db.requests
    ensures y.w.db.requests[id].state == ActivationAcknowledged ==> Succeeds(s, y, id, held, x)
    ensures y.w.db.requests[id].state in {ExpiredUnactivated, SignerRefused} ==> !Succeeds(s, y, id, held, x)
  {
  }

  // ---------- What single steps do when their guard holds ----------

  lemma TimelyFrame(s: Setting, w: World, v: World, held: Held, now: Time)
    requires w.clock == v.clock && w.granted == v.granted && Timely(s, v, held, now)
    ensures Timely(s, w, held, now)
  {
  }

  lemma ReadEffect(s: Setting, w: World, id: string)
    requires id in w.db.requests
    ensures Next(s, w, Read(id)) == w.(snapshots := w.snapshots + {w.db.requests[id]})
  {
  }

  lemma ActivatesEffect(s: Setting, w: World, id: string, held: Held, now: Clock, committed: bool)
    requires Timely(s, w, held, now)
    ensures Next(s, w, Activates(id, held, now, committed)).db
        == Activate(s.cfg, w.db, Some(held), id, now, committed).0
  {
    hide Activate, Timely;
  }

  lemma ReadEntryEffect(s: Setting, w: World, digest: string)
    requires digest in w.db.registry
    ensures Next(s, w, ReadEntry(digest)) == w.(entries := w.entries + {w.db.registry[digest]})
  {
  }

  lemma MirrorsEffect(s: Setting, w: World, row: Request, entry: RegistryEntry)
    requires row in w.snapshots && row.state == ActivePendingMirror && entry in w.entries
        && entry.digest == row.input.digest
    requires PutSucceeds(w.mirror, MirrorKey(entry.digest), Stored(MirrorObject(entry), MirrorDigest(s.cfg, entry)))
    ensures var v := Next(s, w, Mirrors(row, entry));
            v.db == w.db && v.clock == w.clock && v.granted == w.granted
                && (row.input.requestID, MirrorDigest(s.cfg, entry)) in v.stored
  {
  }

  lemma RecordsMirroredEffect(s: Setting, w: World, id: string, digest: string, held: Held, now: Clock)
    requires (id, digest) in w.stored && Timely(s, w, held, now)
    ensures Next(s, w, RecordsMirrored(id, digest, held, now)).db
        == MarkPrimaryMirrored(s.cfg, w.db, Some(held), id, digest, now).0
  {
    hide MarkPrimaryMirrored, Timely;
  }

  /** What an acknowledgment that reaches the signer leaves, whatever the disk does. */
  lemma AcknowledgeOutcome(s: Setting, y: System, row: Request, x: Weather)
    requires row in y.w.snapshots && row.state == ActiveMirrored && x.early <= y.w.clock
    ensures var plan := L.PlanActivate(y.w.signer, x.early, row.handle, ProofFrom(row), x.verified);
            var granted := if plan.Persist? then L.Append(s.env, y.journal, x.early, plan.record, x.disk).1
                else plan.reply.Granted?;
            var v := Perform(s, y, Acknowledges(row, x.verified, x.early), x.disk).w;
            && v.db == y.w.db && v.clock == y.w.clock && v.granted == y.w.granted
            && (granted ==> (row.input.requestID, row.handle) in v.acknowledged)
    ensures var plan := L.PlanActivate(y.w.signer, x.early, row.handle, ProofFrom(row), x.verified);
            var granted := if plan.Persist? then L.Append(s.env, y.journal, x.early, plan.record, x.disk).1
                else plan.reply.Granted?;
            granted <==> SignerAcknowledges(s, y, row, x)
  {
    hide L.NextEvent, ProofFrom, L.ExactActivationProof, L.ValidTransition;
  }

  /** The same for a preparation. */
  lemma PrepareOutcome(s: Setting, y: System, row: Request, x: Weather)
    requires row in y.w.snapshots && row.state == SignRequested && x.early <= y.w.clock && x.signature.Some?
    requires ValidInput(s.cfg, row.input, x.early) && R.Ordinary(PrepareCall(s, PrepareStep(row, x)))
    ensures var plan := L.PlanOf(s.env, y.w.signer, PrepareCall(s, PrepareStep(row, x)));
            var granted := if plan.Persist? then L.Append(s.env, y.journal, x.early, plan.record, x.disk).1
                else plan.reply.Granted?;
            var v := Perform(s, y, PrepareStep(row, x), x.disk).w;
            && v.db == y.w.db && v.clock == y.w.clock && v.granted == y.w.granted
            && (plan.Persist? ==> plan.reply.Granted?)
            && (if granted then plan.reply.Granted? && (row.input.requestID, plan.reply.handle.id) in v.prepared
                else v == y.w)
  {
    hide L.Append, ValidInput, R.Ordinary, BindingOf, InputHash, L.ValidPrepare, L.ArtifactAAD, L.ActionKey;
  }

  lemma RecordsAcknowledgedEffect(s: Setting, w: World, id: string, handle: string, held: Held, now: Clock)
    requires (id, handle) in w.acknowledged && Timely(s, w, held, now)
    ensures Next(s, w, RecordsAcknowledged(id, handle, held, now)).db
        == MarkAcknowledged(s.cfg, w.db, Some(held), id, handle, now).0
  {
    hide MarkAcknowledged, Timely;
  }

  lemma EmptyRun(s: Setting, y: System)
    ensures Run(s, y, []) == y
  {
  }

  lemma PreparedResult(cfg: Config, t: Tables, held: Option<Held>, id: string, handle: string, now: Time)
    ensures var (u, r) := RecordPrepared(cfg, t, held, id, handle, now);
            && (r.Err? ==> u == t)
            && (r.Ok? ==> id in u.requests && r.value == u.requests[id] && (t.requests[id].state == SignRequested ==>
                r.value.state == HandlePrepared))
  {
  }

  lemma ActivatedResult(cfg: Config, t: Tables, held: Option<Held>, id: string, now: Time, committed: bool)
    ensures var (u, r) := Activate(cfg, t, held, id, now, committed);
            && (r.Err? ==> u == t)
            && (r.Ok? ==> id in u.requests && (t.requests[id].state == HandlePrepared ==>
                u.requests[id].state == ActivePendingMirror))
  {
  }

  lemma MirroredResult(cfg: Config, t: Tables, held: Option<Held>, id: string, digest: string, now: Time)
    ensures var (u, r) := MarkPrimaryMirrored(cfg, t, held, id, digest, now);
            && (r.Err? ==> u == t)
            && (r.Ok? ==>
                  && id in u.requests && r.value == u.requests[id]
                  && (t.requests[id].state == ActivePendingMirror ==> r.value.state == ActiveMirrored))
  {
  }

  lemma AcknowledgedResult(cfg: Config, t: Tables, held: Option<Held>, id: string, handle: string, now: Time)
    ensures var (u, r) := MarkAcknowledged(cfg, t, held, id, handle, now);
            && (r.Err? ==> u == t)
            && (r.Ok? ==> id in u.requests && r.value == u.requests[id] && (t.requests[id].state == ActiveMirrored ==>
                r.value.state == ActivationAcknowledged))
  {
  }
}
