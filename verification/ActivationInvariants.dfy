/** What every committed activation transaction keeps: derived rows follow progress, and rows only move forward. */
module ActivationInvariants {
  import opened Text
  import opened ActivationTables
  import L = SignerLedger

  function Lookup<K, V>(m: map<K, V>, k: K): Option<V> {
    if k in m then Some(m[k]) else None
  }

  /** One request together with every row derived from it. */
  datatype View = View(
    r: Request, reservation: Option<Reservation>, entry: Option<RegistryEntry>, handleRow: Option<HandleRow>,
        payment: Option<PaymentRow>,
    prepare: Option<OutboxState>, mirror: Option<OutboxState>, ack: Option<OutboxState>, secondary: Option<OutboxState>)

  function ViewOf(t: Tables, id: string): View
    requires id in t.requests
  {
    var r := t.requests[id];
    View(r, Lookup(t.reservations, r.input.reservationID), Lookup(t.registry, r.input.digest),
         if r.handle == "" then None else Lookup(t.handles, r.handle), Lookup(t.payments, r.input.operationID),
         Lookup(t.outbox, (id, SignPrepare)), Lookup(t.outbox, (id, Mirror)), Lookup(t.outbox, (id, Ack)),
             Lookup(t.outbox, (id, SecondaryMirror)))
  }

  /**
    The outbox is a function of the request's progress, except that expiry cancels or leaves a delivered
    SIGN_PREPARE.
   */
  predicate OutboxFollows(v: View) {
    match v.r.state
    case SignRequested => v.prepare == Some(Pending) && v.mirror == v.ack == v.secondary == None
    case HandlePrepared => v.prepare == Some(Delivered) && v.mirror == v.ack == v.secondary == None
    case ActivePendingMirror => v.prepare == Some(Delivered) && v.mirror == Some(Pending)
        && v.ack == v.secondary == None
    case ActiveMirrored => v.prepare == v.mirror == Some(Delivered) && v.ack == v.secondary == Some(Pending)
    case ActivationAcknowledged => v.prepare == v.mirror == v.ack == Some(Delivered) && v.secondary == Some(Pending)
    case ExpiredUnactivated => (v.prepare == Some(Delivered) || v.prepare == Some(Cancelled))
        && v.mirror == v.ack == v.secondary == None
    case SignerRefused => v.prepare == Some(Cancelled) && v.mirror == v.ack == v.secondary == None
  }

  function ReservationFor(s: ActivationState): ReservationState {
    if s == SignRequested || s == HandlePrepared then Reserved else if ActiveState(s) then AuthorizationLive
        else Released
  }

  predicate Mirrored(s: ActivationState) {
    s == ActiveMirrored || s == ActivationAcknowledged
  }

  predicate MirrorFollows(cfg: Config, r: Request) {
    if Mirrored(r.state) then Hash(r.mirrorDigest) && r.mirrorDigest == MirrorDigest(cfg, EntryFor(r, r.activatedAt))
    else r.mirrorDigest == ""
  }

  predicate HandleFollows(r: Request) {
    && (r.state == SignRequested || r.state == SignerRefused ==> r.handle == "")
    && (r.state == HandlePrepared || ActiveState(r.state) ==> OpaqueHandle(r.handle))
  }

  /** Registry, handle and payment rows exist exactly for activated requests, with exactly these contents. */
  predicate DerivedFollow(v: View) {
    var i := v.r.input;
    if ActiveState(v.r.state) then
      && v.entry == Some(EntryFor(v.r, v.r.activatedAt).(primaryMirrorDigest := v.r.mirrorDigest))
      && v.handleRow == Some(HandleRow(i.operationID, i.canonicalPayloadHash, i.digest, i.nonce, i.validUntil))
      && v.payment == Some(PaymentRow(i.authorizationID, i.reservationID, i.digest))
      && i.validAfter <= v.r.activatedAt < i.validUntil
    else v.entry == None && v.handleRow == None && v.payment == None
  }

  predicate ShapeFollows(cfg: Config, id: string, r: Request) {
    && r.input.requestID == id && Hash(id) && r.inputHash == InputHash(cfg, r.input)
    && Hash(r.input.operationID) && Identifier(r.input.actionID)
        && L.ValidWindow(r.input.validAfter, r.input.validUntil)
  }

  predicate RowConsistent(cfg: Config, id: string, v: View) {
    && ShapeFollows(cfg, id, v.r)
    && v.reservation.Some? && v.reservation.value.state == ReservationFor(v.r.state)
    && HandleFollows(v.r) && MirrorFollows(cfg, v.r) && OutboxFollows(v) && DerivedFollow(v)
  }

  /** The UNIQUE constraints that matter here. */
  ghost predicate RowsDistinct(requests: map<string, Request>) {
    forall a, b | a in requests && b in requests && a != b ::
      && requests[a].input.authorizationID != requests[b].input.authorizationID
      && requests[a].input.reservationID != requests[b].input.reservationID
      && requests[a].input.operationID != requests[b].input.operationID
      && requests[a].input.digest != requests[b].input.digest
      && (requests[a].handle != "" ==> requests[a].handle != requests[b].handle)
  }

  predicate HasDigest(requests: map<string, Request>, id: string, digest: string) {
    id in requests && requests[id].input.digest == digest
  }

  predicate HasOperation(requests: map<string, Request>, id: string, operationID: string) {
    id in requests && requests[id].input.operationID == operationID
  }

  predicate HasHandle(requests: map<string, Request>, id: string, handle: string) {
    id in requests && requests[id].handle == handle
  }

  /** No derived row without its request. */
  ghost predicate NoOrphans(t: Tables) {
    && (forall d | d in t.registry :: exists id :: HasDigest(t.requests, id, d))
    && (forall o | o in t.payments :: exists id :: HasOperation(t.requests, id, o))
    && (forall h | h in t.handles :: h != "" && exists id :: HasHandle(t.requests, id, h))
    && (forall k | k in t.outbox :: k.0 in t.requests)
  }

  ghost predicate Consistent(cfg: Config, t: Tables) {
    && (forall id | id in t.requests :: RowConsistent(cfg, id, ViewOf(t, id)))
    && RowsDistinct(t.requests)
    && NoOrphans(t)
  }

  // ---------- Rows only move forward ----------

  predicate StateReaches(a: ActivationState, b: ActivationState) {
    match a
    case SignRequested => true
    case HandlePrepared => b != SignRequested && b != SignerRefused
    case ActivePendingMirror => ActiveState(b)
    case ActiveMirrored => b == ActiveMirrored || b == ActivationAcknowledged
    case _ => a == b
  }

  /** What an earlier snapshot of a row still says about the row now. */
  predicate Progress(a: Request, b: Request) {
    && a.input == b.input && a.inputHash == b.inputHash && StateReaches(a.state, b.state)
    && (a.handle != "" || ActiveState(a.state) ==> b.handle == a.handle)
    && (ActiveState(a.state) ==> b.activatedAt == a.activatedAt)
    && (Mirrored(a.state) ==> b.mirrorDigest == a.mirrorDigest)
  }

  predicate ReservationMoves(a: ReservationState, b: ReservationState) {
    a == b || a == Reserved
  }

  ghost predicate Forward(t: Tables, u: Tables) {
    && (forall id | id in t.requests :: id in u.requests && Progress(t.requests[id], u.requests[id]))
    && (forall r | r in t.reservations ::
        r in u.reservations && ReservationMoves(t.reservations[r].state, u.reservations[r].state))
    && (forall d | d in t.registry :: d in u.registry && MirrorObject(u.registry[d]) == MirrorObject(t.registry[d]))
  }

  lemma ForwardTransitive(t: Tables, u: Tables, v: Tables)
    requires Forward(t, u) && Forward(u, v)
    ensures Forward(t, v)
  {
    hide MirrorObject;
    forall id | id in t.requests ensures id in v.requests && Progress(t.requests[id], v.requests[id]) {
      assert Progress(t.requests[id], u.requests[id]) && Progress(u.requests[id], v.requests[id]);
    }
    forall r | r in t.reservations ensures r in v.reservations
        && ReservationMoves(t.reservations[r].state, v.reservations[r].state) {
      assert r in u.reservations;
    }
  }

  // ---------- One row at a time ----------

  ghost predicate SameBut<K(!new), V>(m: map<K, V>, n: map<K, V>, k: K) {
    forall x | x != k :: Lookup(m, x) == Lookup(n, x)
  }

  ghost predicate SameOutboxBut(m: map<(string, OutboxKind), OutboxState>, n: map<(string, OutboxKind), OutboxState>,
        id: string) {
    forall x: (string, OutboxKind) | x.0 != id :: Lookup(m, x) == Lookup(n, x)
  }

  /** u differs from t only in the row of request id and the rows derived from it. */
  ghost predicate TouchesOnly(t: Tables, u: Tables, id: string) {
    && id in u.requests && SameBut(t.requests, u.requests, id)
    && var r := u.requests[id];
       && SameBut(t.reservations, u.reservations, r.input.reservationID)
           && SameBut(t.registry, u.registry, r.input.digest)
       && SameBut(t.payments, u.payments, r.input.operationID)
       && (if r.handle == "" then u.handles == t.handles else SameBut(t.handles, u.handles, r.handle))
       && SameOutboxBut(t.outbox, u.outbox, id)
  }

  lemma OtherViewUnchanged(t: Tables, u: Tables, id: string, o: string)
    requires TouchesOnly(t, u, id) && RowsDistinct(u.requests) && o in u.requests && o != id
    ensures o in t.requests && ViewOf(u, o) == ViewOf(t, o)
  {
    hide RowsDistinct;
    KeysDiffer(u.requests, id, o);
    assert Lookup(t.requests, o) == Lookup(u.requests, o);
  }

  lemma KeysDiffer(requests: map<string, Request>, a: string, b: string)
    requires RowsDistinct(requests) && a in requests && b in requests && a != b
    ensures requests[a].input.reservationID != requests[b].input.reservationID
        && requests[a].input.digest != requests[b].input.digest
    ensures requests[a].input.operationID != requests[b].input.operationID && (requests[b].handle != "" ==>
        requests[a].handle != requests[b].handle)
  {
  }

  ghost predicate SameIdentity(t: Tables, u: Tables, id: string)
    requires id in u.requests
  {
    id in t.requests ==>
      u.requests[id].input == t.requests[id].input
          && (t.requests[id].handle != "" ==> u.requests[id].handle == t.requests[id].handle)
  }

  lemma RequestsKept(t: Tables, u: Tables, id: string, o: string)
    requires id in u.requests && SameBut(t.requests, u.requests, id) && SameIdentity(t, u, id) && o in t.requests
    ensures o in u.requests && u.requests[o].input == t.requests[o].input
    ensures t.requests[o].handle != "" ==> u.requests[o].handle == t.requests[o].handle
  {
    assert o != id ==> Lookup(t.requests, o) == Lookup(u.requests, o);
  }

  lemma NoNewOrphans(t: Tables, u: Tables, id: string)
    requires NoOrphans(t) && TouchesOnly(t, u, id) && SameIdentity(t, u, id)
    ensures NoOrphans(u)
  {
    hide TouchesOnly;
    RegistryOwned(t, u, id);
    HandlesOwned(t, u, id);
    PaymentsOwned(t, u, id);
    forall k | k in u.outbox ensures k.0 in u.requests {
      OutboxOwned(t, u, id, k);
    }
  }

  lemma OutboxOwned(t: Tables, u: Tables, id: string, k: (string, OutboxKind))
    requires NoOrphans(t) && TouchesOnly(t, u, id) && SameIdentity(t, u, id) && k in u.outbox
    ensures k.0 in u.requests
  {
    if k.0 != id {
      assert Lookup(t.outbox, k) == Lookup(u.outbox, k);
      RequestsKept(t, u, id, k.0);
    }
  }

  lemma RegistryOwned(t: Tables, u: Tables, id: string)
    requires NoOrphans(t) && TouchesOnly(t, u, id) && SameIdentity(t, u, id)
    ensures forall d | d in u.registry :: exists o :: HasDigest(u.requests, o, d)
  {
    forall d | d in u.registry ensures exists o :: HasDigest(u.requests, o, d) {
      if d == u.requests[id].input.digest {
        assert HasDigest(u.requests, id, d);
      } else {
        assert Lookup(t.registry, d) == Lookup(u.registry, d);
        var o :| HasDigest(t.requests, o, d);
        RequestsKept(t, u, id, o);
        assert HasDigest(u.requests, o, d);
      }
    }
  }

  lemma PaymentsOwned(t: Tables, u: Tables, id: string)
    requires NoOrphans(t) && TouchesOnly(t, u, id) && SameIdentity(t, u, id)
    ensures forall p | p in u.payments :: exists o :: HasOperation(u.requests, o, p)
  {
    forall p | p in u.payments ensures exists o :: HasOperation(u.requests, o, p) {
      if p == u.requests[id].input.operationID {
        assert HasOperation(u.requests, id, p);
      } else {
        assert Lookup(t.payments, p) == Lookup(u.payments, p);
        var o :| HasOperation(t.requests, o, p);
        RequestsKept(t, u, id, o);
        assert HasOperation(u.requests, o, p);
      }
    }
  }

  lemma HandlesOwned(t: Tables, u: Tables, id: string)
    requires NoOrphans(t) && TouchesOnly(t, u, id) && SameIdentity(t, u, id)
    ensures forall h | h in u.handles :: h != "" && exists o :: HasHandle(u.requests, o, h)
  {
    forall h | h in u.handles ensures h != "" && exists o :: HasHandle(u.requests, o, h) {
      if h == u.requests[id].handle && h != "" {
        assert HasHandle(u.requests, id, h);
      } else {
        assert Lookup(t.handles, h) == Lookup(u.handles, h);
        var o :| HasHandle(t.requests, o, h);
        RequestsKept(t, u, id, o);
        assert HasHandle(u.requests, o, h);
      }
    }
  }

  /** The frame rule: a transaction that touches one row keeps the tables consistent if it keeps that row consistent. */
  lemma OneRowKeeps(cfg: Config, t: Tables, u: Tables, id: string)
    requires Consistent(cfg, t) && TouchesOnly(t, u, id) && SameIdentity(t, u, id)
    requires RowsDistinct(u.requests) && RowConsistent(cfg, id, ViewOf(u, id))
    ensures Consistent(cfg, u)
  {
    hide RowConsistent, RowsDistinct, NoOrphans, ViewOf, SameBut;
    forall o | o in u.requests ensures RowConsistent(cfg, o, ViewOf(u, o)) {
      if o != id {
        OtherViewUnchanged(t, u, id, o);
      }
    }
    NoNewOrphans(t, u, id);
  }

  /** Changing one row keeps the UNIQUE constraints if its handle is new to the table or unchanged. */
  lemma RowsStayDistinct(t: map<string, Request>, id: string, r: Request)
    requires RowsDistinct(t) && id in t && r.input == t[id].input
    requires r.handle == t[id].handle || (r.handle != "" && forall o | o in t && o != id :: t[o].handle != r.handle)
    ensures RowsDistinct(t[id := r])
  {
  }

  /** Committing one changed row: what is left to show is that its own view is consistent and moves forward. */
  ghost predicate OneRowStep(cfg: Config, t: Tables, u: Tables, id: string) {
    && id in t.requests && id in u.requests && u.requests == t.requests[id := u.requests[id]] && TouchesOnly(t, u, id)
    && RowConsistent(cfg, id, ViewOf(u, id)) && Progress(t.requests[id], u.requests[id])
    && (var key := t.requests[id].input.reservationID;
        key in t.reservations && key in u.reservations
            && ReservationMoves(t.reservations[key].state, u.reservations[key].state))
    && (var d := t.requests[id].input.digest;
        d in t.registry ==> d in u.registry && MirrorObject(u.registry[d]) == MirrorObject(t.registry[d]))
  }

  lemma OneRowForward(cfg: Config, t: Tables, u: Tables, id: string)
    requires OneRowStep(cfg, t, u, id)
    ensures Forward(t, u)
  {
    hide RowConsistent, ViewOf, StateReaches;
    forall o | o in t.requests ensures o in u.requests && Progress(t.requests[o], u.requests[o]) {
      if o != id {
        assert u.requests[o] == t.requests[o];
        ProgressReflexive(t.requests[o]);
      }
    }
    forall k | k in t.reservations ensures k in u.reservations
        && ReservationMoves(t.reservations[k].state, u.reservations[k].state) {
      assert k != u.requests[id].input.reservationID ==> Lookup(t.reservations, k) == Lookup(u.reservations, k);
    }
    forall d | d in t.registry ensures d in u.registry && MirrorObject(u.registry[d]) == MirrorObject(t.registry[d]) {
      assert d != u.requests[id].input.digest ==> Lookup(t.registry, d) == Lookup(u.registry, d);
    }
  }

  lemma ProgressReflexive(r: Request)
    ensures Progress(r, r)
  {
  }

  lemma OneRowStepKeeps(cfg: Config, t: Tables, u: Tables, id: string)
    requires Consistent(cfg, t) && OneRowStep(cfg, t, u, id)
    requires u.requests[id].handle == t.requests[id].handle
             || (u.requests[id].handle != "" && forall o | o in t.requests
                 && o != id :: t.requests[o].handle != u.requests[id].handle)
    ensures Consistent(cfg, u) && Forward(t, u)
  {
    hide RowConsistent, RowsDistinct, NoOrphans, ViewOf, TouchesOnly, Forward;
    RowsStayDistinct(t.requests, id, u.requests[id]);
    OneRowKeeps(cfg, t, u, id);
    OneRowForward(cfg, t, u, id);
  }

  lemma ConsistentRow(cfg: Config, t: Tables, id: string)
    requires Consistent(cfg, t) && id in t.requests
    ensures RowConsistent(cfg, id, ViewOf(t, id))
  {
  }

  // ---------- Every transaction keeps the tables consistent and only moves rows forward ----------

  lemma ActivateKeeps(cfg: Config, t: Tables, held: Option<Held>, id: string, now: Time, committed: bool)
    requires Consistent(cfg, t)
    ensures var u := Activate(cfg, t, held, id, now, committed).0; Consistent(cfg, u) && Forward(t, u)
  {
    hide Hash, Identifier, OpaqueHandle, MirrorDigest, LeaseHolds, RowsDistinct, NoOrphans, Consistent, Forward;
    var u := Activate(cfg, t, held, id, now, committed).0;
    if u != t {
      ConsistentRow(cfg, t, id);
      OneRowStepKeeps(cfg, t, u, id);
    } else {
      ForwardReflexive(t);
    }
  }

  lemma RecordPreparedKeeps(cfg: Config, t: Tables, held: Option<Held>, id: string, handle: string, now: Time)
    requires Consistent(cfg, t)
    ensures var u := RecordPrepared(cfg, t, held, id, handle, now).0; Consistent(cfg, u) && Forward(t, u)
  {
    hide Hash, Identifier, OpaqueHandle, MirrorDigest, LeaseHolds, RowsDistinct, NoOrphans, Consistent, Forward;
    var u := RecordPrepared(cfg, t, held, id, handle, now).0;
    if u != t {
      ConsistentRow(cfg, t, id);
      HandleIsUnused(cfg, t, handle);
      OneRowStepKeeps(cfg, t, u, id);
    } else {
      ForwardReflexive(t);
    }
  }

  lemma MarkPrimaryMirroredKeeps(cfg: Config, t: Tables, held: Option<Held>, id: string, digest: string, now: Time)
    requires Consistent(cfg, t)
    ensures var u := MarkPrimaryMirrored(cfg, t, held, id, digest, now).0; Consistent(cfg, u) && Forward(t, u)
  {
    hide Hash, Identifier, OpaqueHandle, LeaseHolds, RowsDistinct, NoOrphans, Consistent, Forward;
    var u := MarkPrimaryMirrored(cfg, t, held, id, digest, now).0;
    if u != t {
      ConsistentRow(cfg, t, id);
      OneRowStepKeeps(cfg, t, u, id);
    } else {
      ForwardReflexive(t);
    }
  }

  lemma MarkAcknowledgedKeeps(cfg: Config, t: Tables, held: Option<Held>, id: string, handle: string, now: Time)
    requires Consistent(cfg, t)
    ensures var u := MarkAcknowledged(cfg, t, held, id, handle, now).0; Consistent(cfg, u) && Forward(t, u)
  {
    hide Hash, Identifier, OpaqueHandle, MirrorDigest, LeaseHolds, RowsDistinct, NoOrphans, Consistent, Forward;
    var u := MarkAcknowledged(cfg, t, held, id, handle, now).0;
    if u != t {
      ConsistentRow(cfg, t, id);
      OneRowStepKeeps(cfg, t, u, id);
    } else {
      ForwardReflexive(t);
    }
  }

  lemma RefuseKeeps(cfg: Config, t: Tables, held: Option<Held>, id: string, now: Time)
    requires Consistent(cfg, t)
    ensures var u := Refuse(cfg, t, held, id, now).0; Consistent(cfg, u) && Forward(t, u)
  {
    hide Hash, Identifier, OpaqueHandle, MirrorDigest, LeaseHolds, RowsDistinct, NoOrphans, Consistent, Forward;
    var u := Refuse(cfg, t, held, id, now).0;
    if u != t {
      ConsistentRow(cfg, t, id);
      OneRowStepKeeps(cfg, t, u, id);
    } else {
      ForwardReflexive(t);
    }
  }

  lemma ExpireUnactivatedKeeps(cfg: Config, t: Tables, held: Option<Held>, id: string, p: L.UnactivatedProof, now: Time)
    requires Consistent(cfg, t)
    ensures var u := ExpireUnactivated(cfg, t, held, id, p, now).0; Consistent(cfg, u) && Forward(t, u)
  {
    hide Hash, Identifier, OpaqueHandle, MirrorDigest, LeaseHolds, RowsDistinct, NoOrphans, Consistent, Forward,
        ValidUnactivatedProof, OneRowStep;
    var u := ExpireUnactivated(cfg, t, held, id, p, now).0;
    if u != t {
      ExpiredRow(cfg, t, held, id, p, now);
      OneRowStepKeeps(cfg, t, u, id);
    } else {
      ForwardReflexive(t);
    }
  }

  lemma ExpiredRow(cfg: Config, t: Tables, held: Option<Held>, id: string, p: L.UnactivatedProof, now: Time)
    requires Consistent(cfg, t) && ExpireUnactivated(cfg, t, held, id, p, now).0 != t
    ensures OneRowStep(cfg, t, ExpireUnactivated(cfg, t, held, id, p, now).0, id)
  {
    hide Hash, Identifier, OpaqueHandle, MirrorDigest, LeaseHolds, RowsDistinct, NoOrphans, Consistent,
        ValidUnactivatedProof, HandleElsewhere, StateReaches, EntryFor;
    ConsistentRow(cfg, t, id);
    if t.requests[id].handle == "" && p.handleID != "" { UnusedElsewhere(cfg, t, id, p.handleID); }
    ExpiryReached(t.requests[id].state);
  }

  lemma ExpiryReached(s: ActivationState)
    ensures (s == SignRequested || s == HandlePrepared) ==> StateReaches(s, ExpiredUnactivated)
  {
  }

  lemma UnusedElsewhere(cfg: Config, t: Tables, id: string, handle: string)
    requires Consistent(cfg, t) && id in t.requests && t.requests[id].handle != handle
        && !HandleElsewhere(t.requests, id, handle)
    ensures handle !in t.handles
  {
    HandleIsUnused(cfg, t, handle);
  }

  lemma ClaimKeeps(cfg: Config, t: Tables, id: string, worker: string, token: string, now: Time, duration: int,
        expired: bool)
    requires Consistent(cfg, t)
    ensures var u := Claim(t, id, worker, token, now, duration, expired).0; Consistent(cfg, u) && Forward(t, u)
  {
    hide Hash, Identifier, OpaqueHandle, MirrorDigest, LeaseHolds, RowsDistinct, NoOrphans, Consistent, Forward;
    var u := Claim(t, id, worker, token, now, duration, expired).0;
    if u != t {
      ConsistentRow(cfg, t, id);
      OneRowStepKeeps(cfg, t, u, id);
    } else {
      ForwardReflexive(t);
    }
  }

  lemma ReturnLeaseKeeps(cfg: Config, t: Tables, held: Held, next: Time)
    requires Consistent(cfg, t)
    ensures var u := ReturnLease(t, held, next).0; Consistent(cfg, u) && Forward(t, u)
  {
    hide Hash, Identifier, OpaqueHandle, MirrorDigest, LeaseHolds, RowsDistinct, NoOrphans, Consistent, Forward;
    var u := ReturnLease(t, held, next).0;
    if u != t {
      ConsistentRow(cfg, t, held.requestID);
      OneRowStepKeeps(cfg, t, u, held.requestID);
    } else {
      ForwardReflexive(t);
    }
  }

  /** A handle no request carries has no handle row either. */
  lemma HandleIsUnused(cfg: Config, t: Tables, handle: string)
    requires Consistent(cfg, t) && forall id | id in t.requests :: t.requests[id].handle != handle
    ensures handle !in t.handles
  {
    hide RowConsistent, ViewOf;
  }

  lemma CreateKeeps(cfg: Config, t: Tables, i: ActivationInput, now: Time, signerBound: bool)
    requires Consistent(cfg, t)
    ensures var u := Create(cfg, t, i, now, signerBound).0; Consistent(cfg, u) && Forward(t, u)
  {
    hide Create, Consistent, Forward, RowConsistent, ViewOf, TouchesOnly, RowsDistinct;
    var (u, result) := Create(cfg, t, i, now, signerBound);
    CreateForward(cfg, t, i, now, signerBound);
    if result.Ok? {
      NewRowIsConsistent(cfg, t, i, now, signerBound);
      OneRowKeeps(cfg, t, u, i.requestID);
    }
  }

  lemma CreateForward(cfg: Config, t: Tables, i: ActivationInput, now: Time, signerBound: bool)
    ensures var (u, r) := Create(cfg, t, i, now, signerBound); Forward(t, u) && (r.Err? ==> u == t)
  {
    hide ValidInput, Hash;
  }

  lemma NewRowIsConsistent(cfg: Config, t: Tables, i: ActivationInput, now: Time, signerBound: bool)
    requires Consistent(cfg, t) && Create(cfg, t, i, now, signerBound).1.Ok?
    ensures var u := Create(cfg, t, i, now, signerBound).0;
            TouchesOnly(t, u, i.requestID) && SameIdentity(t, u, i.requestID) && RowsDistinct(u.requests)
                && RowConsistent(cfg, i.requestID, ViewOf(u, i.requestID))
  {
    hide Hash, Identifier, OpaqueHandle, Address, RowsDistinct, RowConsistent, NoOrphans;
    var u := Create(cfg, t, i, now, signerBound).0;
    NewKeysAreUnused(t, i);
    NewRowIsDistinct(t.requests, u.requests[i.requestID]);
    NewViewIsConsistent(cfg, i, ViewOf(u, i.requestID));
  }

  lemma NewViewIsConsistent(cfg: Config, i: ActivationInput, v: View)
    requires Hash(i.requestID) && Hash(i.operationID) && Identifier(i.actionID)
        && L.ValidWindow(i.validAfter, i.validUntil)
    requires v.r.input == i && v.r.inputHash == InputHash(cfg, i) && v.r.handle == "" && v.r.state == SignRequested
        && v.r.mirrorDigest == ""
    requires v.reservation.Some? && v.reservation.value.state == Reserved && v.entry == None && v.payment == None
        && v.handleRow == None
    requires v.prepare == Some(Pending) && v.mirror == v.ack == v.secondary == None
    ensures RowConsistent(cfg, i.requestID, v)
  {
    hide Hash, Identifier, OpaqueHandle;
  }

  lemma NewRowIsDistinct(requests: map<string, Request>, r: Request)
    requires RowsDistinct(requests) && r.input.requestID !in requests && r.handle == ""
    requires forall id | id in requests ::
               var other := requests[id].input;
               && other.authorizationID != r.input.authorizationID && other.operationID != r.input.operationID
               && other.reservationID != r.input.reservationID && other.digest != r.input.digest
    ensures RowsDistinct(requests[r.input.requestID := r])
  {
  }

  lemma NewKeysAreUnused(t: Tables, i: ActivationInput)
    requires NoOrphans(t) && RequestIsUnique(t, i)
    ensures i.digest !in t.registry && i.operationID !in t.payments && forall kind :: (i.requestID, kind) !in t.outbox
  {
  }

  lemma AuthorizeKeeps(cfg: Config, t: Tables, authorizationID: string, a: Authorization, expiresAt: Time)
    requires Consistent(cfg, t)
    ensures var u := Authorize(t, authorizationID, a, expiresAt); Consistent(cfg, u) && Forward(t, u)
  {
    hide RowConsistent, RowsDistinct, NoOrphans, Progress, ViewOf;
    var u := Authorize(t, authorizationID, a, expiresAt);
    assert NoOrphans(u) by { SameTablesNoOrphans(t, u); }
    forall id | id in u.requests ensures RowConsistent(cfg, id, ViewOf(u, id))
        && Progress(t.requests[id], u.requests[id]) {
      ConsistentRow(cfg, t, id);
      ProgressReflexive(t.requests[id]);
      ConsistentReservation(cfg, id, ViewOf(t, id));
      AuthorizedView(t, authorizationID, a, expiresAt, id);
    }
  }

  lemma AuthorizedView(t: Tables, authorizationID: string, a: Authorization, expiresAt: Time, id: string)
    requires id in t.requests && ViewOf(t, id).reservation.Some?
    ensures ViewOf(Authorize(t, authorizationID, a, expiresAt), id) == ViewOf(t, id)
  {
  }

  lemma SameTablesNoOrphans(t: Tables, u: Tables)
    requires NoOrphans(t)
    requires u.requests == t.requests && u.registry == t.registry && u.payments == t.payments
        && u.handles == t.handles && u.outbox == t.outbox
    ensures NoOrphans(u)
  {
  }

  lemma ConsistentReservation(cfg: Config, id: string, v: View)
    requires RowConsistent(cfg, id, v)
    ensures v.reservation.Some?
  {
  }

  lemma ForwardReflexive(t: Tables)
    ensures Forward(t, t)
  {
  }
}
