/**
  The activation store: one field per table, one method per transaction. Statements change rows in
  the order of the source; a statement that affects no row rolls the whole transaction back.
  Every method commits exactly the atomic step of ActivationTables.
 */
module ActivationStores {
  import opened Text
  import opened ActivationTables
  import opened ActivationInvariants
  import L = SignerLedger

  predicate Authorizes(requests: map<string, Request>, id: string, authorizationID: string) {
    id in requests && requests[id].input.authorizationID == authorizationID
  }

  /** requestOnce: replay the request of this authorization if its input is the same, otherwise create it. */
  ghost predicate Requests(cfg: Config, t: Tables, i: ActivationInput, now: Time, signerBound: bool, t': Tables,
        r: Result<(Request, bool)>) {
    if !Hash(i.requestID) then t' == t && r == Err(InvalidInput)
    else if id :| Authorizes(t.requests, id, i.authorizationID) then
      t' == t && r == (if t.requests[id].inputHash == InputHash(cfg, i) then Ok((t.requests[id], true))
          else Err(BindingMismatch))
    else
      var (created, result) := Create(cfg, t, i, now, signerBound);
      t' == created && r == (if result.Ok? then Ok((result.value, false)) else Err(result.error))
  }

  class ActivationStore {
    const cfg: Config
    var requests: map<string, Request>
    var authorizations: map<string, Authorization>
    var reservations: map<string, Reservation>
    var registry: map<string, RegistryEntry>
    var handles: map<string, HandleRow>
    var payments: map<string, PaymentRow>
    var outbox: map<(string, OutboxKind), OutboxState>

    function Value(): Tables
      reads this
    {
      Tables(requests, authorizations, reservations, registry, handles, payments, outbox)
    }

    constructor (cfg: Config, t: Tables)
      ensures Value() == t && this.cfg == cfg
    {
      this.cfg := cfg;
      requests, authorizations, reservations := t.requests, t.authorizations, t.reservations;
      registry, handles, payments, outbox := t.registry, t.handles, t.payments, t.outbox;
    }

    method Rollback(before: Tables)
      modifies this
      ensures Value() == before
    {
      requests, authorizations, reservations := before.requests, before.authorizations, before.reservations;
      registry, handles, payments, outbox := before.registry, before.handles, before.payments, before.outbox;
    }

    method Deliver(requestID: string, kind: OutboxKind) returns (changed: bool)
      modifies this`outbox
      ensures changed == old(IsPending(Value(), requestID, kind))
      ensures outbox == if changed then old(outbox)[(requestID, kind) := Delivered] else old(outbox)
    {
      changed := (requestID, kind) in outbox && outbox[(requestID, kind)] == Pending;
      if changed { outbox := outbox[(requestID, kind) := Delivered]; }
    }

    method Enqueue(requestID: string, kind: OutboxKind)
      modifies this`outbox
      ensures outbox == InsertOutbox(old(outbox), requestID, kind)
    {
      if (requestID, kind) !in outbox { outbox := outbox[(requestID, kind) := Pending]; }
    }

    method Release(reservationID: string) returns (changed: bool)
      modifies this`reservations
      ensures changed == old(reservationID in reservations && reservations[reservationID].state == Reserved)
      ensures reservations == if changed then old(reservations)[reservationID :=
          old(reservations)[reservationID].(state := Released)] else old(reservations)
    {
      changed := reservationID in reservations && reservations[reservationID].state == Reserved;
      if changed { reservations := reservations[reservationID := reservations[reservationID].(state := Released)]; }
    }

    /** requireRuntimeLease: the caller's lease is for this request, well formed, current and not expired. */
    method RequireRuntimeLease(held: Option<Held>, requestID: string, now: Time) returns (ok: bool)
      ensures ok == LeaseHolds(cfg, Value(), held, requestID, now)
    {
      hide Hash, Identifier;
      if !cfg.leasesRequired { return true; }
      if held.None? || held.value.requestID != requestID || !Identifier(held.value.worker)
          || !Hash(held.value.token) { return false; }
      if requestID !in requests || requests[requestID].lease.None? { return false; }
      var lease := requests[requestID].lease.value;
      return lease.owner == held.value.worker && lease.token == held.value.token && lease.expiresAt > now;
    }

    method Request(i: ActivationInput, now: Clock, signerBound: bool) returns (r: Result<(Request, bool)>)
      requires Consistent(cfg, Value())
      modifies this
      ensures Requests(cfg, old(Value()), i, now, signerBound, Value(), r)
      ensures Consistent(cfg, Value()) && Forward(old(Value()), Value())
    {
      hide Consistent, Forward, ValidInput, Hash, RequestIsUnique;
      ghost var t := Value();
      CreateKeeps(cfg, t, i, now, signerBound);
      ForwardReflexive(t);
      if !Hash(i.requestID) { return Err(InvalidInput); }
      if id :| id in requests && requests[id].input.authorizationID == i.authorizationID {
        OneRequestPerAuthorization(cfg, t, id, i.authorizationID);
        if requests[id].inputHash != InputHash(cfg, i) { return Err(BindingMismatch); }
        return Ok((requests[id], true));
      }
      assert forall id :: !Authorizes(requests, id, i.authorizationID);
      if !ValidInput(cfg, i, now) { return Err(InvalidInput); }
      if i.authorizationID !in authorizations
          || authorizations[i.authorizationID].intentID != i.operationID { return Err(BindingMismatch); }
      if authorizations[i.authorizationID].reservationID != i.reservationID { return Err(BindingMismatch); }
      if i.reservationID !in reservations
          || reservations[i.reservationID].operationID != i.operationID { return Err(BindingMismatch); }
      var reservation := reservations[i.reservationID];
      if reservation.state != Reserved || reservation.expiresAt <= now { return Err(BadState); }
      if !Hash(authorizations[i.authorizationID].snapshotHash) || !signerBound { return Err(BindingMismatch); }
      if !RequestIsUnique(Value(), i) { return Err(BindingMismatch); }
      var request := ActivationTables.Request(i, InputHash(cfg, i), "", SignRequested, "", now, 0, None, 0);
      requests := requests[i.requestID := request];
      Enqueue(i.requestID, SignPrepare);
      return Ok((request, false));
    }

    method RecordPrepared(held: Option<Held>, requestID: string, handle: string,
          now: Clock) returns (r: Result<Request>)
      modifies this
      ensures (Value(), r) == ActivationTables.RecordPrepared(cfg, old(Value()), held, requestID, handle, now)
    {
      hide Hash, OpaqueHandle, LeaseHolds;
      var before := Value();
      if !Hash(requestID) || !OpaqueHandle(handle) { return Err(InvalidInput); }
      var leased := RequireRuntimeLease(held, requestID, now);
      if !leased { return Err(LeaseLost); }
      if requestID !in requests { return Err(NotFound); }
      var row := requests[requestID];
      if row.state == SignRequested && now < row.input.validUntil {
        if exists id | id in requests :: requests[id].handle == handle { return Err(Conflict); }
        requests := requests[requestID := row.(handle := handle, state := HandlePrepared)];
        var delivered := Deliver(requestID, SignPrepare);
        if !delivered { Rollback(before); return Err(OutboxUnavailable); }
        return Ok(requests[requestID]);
      }
      if row.handle == handle && (row.state == HandlePrepared || ActiveState(row.state)) { return Ok(row); }
      return Err(BadState);
    }

    method Activate(held: Option<Held>, requestID: string, now: Clock,
          committed: bool) returns (r: Result<RegistryEntry>)
      modifies this
      ensures (Value(), r) == ActivationTables.Activate(cfg, old(Value()), held, requestID, now, committed)
    {
      hide Hash, LeaseHolds, WriteActivation, ActiveState;
      if !Hash(requestID) { return Err(InvalidInput); }
      if requestID !in requests { return Err(NotFound); }
      var leased := RequireRuntimeLease(held, requestID, now);
      if !leased { return Err(LeaseLost); }
      var row := requests[requestID];
      if ActiveState(row.state) {
        if row.input.digest !in registry { return Err(Conflict); }
        return Ok(registry[row.input.digest]);
      }
      if row.state != HandlePrepared || row.handle == "" || row.input.validUntil <= now
          || now < row.input.validAfter { return Err(BadState); }
      var a, reservationID := row.input.authorizationID, row.input.reservationID;
      if a !in authorizations || authorizations[a].intentID != row.input.operationID
          || authorizations[a].reservationID != reservationID
          || reservationID !in reservations { return Err(Conflict); }
      if reservations[reservationID].state != Reserved
          || reservations[reservationID].expiresAt <= now { return Err(BadState); }
      r := ActivateRows(requestID, now, committed);
    }

    /** The statements of an activation after its guards, each able to roll back those before it. */
    method ActivateRows(requestID: string, now: Clock, committed: bool) returns (r: Result<RegistryEntry>)
      requires requestID in requests && requests[requestID].input.reservationID in reservations
      modifies this
      ensures (Value(), r) == WriteActivation(old(Value()), requestID, now, committed)
    {
      hide EntryIsUnique, InsertOutbox;
      var before := Value();
      var row := requests[requestID];
      var a, reservationID := row.input.authorizationID, row.input.reservationID;
      reservations := reservations[reservationID := reservations[reservationID].(state := AuthorizationLive)];
      var entry := EntryFor(row, now);
      if !EntryIsUnique(before, entry) || row.handle in handles { Rollback(before); return Err(Conflict); }
      registry := registry[entry.digest := entry];
      if !committed || row.input.operationID in payments { Rollback(before); return Err(BindingMismatch); }
      payments := payments[row.input.operationID := PaymentRow(a, reservationID, row.input.digest)];
      handles := handles[row.handle := HandleRow(row.input.operationID, row.input.canonicalPayloadHash,
          row.input.digest, row.input.nonce, row.input.validUntil)];
      requests := requests[requestID := row.(state := ActivePendingMirror, activatedAt := now)];
      Enqueue(requestID, Mirror);
      return Ok(entry);
    }

    method MarkPrimaryMirrored(held: Option<Held>, requestID: string, digest: string,
          now: Clock) returns (r: Result<Request>)
      modifies this
      ensures (Value(), r) == ActivationTables.MarkPrimaryMirrored(cfg, old(Value()), held, requestID, digest, now)
    {
      hide Hash, LeaseHolds, InsertOutbox, MirrorDigest;
      var before := Value();
      if !Hash(requestID) || !Hash(digest) { return Err(InvalidInput); }
      if requestID !in requests { return Err(NotFound); }
      var leased := RequireRuntimeLease(held, requestID, now);
      if !leased { return Err(LeaseLost); }
      var row := requests[requestID];
      if row.state == ActiveMirrored || row.state == ActivationAcknowledged {
        if row.mirrorDigest != digest { return Err(BindingMismatch); }
        return Ok(row);
      }
      if row.state != ActivePendingMirror { return Err(BadState); }
      if row.input.digest !in registry { return Err(Conflict); }
      var entry := registry[row.input.digest];
      if digest != MirrorDigest(cfg, entry) { return Err(BindingMismatch); }
      registry := registry[row.input.digest := if entry.primaryMirrorDigest == ""
          then entry.(primaryMirrorDigest := digest) else entry];
      requests := requests[requestID := row.(state := ActiveMirrored, mirrorDigest := digest)];
      var delivered := Deliver(requestID, Mirror);
      if !delivered { Rollback(before); return Err(OutboxUnavailable); }
      Enqueue(requestID, Ack);
      Enqueue(requestID, SecondaryMirror);
      return Ok(requests[requestID]);
    }

    method MarkAcknowledged(held: Option<Held>, requestID: string, handle: string,
          now: Clock) returns (r: Result<Request>)
      modifies this
      ensures (Value(), r) == ActivationTables.MarkAcknowledged(cfg, old(Value()), held, requestID, handle, now)
    {
      hide Hash, OpaqueHandle, LeaseHolds;
      var before := Value();
      if !Hash(requestID) || !OpaqueHandle(handle) { return Err(InvalidInput); }
      var leased := RequireRuntimeLease(held, requestID, now);
      if !leased { return Err(LeaseLost); }
      if requestID !in requests { return Err(NotFound); }
      var row := requests[requestID];
      if row.state == ActiveMirrored && row.handle == handle {
        requests := requests[requestID := row.(state := ActivationAcknowledged)];
        var delivered := Deliver(requestID, Ack);
        if !delivered { Rollback(before); return Err(OutboxUnavailable); }
        return Ok(requests[requestID]);
      }
      if row.state == ActivationAcknowledged && row.handle == handle { return Ok(row); }
      return Err(BadState);
    }

    method Refuse(held: Option<Held>, requestID: string, now: Clock) returns (r: Result<Request>)
      modifies this
      ensures (Value(), r) == ActivationTables.Refuse(cfg, old(Value()), held, requestID, now)
    {
      hide LeaseHolds;
      var before := Value();
      if requestID !in requests { return Err(NotFound); }
      var leased := RequireRuntimeLease(held, requestID, now);
      if !leased { return Err(LeaseLost); }
      var row := requests[requestID];
      if row.state != SignRequested || row.handle != "" { return Err(BadState); }
      var changed := Release(row.input.reservationID);
      if !changed { Rollback(before); return Err(BadState); }
      requests := requests[requestID := row.(state := SignerRefused, lease := None, nextAttemptAt := now)];
      if !IsPending(Value(), requestID, SignPrepare) { Rollback(before); return Err(BadState); }
      outbox := outbox[(requestID, SignPrepare) := Cancelled];
      return Ok(requests[requestID]);
    }

    method ExpireUnactivated(held: Option<Held>, requestID: string, p: L.UnactivatedProof,
          now: Clock) returns (r: Result<Request>)
      modifies this
      ensures (Value(), r) == ActivationTables.ExpireUnactivated(cfg, old(Value()), held, requestID, p, now)
    {
      hide LeaseHolds, ValidUnactivatedProof, WriteExpiry;
      if requestID !in requests { return Err(NotFound); }
      var leased := RequireRuntimeLease(held, requestID, now);
      if !leased { return Err(LeaseLost); }
      var row := requests[requestID];
      if (row.state != SignRequested && row.state != HandlePrepared)
          || now < row.input.validUntil { return Err(BadState); }
      if !ValidUnactivatedProof(cfg, row, p, now) { return Err(BindingMismatch); }
      r := ExpireRows(requestID, p.handleID);
    }

    /** The statements of an expiry after its guards, each able to roll back those before it. */
    method ExpireRows(requestID: string, handleID: string) returns (r: Result<Request>)
      requires requestID in requests
      modifies this
      ensures (Value(), r) == WriteExpiry(old(Value()), requestID, handleID)
    {
      hide CancelPending, HandleElsewhere;
      var before := Value();
      var row := requests[requestID];
      var changed := Release(row.input.reservationID);
      if !changed { Rollback(before); return Err(BadState); }
      var handle := if row.handle == "" then handleID else row.handle;
      if handle != "" && HandleElsewhere(requests, requestID, handle) { Rollback(before); return Err(Conflict); }
      requests := requests[requestID := row.(handle := handle, state := ExpiredUnactivated, lease := None)];
      outbox := CancelPending(outbox, requestID);
      return Ok(requests[requestID]);
    }

    method Claim(requestID: string, worker: string, token: string, now: Clock, duration: int,
          expired: bool) returns (r: Result<Request>)
      modifies this`requests
      ensures (Value(), r) == ActivationTables.Claim(old(Value()), requestID, worker, token, now, duration, expired)
    {
      if !Identifier(worker) || duration < SECOND || MINUTE < duration { return Err(InvalidInput); }
      if requestID !in requests { return Err(NotFound); }
      var row := requests[requestID];
      var waits := if expired
        then (row.state == SignRequested || row.state == HandlePrepared) && row.input.validUntil <= now
        else (row.state == SignRequested && now < row.input.validUntil)
             || (row.state == HandlePrepared && row.input.validAfter <= now && now < row.input.validUntil)
             || row.state == ActivePendingMirror || row.state == ActiveMirrored;
      var free := row.lease.None? || row.lease.value.expiresAt <= now;
      if row.nextAttemptAt > now || !free || !waits { return Err(NotFound); }
      requests := requests[requestID := requests[requestID].(lease := Some(Lease(worker, token, now + duration)))];
      return Ok(requests[requestID]);
    }

    method ReturnLease(held: Held, next: Time) returns (r: Result<Request>)
      modifies this`requests
      ensures (Value(), r) == ActivationTables.ReturnLease(old(Value()), held, next)
    {
      if held.requestID !in requests || requests[held.requestID].lease.None? { return Err(LeaseLost); }
      var row := requests[held.requestID];
      if row.lease.value.owner != held.worker || row.lease.value.token != held.token { return Err(LeaseLost); }
      requests := requests[held.requestID := row.(lease := None, nextAttemptAt := next)];
      return Ok(requests[held.requestID]);
    }
  }

  lemma OneRequestPerAuthorization(cfg: Config, t: Tables, id: string, authorizationID: string)
    requires Consistent(cfg, t) && Authorizes(t.requests, id, authorizationID)
    ensures forall other | Authorizes(t.requests, other, authorizationID) :: other == id
  {
    hide RowConsistent, NoOrphans;
  }
}
