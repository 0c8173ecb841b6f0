/**
  The control plane's signer-activation tables. Each function is one serializable transaction:
  it returns the tables after commit, or the unchanged tables and the error after rollback.
 */
module ActivationTables {
  import opened Text
  import L = SignerLedger

  const LOCK_AUTHORIZATION: string := "LOCK_AUTHORIZATION"

  datatype ActivationState =
    | SignRequested | HandlePrepared | ActivePendingMirror | ActiveMirrored | ActivationAcknowledged
    | ExpiredUnactivated | SignerRefused

  datatype ActivationInput = ActivationInput(
    requestID: string, authorizationID: string, operationID: string, reservationID: string, actionID: string,
    canonicalPayload: Bytes, canonicalPayloadHash: string, evidenceBundle: Bytes, evidenceBundleHash: string,
    digest: string, nonce: string, instrumentType: string, signerBindingVersion: nat, signerKeyID: string,
        keyEpoch: nat,
    moduleAddress: string, safeAddress: string, keeperID: string, validAfter: Time, validUntil: Time)

  datatype Lease = Lease(owner: string, token: string, expiresAt: Time)

  datatype Request = Request(
    input: ActivationInput, inputHash: string, handle: string, state: ActivationState, mirrorDigest: string,
    createdAt: Time, activatedAt: Time, lease: Option<Lease>, nextAttemptAt: Time)

  datatype ReservationState = Reserved | AuthorizationLive | Released

  datatype Reservation = Reservation(operationID: string, state: ReservationState, expiresAt: Time)

  /** A VALIDATED_AND_RESERVED execution authorization; other rows never reach these transactions. */
  datatype Authorization = Authorization(intentID: string, reservationID: string, snapshotHash: string)

  datatype RegistryEntry = RegistryEntry(
    digest: string, instrumentType: string, signatureRef: string, nonce: string, issuedAt: Time, validUntil: Time,
    signerKeyID: string, keyEpoch: nat, operationID: string, authorizationID: string, reservationID: string,
    moduleAddress: string, safeAddress: string, outcome: string, primaryMirrorDigest: string, createdAt: Time)

  datatype HandleRow = HandleRow(operationID: string, payloadHash: string, digest: string, nonce: string,
        validUntil: Time)

  datatype PaymentRow = PaymentRow(authorizationID: string, reservationID: string, bearerDigest: string)

  datatype OutboxKind = SignPrepare | Mirror | Ack | SecondaryMirror

  datatype OutboxState = Pending | Delivered | Cancelled

  datatype Tables = Tables(
    requests: map<string, Request>, authorizations: map<string, Authorization>, reservations: map<string, Reservation>,
    registry: map<string, RegistryEntry>, handles: map<string, HandleRow>, payments: map<string, PaymentRow>,
    outbox: map<(string, OutboxKind), OutboxState>)

  datatype Error = InvalidInput | BindingMismatch | BadState | NotFound | LeaseLost | OutboxUnavailable | Conflict

  datatype Result<+T> = Ok(value: T) | Err(error: Error)

  /** Hashes the control plane computes, and whether this store demands runtime leases. */
  datatype Config = Config(
    inputHash: ActivationInput -> string,
    payloadHash: Bytes -> string,
    evidenceHash: Bytes -> string,
    mirrorDigest: RegistryEntry -> string,
    unactivatedDigest: L.UnactivatedProof -> string,
    leasesRequired: bool)

  /** The lease a caller carries in its context. */
  datatype Held = Held(requestID: string, worker: string, token: string)

  // ---------- Validation ----------

  predicate ValidReplayInput(cfg: Config, i: ActivationInput, now: Time) {
    && Hash(i.requestID) && Hash(i.authorizationID) && Hash(i.operationID) && Hash(i.reservationID)
        && Identifier(i.actionID)
    && 0 < |i.canonicalPayload| <= 262_144 && i.canonicalPayloadHash == cfg.payloadHash(i.canonicalPayload)
    && 0 < |i.evidenceBundle| <= 1_048_576 && i.evidenceBundleHash == cfg.evidenceHash(i.evidenceBundle)
    && Hash(i.digest) && Hash(i.nonce) && i.instrumentType == LOCK_AUTHORIZATION && i.signerBindingVersion != 0
    && Identifier(i.signerKeyID) && i.keyEpoch != 0 && Address(i.moduleAddress) && Address(i.safeAddress)
        && Identifier(i.keeperID)
    && i.validAfter != 0 && i.validUntil != 0 && L.ValidWindow(i.validAfter, i.validUntil) && now < i.validUntil
  }

  predicate ValidInput(cfg: Config, i: ActivationInput, now: Time) {
    ValidReplayInput(cfg, i, now) && now - MINUTE <= i.validAfter <= now + MINUTE
  }

  function InputHash(cfg: Config, i: ActivationInput): string {
    cfg.inputHash(i.(requestID := ""))
  }

  /** What the signer binds into a handle prepared for this input. */
  function BindingOf(i: ActivationInput, inputHash: string): L.Binding {
    L.Binding(i.requestID, i.authorizationID, i.reservationID, i.actionID, i.operationID, inputHash,
              i.canonicalPayloadHash, i.digest, i.nonce, i.signerKeyID, i.keyEpoch, i.keeperID, i.validAfter,
                  i.validUntil)
  }

  predicate ActiveState(s: ActivationState) {
    s == ActivePendingMirror || s == ActiveMirrored || s == ActivationAcknowledged
  }

  predicate LeaseHolds(cfg: Config, t: Tables, held: Option<Held>, requestID: string, now: Time) {
    !cfg.leasesRequired
    || (held.Some? && held.value.requestID == requestID && Identifier(held.value.worker) && Hash(held.value.token)
        && requestID in t.requests && t.requests[requestID].lease.Some?
        && var lease := t.requests[requestID].lease.value;
           lease.owner == held.value.worker && lease.token == held.value.token && now < lease.expiresAt)
  }

  function InsertOutbox(outbox: map<(string, OutboxKind), OutboxState>, requestID: string,
        kind: OutboxKind): map<(string, OutboxKind), OutboxState> {
    if (requestID, kind) in outbox then outbox else outbox[(requestID, kind) := Pending]
  }

  predicate IsPending(t: Tables, requestID: string, kind: OutboxKind) {
    (requestID, kind) in t.outbox && t.outbox[(requestID, kind)] == Pending
  }

  // ---------- Transactions ----------

  /** The UNIQUE columns of ascp_sign_requests. */
  predicate RequestIsUnique(t: Tables, i: ActivationInput) {
    && i.requestID !in t.requests
    && forall id | id in t.requests ::
         var other := t.requests[id].input;
         && other.authorizationID != i.authorizationID && other.operationID != i.operationID
         && other.reservationID != i.reservationID && other.actionID != i.actionID && other.digest != i.digest
         && !(other.signerKeyID == i.signerKeyID && other.nonce == i.nonce)
  }

  predicate AuthorizesSigning(t: Tables, i: ActivationInput, now: Time) {
    && i.authorizationID in t.authorizations
    && var a := t.authorizations[i.authorizationID];
       && a.intentID == i.operationID && a.reservationID == i.reservationID && i.reservationID in t.reservations
       && t.reservations[i.reservationID].state == Reserved && now < t.reservations[i.reservationID].expiresAt
  }

  /** requestOnce for an authorization that has no request yet. `signerBound` is the outcome of lockSignerBinding. */
  function Create(cfg: Config, t: Tables, i: ActivationInput, now: Time, signerBound: bool): (Tables, Result<Request>) {
    if !ValidInput(cfg, i, now) then (t, Err(InvalidInput))
    else if i.authorizationID !in t.authorizations || t.authorizations[i.authorizationID].intentID != i.operationID
            || t.authorizations[i.authorizationID].reservationID != i.reservationID
                || i.reservationID !in t.reservations
            || t.reservations[i.reservationID].operationID != i.operationID then (t, Err(BindingMismatch))
    else if !AuthorizesSigning(t, i, now) then (t, Err(BadState))
    else if !Hash(t.authorizations[i.authorizationID].snapshotHash) || !signerBound || !RequestIsUnique(t, i)
        then (t, Err(BindingMismatch))
    else
      var request := Request(i, InputHash(cfg, i), "", SignRequested, "", now, 0, None, 0);
      (t.(requests := t.requests[i.requestID := request], outbox := InsertOutbox(t.outbox, i.requestID, SignPrepare)),
          Ok(request))
  }

  function RecordPrepared(cfg: Config, t: Tables, held: Option<Held>, requestID: string, handle: string,
        now: Time): (Tables, Result<Request>) {
    if !Hash(requestID) || !OpaqueHandle(handle) then (t, Err(InvalidInput))
    else if !LeaseHolds(cfg, t, held, requestID, now) then (t, Err(LeaseLost))
    else if requestID !in t.requests then (t, Err(NotFound))
    else
      var r := t.requests[requestID];
      if r.state == SignRequested && now < r.input.validUntil then
        if exists id | id in t.requests :: t.requests[id].handle == handle then (t, Err(Conflict))
        else if !IsPending(t, requestID, SignPrepare) then (t, Err(OutboxUnavailable))
        else
          var r' := r.(handle := handle, state := HandlePrepared);
          (t.(requests := t.requests[requestID := r'], outbox := t.outbox[(requestID, SignPrepare) := Delivered]),
              Ok(r'))
      else if r.handle == handle && (r.state == HandlePrepared || ActiveState(r.state)) then (t, Ok(r))
      else (t, Err(BadState))
  }

  function EntryFor(r: Request, now: Time): RegistryEntry {
    var i := r.input;
    RegistryEntry(i.digest, i.instrumentType, r.handle, i.nonce, i.validAfter, i.validUntil, i.signerKeyID, i.keyEpoch,
                  i.operationID, i.authorizationID, i.reservationID, i.moduleAddress, i.safeAddress, "LIVE", "", now)
  }

  /** The UNIQUE columns of ascp_bearer_registry. */
  predicate EntryIsUnique(t: Tables, e: RegistryEntry) {
    && e.digest !in t.registry
    && forall d | d in t.registry ::
         && t.registry[d].signatureRef != e.signatureRef && t.registry[d].operationID != e.operationID
         && t.registry[d].authorizationID != e.authorizationID && t.registry[d].reservationID != e.reservationID
  }

  /**
    The writes of an activation whose guards have passed. `committed` is the outcome of the checks of
    insertPaymentOperation on the stored purchase commitment.
   */
  function WriteActivation(t: Tables, requestID: string, now: Time,
        committed: bool): (Tables, Result<RegistryEntry>)
    requires requestID in t.requests && t.requests[requestID].input.reservationID in t.reservations
  {
    var r := t.requests[requestID];
    var entry := EntryFor(r, now);
    if !EntryIsUnique(t, entry) || r.handle in t.handles then (t, Err(Conflict))
    else if !committed || r.input.operationID in t.payments then (t, Err(BindingMismatch))
    else
      var reservation := t.reservations[r.input.reservationID].(state := AuthorizationLive);
      (Tables(t.requests[requestID := r.(state := ActivePendingMirror, activatedAt := now)],
              t.authorizations,
              t.reservations[r.input.reservationID := reservation],
              t.registry[entry.digest := entry],
              t.handles[r.handle := HandleRow(r.input.operationID, r.input.canonicalPayloadHash, r.input.digest,
                  r.input.nonce, r.input.validUntil)],
              t.payments[r.input.operationID := PaymentRow(r.input.authorizationID, r.input.reservationID,
                  r.input.digest)],
              InsertOutbox(t.outbox, requestID, Mirror)),
       Ok(entry))
  }

  function Activate(cfg: Config, t: Tables, held: Option<Held>, requestID: string, now: Time,
        committed: bool): (Tables, Result<RegistryEntry>) {
    if !Hash(requestID) then (t, Err(InvalidInput))
    else if requestID !in t.requests then (t, Err(NotFound))
    else if !LeaseHolds(cfg, t, held, requestID, now) then (t, Err(LeaseLost))
    else
      var r := t.requests[requestID];
      if ActiveState(r.state) then
        (t, if r.input.digest in t.registry then Ok(t.registry[r.input.digest]) else Err(Conflict))
      else if r.state != HandlePrepared || r.handle == "" || r.input.validUntil <= now || now < r.input.validAfter
          then (t, Err(BadState))
      else if r.input.authorizationID !in t.authorizations
              || t.authorizations[r.input.authorizationID].intentID != r.input.operationID
              || t.authorizations[r.input.authorizationID].reservationID != r.input.reservationID
              || r.input.reservationID !in t.reservations then (t, Err(Conflict))
      else if t.reservations[r.input.reservationID].state != Reserved
              || t.reservations[r.input.reservationID].expiresAt <= now then (t, Err(BadState))
      else WriteActivation(t, requestID, now, committed)
  }

  /** RegistryMirrorBytes: the WORM object never contains the digest that is later written back. */
  function MirrorObject(e: RegistryEntry): RegistryEntry {
    e.(primaryMirrorDigest := "")
  }

  function MirrorDigest(cfg: Config, e: RegistryEntry): string {
    cfg.mirrorDigest(MirrorObject(e))
  }

  function MarkPrimaryMirrored(cfg: Config, t: Tables, held: Option<Held>, requestID: string, digest: string,
        now: Time): (Tables, Result<Request>) {
    if !Hash(requestID) || !Hash(digest) then (t, Err(InvalidInput))
    else if requestID !in t.requests then (t, Err(NotFound))
    else if !LeaseHolds(cfg, t, held, requestID, now) then (t, Err(LeaseLost))
    else
      var r := t.requests[requestID];
      if r.state == ActiveMirrored || r.state == ActivationAcknowledged then
        (t, if r.mirrorDigest == digest then Ok(r) else Err(BindingMismatch))
      else if r.state != ActivePendingMirror then (t, Err(BadState))
      else if r.input.digest !in t.registry then (t, Err(Conflict))
      else if digest != MirrorDigest(cfg, t.registry[r.input.digest]) then (t, Err(BindingMismatch))
      else if !IsPending(t, requestID, Mirror) then (t, Err(OutboxUnavailable))
      else
        var e := t.registry[r.input.digest];
        var e' := if e.primaryMirrorDigest == "" then e.(primaryMirrorDigest := digest) else e;
        var r' := r.(state := ActiveMirrored, mirrorDigest := digest);
        var outbox := t.outbox[(requestID, Mirror) := Delivered];
        (t.(requests := t.requests[requestID := r'], registry := t.registry[r.input.digest := e'],
            outbox := InsertOutbox(InsertOutbox(outbox, requestID, Ack), requestID, SecondaryMirror)), Ok(r'))
  }

  function MarkAcknowledged(cfg: Config, t: Tables, held: Option<Held>, requestID: string, handle: string,
        now: Time): (Tables, Result<Request>) {
    if !Hash(requestID) || !OpaqueHandle(handle) then (t, Err(InvalidInput))
    else if !LeaseHolds(cfg, t, held, requestID, now) then (t, Err(LeaseLost))
    else if requestID !in t.requests then (t, Err(NotFound))
    else
      var r := t.requests[requestID];
      if r.state == ActiveMirrored && r.handle == handle then
        if !IsPending(t, requestID, Ack) then (t, Err(OutboxUnavailable))
        else
          var r' := r.(state := ActivationAcknowledged);
          (t.(requests := t.requests[requestID := r'], outbox := t.outbox[(requestID, Ack) := Delivered]), Ok(r'))
      else if r.state == ActivationAcknowledged && r.handle == handle then (t, Ok(r))
      else (t, Err(BadState))
  }

  /** Refuse: only before any handle is recorded, and only while the reservation is still RESERVED. */
  function Refuse(cfg: Config, t: Tables, held: Option<Held>, requestID: string, now: Time): (Tables, Result<Request>) {
    if requestID !in t.requests then (t, Err(NotFound))
    else if !LeaseHolds(cfg, t, held, requestID, now) then (t, Err(LeaseLost))
    else
      var r := t.requests[requestID];
      if r.state != SignRequested || r.handle != "" then (t, Err(BadState))
      else if r.input.reservationID !in t.reservations || t.reservations[r.input.reservationID].state != Reserved
          then (t, Err(BadState))
      else if !IsPending(t, requestID, SignPrepare) then (t, Err(BadState))
      else
        var r' := r.(state := SignerRefused, lease := None, nextAttemptAt := now);
        (t.(requests := t.requests[requestID := r'],
            reservations := t.reservations[r.input.reservationID :=
                t.reservations[r.input.reservationID].(state := Released)],
            outbox := t.outbox[(requestID, SignPrepare) := Cancelled]), Ok(r'))
  }

  predicate ValidUnactivatedProof(cfg: Config, r: Request, p: L.UnactivatedProof, now: Time) {
    && p.requestID == r.input.requestID && p.operationID == r.input.operationID && p.actionID == r.input.actionID
    && p.inputHash == r.inputHash && p.status == L.EXPIRED_UNACTIVATED
    && p.proofDigest == cfg.unactivatedDigest(p.(proofDigest := ""))
    && r.input.validUntil <= p.provenAt <= now + MINUTE
    && (r.handle != "" ==> p.handleID == r.handle) && (p.handleID != "" ==> OpaqueHandle(p.handleID))
  }

  function CancelPending(outbox: map<(string, OutboxKind), OutboxState>,
        requestID: string): map<(string, OutboxKind), OutboxState> {
    map key | key in outbox :: if key.0 == requestID && outbox[key] == Pending then Cancelled else outbox[key]
  }

  predicate HandleElsewhere(requests: map<string, Request>, requestID: string, handle: string) {
    exists id | id in requests && id != requestID :: requests[id].handle == handle
  }

  /** The writes of an expiry whose guards have passed: release, handle and cancelled messages, or none of them. */
  function WriteExpiry(t: Tables, requestID: string, handleID: string): (Tables, Result<Request>)
    requires requestID in t.requests
  {
    var r := t.requests[requestID];
    if r.input.reservationID !in t.reservations || t.reservations[r.input.reservationID].state != Reserved
        then (t, Err(BadState))
    else
      var handle := if r.handle == "" then handleID else r.handle;
      if handle != "" && HandleElsewhere(t.requests, requestID, handle) then (t, Err(Conflict))
      else
        var r' := r.(handle := handle, state := ExpiredUnactivated, lease := None);
        (t.(requests := t.requests[requestID := r'],
            reservations := t.reservations[r.input.reservationID :=
                t.reservations[r.input.reservationID].(state := Released)],
            outbox := CancelPending(t.outbox, requestID)), Ok(r'))
  }

  function ExpireUnactivated(cfg: Config, t: Tables, held: Option<Held>, requestID: string, p: L.UnactivatedProof,
        now: Time): (Tables, Result<Request>) {
    if requestID !in t.requests then (t, Err(NotFound))
    else if !LeaseHolds(cfg, t, held, requestID, now) then (t, Err(LeaseLost))
    else
      var r := t.requests[requestID];
      if (r.state != SignRequested && r.state != HandlePrepared) || now < r.input.validUntil then (t, Err(BadState))
      else if !ValidUnactivatedProof(cfg, r, p, now) then (t, Err(BindingMismatch))
      else WriteExpiry(t, requestID, p.handleID)
  }

  predicate Claimable(r: Request, now: Time, expired: bool) {
    && r.nextAttemptAt <= now && (r.lease.Some? ==> r.lease.value.expiresAt <= now)
    && if expired then (r.state == SignRequested || r.state == HandlePrepared) && r.input.validUntil <= now
       else || (r.state == SignRequested && now < r.input.validUntil)
            || (r.state == HandlePrepared && r.input.validAfter <= now < r.input.validUntil)
            || r.state == ActivePendingMirror || r.state == ActiveMirrored
  }

  /** claimRuntime for the row the query selected. */
  function Claim(t: Tables, requestID: string, worker: string, token: string, now: Time, duration: int,
        expired: bool): (Tables, Result<Request>) {
    if !Identifier(worker) || duration < SECOND || MINUTE < duration then (t, Err(InvalidInput))
    else if requestID !in t.requests || !Claimable(t.requests[requestID], now, expired) then (t, Err(NotFound))
    else
      var r' := t.requests[requestID].(lease := Some(Lease(worker, token, now + duration)));
      (t.(requests := t.requests[requestID := r']), Ok(r'))
  }

  /** CompleteLease and RetryLease: give the lease back, to be tried again from `next` on. */
  function ReturnLease(t: Tables, held: Held, next: Time): (Tables, Result<Request>) {
    if held.requestID in t.requests && t.requests[held.requestID].lease.Some?
       && t.requests[held.requestID].lease.value.owner == held.worker
           && t.requests[held.requestID].lease.value.token == held.token then
      var r' := t.requests[held.requestID].(lease := None, nextAttemptAt := next);
      (t.(requests := t.requests[held.requestID := r']), Ok(r'))
    else (t, Err(LeaseLost))
  }

  /** Execution authorization commits a new authorization together with its RESERVED reservation. */
  function Authorize(t: Tables, authorizationID: string, a: Authorization, expiresAt: Time): Tables {
    if authorizationID in t.authorizations || a.reservationID in t.reservations then t
    else t.(authorizations := t.authorizations[authorizationID := a],
            reservations := t.reservations[a.reservationID := Reservation(a.intentID, Reserved, expiresAt)])
  }
}
