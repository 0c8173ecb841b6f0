/**
  The isolated signer ledger as values: handles, the transitions its hash-chained log accepts,
  what each operation decides, and what replaying a log file rebuilds.
  Each operation is split into the decision it takes under the mutex (a Plan) and the write it
  asks the journal for, because a crash can separate the two.
 */
module SignerLedger {
  import opened Text

  const MAX_WINDOW: int := 10 * MINUTE
  const MAX_UINT64: nat := 0xFFFF_FFFF_FFFF_FFFF
  const MAX_RECORD_BYTES: nat := 524_288
  const LEDGER_VERSION: nat := 2
  const EXPIRED_UNACTIVATED: string := "EXPIRED_UNACTIVATED"

  datatype State = Prepared | Active | Released | Expired | Terminal

  /** Everything a caller binds into a handle; the ledger adds only the opaque ID, state and outcome. */
  datatype Binding = Binding(
    requestID: string, authorizationID: string, reservationID: string, actionID: string, operationID: string,
    signerRequestHash: string, canonicalPayloadHash: string, digest: string, nonce: string,
    signerKeyID: string, keyEpoch: nat, keeperID: string, validAfter: Time, validUntil: Time)

  datatype Handle = Handle(id: string, binding: Binding, state: State, outcome: string)

  datatype PrepareInput = PrepareInput(binding: Binding, signature: Bytes)

  datatype ActivationProof = ActivationProof(
    requestID: string, handleID: string, operationID: string, digest: string, nonce: string,
    primaryMirrorDigest: string, occurredAt: Time)

  datatype UnactivatedProof = UnactivatedProof(
    requestID: string, operationID: string, actionID: string, inputHash: string, handleID: string,
    status: string, provenAt: Time, proofDigest: string)

  datatype SignerRecord = SignerRecord(handle: Handle, encrypted: Bytes, activation: Option<ActivationProof>)

  datatype EventBody = EventBody(
    version: nat, sequence: nat, at: Time, handleID: string, previousHash: string, record: SignerRecord)

  datatype LedgerEvent = LedgerEvent(body: EventBody, hash: string)

  /** Cryptography and encodings the ledger calls but does not define. */
  datatype Env = Env(
    seal: (string, nat, Bytes) -> Bytes,
    open: (string, Bytes) -> Option<Bytes>,
    formatTime: Time -> string,
    eventHash: EventBody -> string,
    encodedLength: SignerRecord -> nat,
    unactivatedDigest: UnactivatedProof -> string)

  ghost predicate CipherLaw(env: Env) {
    forall aad: string, n: nat, plain: Bytes ::
      |env.seal(aad, n, plain)| > 0 && env.open(aad, env.seal(aad, n, plain)) == Some(plain)
  }

  ghost predicate TimeLaw(env: Env) {
    && (forall t: Time :: Free(env.formatTime(t), '\n'))
    && (forall t: Time, u: Time :: env.formatTime(t) == env.formatTime(u) ==> t == u)
  }

  // ---------- Shapes and bindings ----------

  predicate ValidWindow(validAfter: Time, validUntil: Time) {
    validAfter < validUntil && validUntil - validAfter <= MAX_WINDOW
  }

  predicate ValidBinding(b: Binding) {
    && Hash(b.requestID) && Hash(b.authorizationID) && Hash(b.reservationID)
    && Identifier(b.actionID) && Hash(b.operationID) && Hash(b.signerRequestHash)
    && Hash(b.canonicalPayloadHash) && Hash(b.digest) && Hash(b.nonce)
    && Identifier(b.signerKeyID) && b.keyEpoch != 0 && Identifier(b.keeperID)
    && ValidWindow(b.validAfter, b.validUntil)
  }

  predicate Activated(s: State) {
    s == Active || s == Released || s == Terminal
  }

  predicate ExactActivationProof(h: Handle, p: ActivationProof) {
    && p.requestID == h.binding.requestID && p.handleID == h.id && p.operationID == h.binding.operationID
    && p.digest == h.binding.digest && p.nonce == h.binding.nonce && Hash(p.primaryMirrorDigest)
    && h.binding.validAfter <= p.occurredAt < h.binding.validUntil
  }

  /** validateSignerRecord. */
  predicate ValidRecord(r: SignerRecord) {
    && OpaqueHandle(r.handle.id) && ValidBinding(r.handle.binding) && r.handle.binding.validAfter != 0
    && |r.encrypted| > 0
    && (r.handle.state == Prepared || r.handle.state == Active || r.handle.state == Released ==> r.handle.outcome == "")
    && (r.handle.state == Expired ==> r.handle.outcome == EXPIRED_UNACTIVATED)
    && (r.handle.state == Terminal ==> r.handle.outcome != "")
    && (Activated(r.handle.state) <==> r.activation.Some?)
    && (r.activation.Some? ==> ExactActivationProof(r.handle, r.activation.value))
  }

  predicate SameAction(a: Handle, b: Handle) {
    a.binding.operationID == b.binding.operationID && a.binding.actionID == b.binding.actionID
  }

  predicate NextState(from: State, to: State) {
    || (from == Prepared && (to == Active || to == Expired))
    || (from == Active && to == Released)
    || (from == Released && to == Terminal)
  }

  /** validateTransition: what the log accepts after `records`. */
  predicate ValidTransition(records: map<string, SignerRecord>, next: SignerRecord) {
    && ValidRecord(next)
    && if next.handle.id in records then
         var current := records[next.handle.id];
         && current.handle.id == next.handle.id && current.handle.binding == next.handle.binding
         && current.encrypted == next.encrypted
         && (current.activation.Some? ==> next.activation == current.activation)
         && NextState(current.handle.state, next.handle.state)
       else
         && next.handle.state == Prepared
         && forall id | id in records :: !SameAction(records[id].handle, next.handle)
  }

  function ArtifactAAD(env: Env, h: Handle): string {
    var b := h.binding;
    Join(["ASCP_SIGNER_ARTIFACT_V2", h.id, b.requestID, b.authorizationID, b.reservationID, b.actionID,
          b.operationID, b.signerRequestHash, b.canonicalPayloadHash, b.digest, b.nonce, b.signerKeyID,
          Decimal(b.keyEpoch), b.keeperID, env.formatTime(b.validAfter), env.formatTime(b.validUntil)], '\n')
  }

  function ActionKey(operationID: string, actionID: string): string {
    operationID + "\n" + actionID
  }

  function KeyOf(h: Handle): string {
    ActionKey(h.binding.operationID, h.binding.actionID)
  }

  /** The signature bytes a record stands for. */
  function Plaintext(env: Env, r: SignerRecord): Option<Bytes> {
    env.open(ArtifactAAD(env, r.handle), r.encrypted)
  }

  // ---------- The in-memory index and the decisions taken on it ----------

  datatype SignerState = SignerState(byID: map<string, SignerRecord>, byAction: map<string, string>)

  datatype Error = BadTransition | Mismatch | WrongKeeper | VerifierRefused | CipherFailed | NoFreshID | LedgerFailed

  datatype Reply =
    | Granted(handle: Handle)
    | Artifact(released: Handle, bytes: Bytes)
    | Unactivated(proof: UnactivatedProof)
    | NoRecord
    | Opened
    | Failed(error: Error)

  datatype Plan =
    | Answer(reply: Reply)
    | Persist(record: SignerRecord, reply: Reply)

  predicate ValidPrepare(now: Time, input: PrepareInput) {
    && ValidBinding(input.binding)
    && now - MINUTE <= input.binding.validAfter <= now + MINUTE
    && now < input.binding.validUntil
    && 64 <= |input.signature| <= 16 * 1024
  }

  /** The first of at most three random candidates that is not already a handle. */
  function PickID(byID: map<string, SignerRecord>, candidates: seq<string>, attempts: nat): (id: Option<string>)
    ensures id.Some? ==> id.value !in byID && id.value in candidates
    decreases attempts
  {
    if attempts == 0 || |candidates| == 0 then None
    else if candidates[0] !in byID then Some(candidates[0])
    else PickID(byID, candidates[1..], attempts - 1)
  }

  function PlanPrepare(env: Env, s: SignerState, now: Time, input: PrepareInput, candidates: seq<string>,
        nonce: Option<nat>): Plan {
    var key := ActionKey(input.binding.operationID, input.binding.actionID);
    if !ValidPrepare(now, input) then Answer(Failed(BadTransition))
    else if key in s.byAction then
      if s.byAction[key] !in s.byID || s.byID[s.byAction[key]].handle.binding != input.binding
          then Answer(Failed(Mismatch))
      else
        var record := s.byID[s.byAction[key]];
        match Plaintext(env, record)
        case None => Answer(Failed(CipherFailed))
        case Some(stored) => Answer(if stored == input.signature then Granted(record.handle) else Failed(Mismatch))
    else
      match PickID(s.byID, candidates, 3)
      case None => Answer(Failed(NoFreshID))
      case Some(id) =>
        if id == "" then Answer(Failed(NoFreshID))
        else if nonce.None? then Answer(Failed(CipherFailed))
        else
          var handle := Handle(id, input.binding, Prepared, "");
          Persist(SignerRecord(handle, env.seal(ArtifactAAD(env, handle), nonce.value, input.signature), None),
              Granted(handle))
  }

  /** PreparedFor: an exact replay that never asks the engine to sign again. */
  function PreparedFor(s: SignerState, now: Time, operationID: string, actionID: string, requestHash: string): Reply {
    var key := ActionKey(operationID, actionID);
    if !Hash(operationID) || !Identifier(actionID) || !Hash(requestHash) then Failed(BadTransition)
    else if key !in s.byAction then NoRecord
    else if s.byAction[key] !in s.byID || s.byID[s.byAction[key]].handle.binding.signerRequestHash != requestHash
        then Failed(Mismatch)
    else
      var h := s.byID[s.byAction[key]].handle;
      if h.state != Prepared || h.binding.validUntil <= now then Failed(BadTransition) else Granted(h)
  }

  function PlanActivate(s: SignerState, now: Time, id: string, proof: ActivationProof, verified: bool): Plan {
    if id !in s.byID then Answer(Failed(BadTransition))
    else
      var record := s.byID[id];
      if Activated(record.handle.state) then
        Answer(if record.activation == Some(proof) then Granted(record.handle) else Failed(Mismatch))
      else if record.handle.state != Prepared || now < record.handle.binding.validAfter
              || record.handle.binding.validUntil <= now || !ExactActivationProof(record.handle, proof) then
        Answer(Failed(BadTransition))
      else if !verified then Answer(Failed(VerifierRefused))
      else
        var handle := record.handle.(state := Active);
        Persist(record.(handle := handle, activation := Some(proof)), Granted(handle))
  }

  function PlanRelease(env: Env, s: SignerState, now: Time, id: string, keeperID: string): Plan {
    if id !in s.byID then Answer(Failed(BadTransition))
    else
      var record := s.byID[id];
      var h := record.handle;
      if keeperID != h.binding.keeperID then Answer(Failed(WrongKeeper))
      else if (h.state != Active && h.state != Released) || now < h.binding.validAfter
          || h.binding.validUntil <= now then
        Answer(Failed(BadTransition))
      else
        match Plaintext(env, record)
        case None => Answer(Failed(CipherFailed))
        case Some(bytes) =>
          if h.state == Active then
            Persist(record.(handle := h.(state := Released)), Artifact(h.(state := Released), bytes))
          else Answer(Artifact(h, bytes))
  }

  function ExpiredRecord(record: SignerRecord): SignerRecord {
    record.(handle := record.handle.(state := Expired, outcome := EXPIRED_UNACTIVATED))
  }

  function PlanExpire(s: SignerState, now: Time, id: string, proven: bool): Plan {
    if id !in s.byID || s.byID[id].handle.state != Prepared || now < s.byID[id].handle.binding.validUntil then
      Answer(Failed(BadTransition))
    else if !proven then Answer(Failed(VerifierRefused))
    else Persist(ExpiredRecord(s.byID[id]), Granted(ExpiredRecord(s.byID[id]).handle))
  }

  function NewUnactivatedProof(env: Env, requestID: string, operationID: string, actionID: string, inputHash: string,
                               handleID: string, now: Time): UnactivatedProof {
    var p := UnactivatedProof(requestID, operationID, actionID, inputHash, handleID, EXPIRED_UNACTIVATED, now, "");
    p.(proofDigest := env.unactivatedDigest(p))
  }

  /** ProveAndExpireUnactivated: a missing record is itself a negative answer. */
  function PlanProve(env: Env, s: SignerState, now: Time, requestID: string, operationID: string, actionID: string,
                     inputHash: string, proven: bool): Plan {
    var key := ActionKey(operationID, actionID);
    if !Hash(requestID) || !Hash(operationID) || !Identifier(actionID) || !Hash(inputHash)
        then Answer(Failed(BadTransition))
    else if key !in s.byAction then
      Answer(Unactivated(NewUnactivatedProof(env, requestID, operationID, actionID, inputHash, "", now)))
    else if s.byAction[key] !in s.byID then Answer(Failed(Mismatch))
    else
      var record := s.byID[s.byAction[key]];
      var b := record.handle.binding;
      var answer := Unactivated(NewUnactivatedProof(env, requestID, operationID, actionID, inputHash, record.handle.id,
          now));
      if b.requestID != requestID || b.operationID != operationID || b.signerRequestHash != inputHash
          then Answer(Failed(Mismatch))
      else if record.handle.state == Expired then Answer(answer)
      else if record.handle.state != Prepared || now < b.validUntil then Answer(Failed(BadTransition))
      else if !proven then Answer(Failed(VerifierRefused))
      else Persist(ExpiredRecord(record), answer)
  }

  function PlanFinalize(s: SignerState, id: string, outcome: string): Plan {
    if id !in s.byID || s.byID[id].handle.state != Released || outcome == "" || |outcome| > 128 then
      Answer(Failed(BadTransition))
    else
      var handle := s.byID[id].handle.(state := Terminal, outcome := outcome);
      Persist(s.byID[id].(handle := handle), Granted(handle))
  }

  /** The index after a record has been made durable. */
  function Commit(s: SignerState, r: SignerRecord): SignerState {
    SignerState(s.byID[r.handle.id := r], s.byAction[KeyOf(r.handle) := r.handle.id])
  }

  /** byID and byAction index the same records, one record per action. */
  ghost predicate Indexed(s: SignerState) {
    && (forall id | id in s.byID :: ValidRecord(s.byID[id]) && s.byID[id].handle.id == id)
    && (forall id | id in s.byID ::
        KeyOf(s.byID[id].handle) in s.byAction && s.byAction[KeyOf(s.byID[id].handle)] == id)
    && (forall key | key in s.byAction :: s.byAction[key] in s.byID && KeyOf(s.byID[s.byAction[key]].handle) == key)
  }

  // ---------- The journal ----------

  datatype Log = Log(sequence: nat, lastHash: string, records: map<string, SignerRecord>)

  const EMPTY_LOG: Log := Log(0, "", map[])

  /** What the operating system did with one append. */
  datatype Disk = Cancelled | Synced | FailedBeforeWrite | FailedAfterWrite

  /** `file` is what survives a crash; `log` is what the journal believes. */
  datatype Journal = Journal(file: seq<LedgerEvent>, log: Log, faulted: bool)

  function NextEvent(env: Env, log: Log, at: Time, record: SignerRecord): LedgerEvent {
    var body := EventBody(LEDGER_VERSION, log.sequence + 1, at, record.handle.id, log.lastHash, record);
    LedgerEvent(body, env.eventHash(body))
  }

  predicate Appendable(env: Env, j: Journal, record: SignerRecord) {
    !j.faulted && j.log.sequence != MAX_UINT64 && ValidTransition(j.log.records, record)
        && env.encodedLength(record) <= MAX_RECORD_BYTES
  }

  function Append(env: Env, j: Journal, at: Time, record: SignerRecord, disk: Disk): (Journal, bool) {
    if disk == Cancelled || !Appendable(env, j, record) then (j, false)
    else
      var event := NextEvent(env, j.log, at, record);
      match disk
      case Synced => (Journal(j.file + [event], Log(event.body.sequence, event.hash, j.log.records[record.handle.id :=
          record]), false), true)
      case FailedBeforeWrite => (j.(faulted := true), false)
      case FailedAfterWrite => (j.(file := j.file + [event], faulted := true), false)
  }

  predicate ValidEvent(env: Env, e: LedgerEvent, sequence: nat, previousHash: string) {
    && e.body.version == LEDGER_VERSION && e.body.sequence == sequence && e.body.at != 0
    && OpaqueHandle(e.body.handleID) && e.body.previousHash == previousHash
    && e.hash == env.eventHash(e.body)
  }

  function ReplayEvent(env: Env, log: Log, e: LedgerEvent): Option<Log> {
    if log.sequence == MAX_UINT64 || !ValidEvent(env, e, log.sequence + 1, log.lastHash)
       || !ValidTransition(log.records, e.body.record) || e.body.handleID != e.body.record.handle.id then None
    else Some(Log(e.body.sequence, e.hash, log.records[e.body.handleID := e.body.record]))
  }

  function Replay(env: Env, file: seq<LedgerEvent>): Option<Log> {
    if |file| == 0 then Some(EMPTY_LOG)
    else
      match Replay(env, file[..|file| - 1])
      case None => None
      case Some(log) => ReplayEvent(env, log, file[|file| - 1])
  }

  // ---------- One signer process and its file ----------

  datatype Signer = Signer(mem: SignerState, journal: Journal)

  datatype Call =
    | Prepare(now: Clock, input: PrepareInput, candidates: seq<string>, nonce: Option<nat>)
    | Activate(now: Clock, id: string, proof: ActivationProof, verified: bool)
    | Release(now: Clock, id: string, keeperID: string)
    | Expire(now: Clock, id: string, proven: bool)
    | Prove(now: Clock, requestID: string, operationID: string, actionID: string, inputHash: string, proven: bool)
    | Finalize(now: Clock, id: string, outcome: string)
    | Reopen(now: Clock, revalidated: bool)

  function PlanOf(env: Env, s: SignerState, call: Call): Plan
    requires !call.Reopen?
  {
    match call
    case Prepare(now, input, candidates, nonce) => PlanPrepare(env, s, now, input, candidates, nonce)
    case Activate(now, id, proof, verified) => PlanActivate(s, now, id, proof, verified)
    case Release(now, id, keeperID) => PlanRelease(env, s, now, id, keeperID)
    case Expire(now, id, proven) => PlanExpire(s, now, id, proven)
    case Prove(now, requestID, operationID, actionID, inputHash, proven) =>
      PlanProve(env, s, now, requestID, operationID, actionID, inputHash, proven)
    case Finalize(now, id, outcome) => PlanFinalize(s, id, outcome)
  }

  function Execute(env: Env, m: Signer, at: Time, plan: Plan, disk: Disk): (Signer, Reply) {
    match plan
    case Answer(reply) => (m, reply)
    case Persist(record, reply) =>
      var (journal, ok) := Append(env, m.journal, at, record, disk);
      if ok then (Signer(Commit(m.mem, record), journal), reply) else (m.(journal := journal), Failed(LedgerFailed))
  }

  /** The checks a fresh process makes on every record before serving it. */
  predicate Revalidates(env: Env, records: map<string, SignerRecord>, now: Time) {
    forall id | id in records ::
      && records[id].handle.id == id
      && Plaintext(env, records[id]).Some? && 64 <= |Plaintext(env, records[id]).value| <= 16 * 1024
      && (records[id].handle.state == Expired ==> records[id].handle.binding.validUntil <= now)
  }

  ghost predicate OneRecordPerAction(records: map<string, SignerRecord>) {
    forall a, b | a in records && b in records && KeyOf(records[a].handle) == KeyOf(records[b].handle) :: a == b
  }

  /** The action index a fresh process builds from replayed records. */
  ghost function IndexOf(records: map<string, SignerRecord>): SignerState
    requires OneRecordPerAction(records)
  {
    SignerState(records, map id | id in records :: KeyOf(records[id].handle) := id)
  }
}
