/**
  External checkpoints: a write-once object, a monotonic remote head and the checkpoint table, advanced
  in that order by publishers that may crash or interleave anywhere, while events keep being appended.
  As in BearerProtocol, what a publisher has done stays in a set and any publisher may go on from it.
 */
module Checkpoints {
  import opened Text
  import opened CanonicalJson
  import opened EventChain

  const ID_TAG: Octets := Ascii("ASCP_CHECKPOINT_ID_V1") + [0]
  const DIGEST_TAG: Octets := Ascii("ASCP_CHECKPOINT_V1") + [0]

  datatype Checkpoint = Checkpoint(
    id: Octets, lastSequence: nat, lastEventHash: Octets, trialBalanceHash: Octets, createdAt: int, keyID: Octets,
    document: Octets, signature: Octets, wormRef: Octets)

  /** The publisher's key pair, the ledger's trial balance at a head, and the writer keys. */
  datatype Setting = Setting(
    env: Env, keyID: Octets, sign: Octets -> Octets, checks: (Octets, Octets) -> bool, hex: Octets -> Octets,
    trialBalance: Head -> Octets, writerKeys: map<Octets, Octets>)

  /** Ed25519 signatures verify under the publisher's own public key and are 64 bytes long. */
  ghost predicate SettingLaw(s: Setting) {
    && EnvLaw(s.env) && Name(s.keyID, 8, 128)
    && (forall d :: s.checks(d, s.sign(d)) && |s.sign(d)| == 64)
  }

  predicate NonZero(h: Octets) {
    HexHash(h) && h != ZERO_HASH
  }

  function Document(sequence: nat, eventHash: Octets, trialBalanceHash: Octets, keyID: Octets): Json {
    Obj(map[Ascii("schemaVersion") := Integer(SCHEMA_VERSION),
            Ascii("lastSeq") := Integer(sequence),
            Ascii("lastEventHash") := Str(eventHash),
            Ascii("journalTrialBalanceHash") := Str(trialBalanceHash),
            Ascii("signingKeyId") := Str(keyID)])
  }

  function CheckpointID(env: Env, document: Octets): Octets {
    Ascii("checkpoint_") + env.sha(ID_TAG + document)
  }

  function Ref(id: Octets): Octets {
    Ascii("ascp/checkpoints/") + id + Ascii(".json")
  }

  function Blob(s: Setting, c: Checkpoint): Octets {
    c.document + [0x0A] + s.hex(c.signature)
  }

  /** signCheckpoint. */
  ghost function Sign(s: Setting, head: Head, at: int): Option<Checkpoint> {
    var balance := s.trialBalance(head);
    var document := Print(Document(head.sequence, head.eventHash, balance, s.keyID), 0);
    if head.sequence == 0 || !NonZero(head.eventHash) || !NonZero(balance) || !Name(s.keyID, 8, 128) || at <= 0
        || document.None? then None
    else
      var id := CheckpointID(s.env, document.value);
      Some(Checkpoint(id, head.sequence, head.eventHash, balance, at, s.keyID, document.value,
                      s.sign(s.env.sha(DIGEST_TAG + document.value)), Ref(id)))
  }

  /** verifyCheckpoint, with the publisher's key as the only trusted key. */
  ghost predicate VerifyCheckpoint(s: Setting, c: Checkpoint) {
    && Name(c.id, 8, 200) && c.lastSequence != 0 && NonZero(c.lastEventHash) && NonZero(c.trialBalanceHash)
        && c.createdAt > 0
    && Name(c.keyID, 8, 128) && |c.signature| == 64 && Name(c.wormRef, 8, 300)
    && Print(Document(c.lastSequence, c.lastEventHash, c.trialBalanceHash, c.keyID), 0) == Some(c.document)
    && c.id == CheckpointID(s.env, c.document) && c.wormRef == Ref(c.id)
    && c.keyID == s.keyID && s.checks(s.env.sha(DIGEST_TAG + c.document), c.signature)
  }

  /** Everything but the time it was made. */
  predicate SameCheckpoint(a: Checkpoint, b: Checkpoint) {
    a.(createdAt := 0) == b.(createdAt := 0)
  }

  // ---------- The three stores ----------

  /** The write-once store accepts exact replays and refuses any other bytes. */
  predicate CanPut(worm: map<Octets, Octets>, ref: Octets, blob: Octets) {
    ref in worm ==> worm[ref] == blob
  }

  /** The remote head accepts an identical replay and refuses lower or conflicting heads. */
  predicate CanAdvance(remote: Head, head: Head) {
    remote == head || remote.sequence < head.sequence
  }

  /** `saved` is keyed by last_sequence, which is unique. */
  datatype World = World(
    events: seq<Event>, saved: map<nat, Checkpoint>, worm: map<Octets, Octets>, remote: Head,
    signed: set<Checkpoint>, stored: set<Checkpoint>, advanced: set<Checkpoint>)

  ghost function Latest(saved: map<nat, Checkpoint>): Option<Checkpoint> {
    if n :| n in saved && forall m | m in saved :: m <= n then Some(saved[n]) else None
  }

  predicate IDTaken(saved: map<nat, Checkpoint>, c: Checkpoint) {
    exists n | n in saved :: saved[n].id == c.id
  }

  /** SaveCheckpoint succeeds by inserting, or by finding the same checkpoint under its ID. */
  predicate CanInsert(w: World, c: Checkpoint) {
    && !IDTaken(w.saved, c) && c.lastSequence !in w.saved
    && 0 < c.lastSequence <= |w.events| && w.events[c.lastSequence - 1].eventHash == c.lastEventHash
  }

  datatype Step =
    | Appended(event: Event)
    | Signed(n: nat, at: int)         // the chain verified with head n, no checkpoint was found there: sign one
    | Put(c: Checkpoint)
    | Advanced(c: Checkpoint)
    | Saved(c: Checkpoint)

  function HeadOf(events: seq<Event>): Head {
    Head(|events|, HeadHash(events))
  }

  ghost function Next(s: Setting, w: World, step: Step): World {
    match step
    case Appended(e) => if Verify(s.env, w.events + [e], s.writerKeys).Some? then w.(events := w.events + [e]) else w
    case Signed(n, at) =>
      if n > |w.events| || n in w.saved || Sign(s, HeadOf(w.events[..n]), at).None? then w
      else w.(signed := w.signed + {Sign(s, HeadOf(w.events[..n]), at).value})
    case Put(c) =>
      if c in w.signed && CanPut(w.worm, c.wormRef, Blob(s, c)) then w.(worm := w.worm[c.wormRef := Blob(s, c)],
          stored := w.stored + {c}) else w
    case Advanced(c) =>
      var head := Head(c.lastSequence, c.lastEventHash);
      if c in w.stored && CanAdvance(w.remote, head) then w.(remote := head, advanced := w.advanced + {c}) else w
    case Saved(c) => if c in w.advanced && CanInsert(w, c) then w.(saved := w.saved[c.lastSequence := c]) else w
  }

  /**
    One uninterrupted publish. When the head has a checkpoint already, the publisher compares it, puts its
    blob and advances the remote head again; otherwise it signs, puts, advances and saves.
   */
  ghost function Publish(s: Setting, w: World, at: int): World {
    var n := |w.events|;
    if n in w.saved then
      var c := w.saved[n];
      if c.lastEventHash != HeadHash(w.events) || c.trialBalanceHash != s.trialBalance(HeadOf(w.events))
          || c.keyID != s.keyID || !VerifyCheckpoint(s, c) then w
      else Next(s, Next(s, w, Put(c)), Advanced(c))
    else
      var c := Sign(s, HeadOf(w.events), at);
      if c.None? then w
      else Next(s, Next(s, Next(s, Next(s, w, Signed(n, at)), Put(c.value)), Advanced(c.value)), Saved(c.value))
  }

  function Initial(): World {
    World([], map[], map[], Head(0, ZERO_HASH), {}, {}, {})
  }

  ghost function Run(s: Setting, steps: seq<Step>): World {
    if |steps| == 0 then Initial() else Next(s, Run(s, steps[..|steps| - 1]), steps[|steps| - 1])
  }

  // ---------- Invariant ----------

  predicate OnChain(events: seq<Event>, head: Head) {
    if head.sequence == 0 then head.eventHash == ZERO_HASH
    else head.sequence <= |events| && events[head.sequence - 1].eventHash == head.eventHash
  }

  /** A checkpoint some publisher made for a head of this chain. */
  ghost predicate Genuine(s: Setting, events: seq<Event>, c: Checkpoint) {
    && OnChain(events, Head(c.lastSequence, c.lastEventHash))
    && Sign(s, Head(c.lastSequence, c.lastEventHash), c.createdAt) == Some(c)
  }

  predicate InWorm(s: Setting, worm: map<Octets, Octets>, c: Checkpoint) {
    c.wormRef in worm && worm[c.wormRef] == Blob(s, c)
  }

  /** Every write-once object is the blob of a genuine checkpoint. */
  ghost predicate WormOk(s: Setting, w: World) {
    forall ref | ref in w.worm :: exists c :: c in w.signed && c.wormRef == ref && w.worm[ref] == Blob(s, c)
  }

  predicate UniqueIDs(saved: map<nat, Checkpoint>) {
    forall m, n | m in saved && n in saved && saved[m].id == saved[n].id :: m == n
  }

  ghost predicate Inv(s: Setting, w: World) {
    && Verify(s.env, w.events, s.writerKeys).Some?
    && OnChain(w.events, w.remote)
    && (forall c | c in w.signed :: Genuine(s, w.events, c))
    && (forall c | c in w.stored :: c in w.signed && InWorm(s, w.worm, c))
    && (forall c | c in w.advanced :: c in w.stored && c.lastSequence <= w.remote.sequence)
    && (forall n | n in w.saved :: w.saved[n].lastSequence == n && w.saved[n] in w.advanced)
    && UniqueIDs(w.saved) && WormOk(s, w)
  }

  // ---------- Recovery ----------

  datatype Status = Status(localHead: Head, remoteHead: Head, checkpointSequence: nat, uncheckpointed: nat,
        externallyCheckpointed: bool)

  /** VerifyRecovery; None stands for each of its integrity errors. */
  ghost function VerifyRecovery(s: Setting, w: World): Option<Status> {
    var local := Verify(s.env, w.events, s.writerKeys);
    if local.None? then None
    else if w.remote.sequence > local.value.sequence then None
    else if w.remote.sequence > 0 && w.events[w.remote.sequence - 1].eventHash != w.remote.eventHash then None
    else
      var latest := Latest(w.saved);
      if latest.None? then if w.remote.sequence > 0 then None
          else Some(Status(local.value, w.remote, 0, local.value.sequence, false))
      else
        var c := latest.value;
        if !VerifyCheckpoint(s, c) || c.lastSequence > local.value.sequence || c.lastSequence == 0
           || w.events[c.lastSequence - 1].eventHash != c.lastEventHash || !InWorm(s, w.worm, c)
           || w.remote.sequence < c.lastSequence || w.remote.sequence != c.lastSequence
               || w.remote.eventHash != c.lastEventHash then None
        else
          var behind := local.value.sequence - c.lastSequence;
          Some(Status(local.value, w.remote, c.lastSequence, behind, behind == 0
              && w.remote.sequence == local.value.sequence))
  }
}
