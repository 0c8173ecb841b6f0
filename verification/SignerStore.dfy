/**
  The signer as the objects the process runs: a journal that owns the log file and a store that
  indexes it. Every method is proved against the value-level operations of SignerLedger, so the
  theorems of SignerRuns are about these methods.
 */
module SignerStore {
  import opened Text
  import opened SignerLedger
  import SignerRuns

  class SignerJournal {
    const env: Env
    var file: seq<LedgerEvent>
    var sequence: nat
    var lastHash: string
    var records: map<string, SignerRecord>
    var faulted: bool

    ghost function Value(): Journal
      reads this
    {
      Journal(file, Log(sequence, lastHash, records), faulted)
    }

    constructor (env: Env, file: seq<LedgerEvent>)
      ensures this.env == env && Value() == Journal(file, EMPTY_LOG, false)
    {
      this.env, this.file := env, file;
      sequence, lastHash, records, faulted := 0, "", map[], false;
    }

    /** Rebuild the log state from the first line to the last, stopping at the first line that does not fit. */
    method ReplayFile() returns (ok: bool)
      requires Value() == Journal(file, EMPTY_LOG, false)
      modifies this`sequence, this`lastHash, this`records
      ensures ok <==> Replay(env, file).Some?
      ensures ok ==> Value() == Journal(file, Replay(env, file).value, false)
    {
      var line := 0;
      while line < |file|
        invariant 0 <= line <= |file|
        invariant Replay(env, file[..line]) == Some(Log(sequence, lastHash, records))
      {
        var event := file[line];
        assert file[..line + 1][..line] == file[..line];
        if sequence == MAX_UINT64 || !ValidEvent(env, event, sequence + 1, lastHash)
           || !ValidTransition(records, event.body.record) || event.body.handleID != event.body.record.handle.id {
          ReplayStopsAt(env, file, line + 1);
          return false;
        }
        records := records[event.body.handleID := event.body.record];
        sequence, lastHash := event.body.sequence, event.hash;
        line := line + 1;
      }
      assert file[..|file|] == file;
      return true;
    }

    method AppendRecord(at: Time, record: SignerRecord, disk: Disk) returns (ok: bool)
      modifies this
      ensures (Value(), ok) == Append(env, old(Value()), at, record, disk)
    {
      if disk == Cancelled || faulted || sequence == MAX_UINT64 || !ValidTransition(records, record) {
        return false;
      }
      if env.encodedLength(record) > MAX_RECORD_BYTES {
        return false;
      }
      var body := EventBody(LEDGER_VERSION, sequence + 1, at, record.handle.id, lastHash, record);
      var event := LedgerEvent(body, env.eventHash(body));
      if disk == FailedBeforeWrite {
        faulted := true;
        return false;
      }
      file := file + [event];
      if disk == FailedAfterWrite {
        faulted := true;
        return false;
      }
      records := records[event.body.handleID := record];
      sequence, lastHash := event.body.sequence, event.hash;
      return true;
    }
  }

  /** A log that does not replay up to some line does not replay at all. */
  lemma {:induction false} ReplayStopsAt(env: Env, file: seq<LedgerEvent>, n: nat)
    requires n <= |file| && Replay(env, file[..n]).None?
    ensures Replay(env, file).None?
  {
    if n == |file| {
      assert file[..n] == file;
    } else {
      assert file[..|file| - 1][..n] == file[..n];
      ReplayStopsAt(env, file[..|file| - 1], n);
    }
  }

  class SignerStore {
    const env: Env
    const journal: SignerJournal
    var byID: map<string, SignerRecord>
    var byAction: map<string, string>

    ghost function Memory(): SignerState
      reads this
    {
      SignerState(byID, byAction)
    }

    ghost function Value(): Signer
      reads this, journal
    {
      Signer(Memory(), journal.Value())
    }

    ghost predicate Valid()
      reads this, journal
    {
      journal.env == env && Indexed(Memory()) && journal.records == byID
    }

    constructor (journal: SignerJournal, byID: map<string, SignerRecord>, byAction: map<string, string>)
      ensures this.env == journal.env && this.journal == journal && Memory() == SignerState(byID, byAction)
    {
      this.env, this.journal, this.byID, this.byAction := journal.env, journal, byID, byAction;
    }

    /** Write-ahead: the log first, the index only once the log has acknowledged. */
    method PersistExisting(at: Time, record: SignerRecord, disk: Disk) returns (ok: bool)
      requires Valid() && record.handle.id in byID
      modifies this, journal
      ensures Valid()
      ensures forall reply: Reply ::
                Execute(env, old(Value()), at, Persist(record, reply), disk)
                    == (Value(), if ok then reply else Failed(LedgerFailed))
    {
      hide ValidRecord, Hash, Identifier, ActionKey;
      ghost var before := Memory();
      ok := journal.AppendRecord(at, record, disk);
      if ok {
        SignerRuns.CommitKeepsIndex(before, record);
        byID := byID[record.handle.id := record];
      }
    }

    method Prepare(now: Clock, input: PrepareInput, candidates: seq<string>, nonce: Option<nat>,
          disk: Disk) returns (reply: Reply)
      requires Valid()
      modifies this, journal
      ensures Valid()
      ensures (Value(), reply) == Execute(env, old(Value()), now,
          PlanPrepare(env, old(Memory()), now, input, candidates, nonce), disk)
    {
      hide ValidRecord, ActionKey, ArtifactAAD, ValidPrepare, ValidTransition;
      if !ValidPrepare(now, input) {
        return Failed(BadTransition);
      }
      var key := ActionKey(input.binding.operationID, input.binding.actionID);
      if key in byAction {
        var record := byID[byAction[key]];
        if record.handle.binding != input.binding {
          return Failed(Mismatch);
        }
        var stored := Plaintext(env, record);
        if stored.None? {
          return Failed(CipherFailed);
        }
        return if stored.value == input.signature then Granted(record.handle) else Failed(Mismatch);
      }
      var id := FreshID(candidates);
      if id == "" {
        return Failed(NoFreshID);
      }
      if nonce.None? {
        return Failed(CipherFailed);
      }
      var handle := Handle(id, input.binding, Prepared, "");
      var record := SignerRecord(handle, env.seal(ArtifactAAD(env, handle), nonce.value, input.signature), None);
      ghost var before := Memory();
      var ok := journal.AppendRecord(now, record, disk);
      if !ok {
        return Failed(LedgerFailed);
      }
      SignerRuns.CommitKeepsIndex(before, record);
      byID := byID[id := record];
      byAction := byAction[key := id];
      return Granted(handle);
    }

    /** At most three random candidates; the empty ID stands for giving up. */
    method FreshID(candidates: seq<string>) returns (id: string)
      ensures id == (match PickID(byID, candidates, 3) case None => "" case Some(picked) => picked)
    {
      id := "";
      var attempt := 0;
      while attempt < 3 && attempt < |candidates|
        invariant 0 <= attempt <= 3 && attempt <= |candidates| && id == ""
        invariant PickID(byID, candidates, 3) == PickID(byID, candidates[attempt..], 3 - attempt)
      {
        if candidates[attempt] !in byID {
          return candidates[attempt];
        }
        assert candidates[attempt..][1..] == candidates[attempt + 1..];
        attempt := attempt + 1;
      }
    }

    method Activate(now: Clock, id: string, proof: ActivationProof, verified: bool, disk: Disk) returns (reply: Reply)
      requires Valid()
      modifies this, journal
      ensures Valid()
      ensures (Value(), reply) == Execute(env, old(Value()), now,
          PlanActivate(old(Memory()), now, id, proof, verified), disk)
    {
      hide ValidRecord, ActionKey, Append, Commit;
      if id !in byID {
        return Failed(BadTransition);
      }
      var record := byID[id];
      if Activated(record.handle.state) {
        return if record.activation == Some(proof) then Granted(record.handle) else Failed(Mismatch);
      }
      if record.handle.state != Prepared || now < record.handle.binding.validAfter
         || record.handle.binding.validUntil <= now || !ExactActivationProof(record.handle, proof) {
        return Failed(BadTransition);
      }
      if !verified {
        return Failed(VerifierRefused);
      }
      record := record.(handle := record.handle.(state := Active), activation := Some(proof));
      var ok := PersistExisting(now, record, disk);
      return if ok then Granted(record.handle) else Failed(LedgerFailed);
    }

    method Release(now: Clock, id: string, keeperID: string, disk: Disk) returns (reply: Reply)
      requires Valid()
      modifies this, journal
      ensures Valid()
      ensures (Value(), reply) == Execute(env, old(Value()), now, PlanRelease(env, old(Memory()), now, id, keeperID),
          disk)
    {
      hide ValidRecord, ActionKey, Append, Commit, Plaintext;
      if id !in byID {
        return Failed(BadTransition);
      }
      var record := byID[id];
      if keeperID != record.handle.binding.keeperID {
        return Failed(WrongKeeper);
      }
      if (record.handle.state != Active && record.handle.state != Released)
         || now < record.handle.binding.validAfter || record.handle.binding.validUntil <= now {
        return Failed(BadTransition);
      }
      var artifact := Plaintext(env, record);
      if artifact.None? {
        return Failed(CipherFailed);
      }
      if record.handle.state == Active {
        record := record.(handle := record.handle.(state := Released));
        var ok := PersistExisting(now, record, disk);
        if !ok {
          return Failed(LedgerFailed);
        }
      }
      return Artifact(record.handle, artifact.value);
    }

    method Expire(now: Clock, id: string, proven: bool, disk: Disk) returns (reply: Reply)
      requires Valid()
      modifies this, journal
      ensures Valid()
      ensures (Value(), reply) == Execute(env, old(Value()), now, PlanExpire(old(Memory()), now, id, proven), disk)
    {
      hide ValidRecord, ActionKey, Append, Commit;
      if id !in byID || byID[id].handle.state != Prepared || now < byID[id].handle.binding.validUntil {
        return Failed(BadTransition);
      }
      if !proven {
        return Failed(VerifierRefused);
      }
      var record := ExpiredRecord(byID[id]);
      var ok := PersistExisting(now, record, disk);
      return if ok then Granted(record.handle) else Failed(LedgerFailed);
    }

    /** ProveAndExpireUnactivated: a PREPARED record is durably expired before the proof is returned. */
    method ProveAndExpire(now: Clock, requestID: string, operationID: string, actionID: string, inputHash: string,
                          proven: bool, disk: Disk) returns (reply: Reply)
      requires Valid()
      modifies this, journal
      ensures Valid()
      ensures (Value(), reply) ==
              Execute(env, old(Value()), now, PlanProve(env, old(Memory()), now, requestID, operationID, actionID,
                  inputHash, proven), disk)
    {
      hide ValidRecord, Append, Commit, Hash, Identifier, ActionKey;
      if !Hash(requestID) || !Hash(operationID) || !Identifier(actionID) || !Hash(inputHash) {
        return Failed(BadTransition);
      }
      var handleID := "";
      var key := ActionKey(operationID, actionID);
      if key in byAction {
        var record := byID[byAction[key]];
        if record.handle.binding.requestID != requestID || record.handle.binding.operationID != operationID
           || record.handle.binding.signerRequestHash != inputHash {
          return Failed(Mismatch);
        }
        if record.handle.state != Expired {
          if record.handle.state != Prepared || now < record.handle.binding.validUntil {
            return Failed(BadTransition);
          }
          if !proven {
            return Failed(VerifierRefused);
          }
          var ok := PersistExisting(now, ExpiredRecord(record), disk);
          if !ok {
            return Failed(LedgerFailed);
          }
        }
        handleID := record.handle.id;
      }
      return Unactivated(NewUnactivatedProof(env, requestID, operationID, actionID, inputHash, handleID, now));
    }

    method Finalize(now: Clock, id: string, outcome: string, disk: Disk) returns (reply: Reply)
      requires Valid()
      modifies this, journal
      ensures Valid()
      ensures (Value(), reply) == Execute(env, old(Value()), now, PlanFinalize(old(Memory()), id, outcome), disk)
    {
      hide ValidRecord, ActionKey, Append, Commit;
      if id !in byID || byID[id].handle.state != Released || outcome == "" || |outcome| > 128 {
        return Failed(BadTransition);
      }
      var record := byID[id].(handle := byID[id].handle.(state := Terminal, outcome := outcome));
      var ok := PersistExisting(now, record, disk);
      return if ok then Granted(record.handle) else Failed(LedgerFailed);
    }
  }

  // ---------- Opening a store from its file ----------

  /** The external verifier's answer for one record at startup. */
  predicate Confirms(verifier: SignerRecord -> bool, r: SignerRecord) {
    r.handle.state == Prepared || verifier(r)
  }

  predicate RecordReopens(env: Env, id: string, r: SignerRecord, verifier: SignerRecord -> bool, now: Time) {
    && r.handle.id == id
    && Plaintext(env, r).Some? && 64 <= |Plaintext(env, r).value| <= 16 * 1024
    && (r.handle.state == Expired ==> r.handle.binding.validUntil <= now)
    && Confirms(verifier, r)
  }

  /** The startup loop: revalidate each replayed record and index it by handle and by action. */
  method Reindex(env: Env, records: map<string, SignerRecord>, now: Clock, verifier: SignerRecord -> bool)
    returns (ok: bool, byID: map<string, SignerRecord>, byAction: map<string, string>)
    requires OneRecordPerAction(records)
    ensures ok <==> forall id | id in records :: RecordReopens(env, id, records[id], verifier, now)
    ensures ok ==> SignerState(byID, byAction) == IndexOf(records)
  {
    hide RecordReopens, KeyOf;
    byID, byAction := map[], map[];
    var pending := records.Keys;
    while pending != {}
      invariant pending <= records.Keys && byID.Keys == records.Keys - pending
      invariant forall id | id in byID :: byID[id] == records[id] && RecordReopens(env, id, records[id], verifier, now)
      invariant forall id | id in byID ::
          KeyOf(records[id].handle) in byAction && byAction[KeyOf(records[id].handle)] == id
      invariant forall key | key in byAction :: byAction[key] in byID && KeyOf(records[byAction[key]].handle) == key
      decreases pending
    {
      var id :| id in pending;
      if !RecordReopens(env, id, records[id], verifier, now) {
        return false, byID, byAction;
      }
      byID := byID[id := records[id]];
      byAction := byAction[KeyOf(records[id].handle) := id];
      pending := pending - {id};
    }
    assert byID == records;
    assert byAction == IndexOf(records).byAction;
    ok := true;
  }

  /**
    OpenFileSignerStore: a crashed process is succeeded by exactly the signer its file replays to,
    and opening fails only if the file does not replay or a record fails revalidation.
   */
  method OpenFileSignerStore(env: Env, ghost crashed: Signer, file: seq<LedgerEvent>, now: Clock,
        verifier: SignerRecord -> bool)
    returns (store: SignerStore?)
    requires crashed.journal.file == file
    ensures store == null <==>
            !(Replay(env, file).Some?
              && Revalidates(env, Replay(env, file).value.records, now)
              && forall id | id in Replay(env, file).value.records :: Confirms(verifier,
                  Replay(env, file).value.records[id]))
    ensures store != null ==> fresh(store) && fresh(store.journal) && store.Valid()
                              && (store.Value(), Opened) == SignerRuns.Restart(env, crashed, now, true)
  {
    hide ValidRecord, KeyOf, Plaintext, Indexed;
    var journal := new SignerJournal(env, file);
    var replayed := journal.ReplayFile();
    if !replayed {
      return null;
    }
    SignerRuns.ReplayIndexes(env, file);
    var ok, byID, byAction := Reindex(env, journal.records, now, verifier);
    if !ok {
      return null;
    }
    store := new SignerStore(journal, byID, byAction);
  }
}
