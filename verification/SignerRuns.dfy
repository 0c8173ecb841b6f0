/** What holds over every run of the signer, including failed writes and restarts from the log. */
module SignerRuns {
  import opened Text
  import opened SignerLedger

  // ---------- Keys and encryption contexts ----------

  lemma ActionKeyInjective(a: Binding, b: Binding)
    requires ValidBinding(a) && ValidBinding(b)
    requires ActionKey(a.operationID, a.actionID) == ActionKey(b.operationID, b.actionID)
    ensures a.operationID == b.operationID && a.actionID == b.actionID
  {
    var ka, kb := ActionKey(a.operationID, a.actionID), ActionKey(b.operationID, b.actionID);
    assert ka[..66] == a.operationID && kb[..66] == b.operationID;
    assert ka[67..] == a.actionID && kb[67..] == b.actionID;
  }

  function AADFields(env: Env, h: Handle): seq<string> {
    var b := h.binding;
    ["ASCP_SIGNER_ARTIFACT_V2", h.id, b.requestID, b.authorizationID, b.reservationID, b.actionID,
     b.operationID, b.signerRequestHash, b.canonicalPayloadHash, b.digest, b.nonce, b.signerKeyID,
     Decimal(b.keyEpoch), b.keeperID, env.formatTime(b.validAfter), env.formatTime(b.validUntil)]
  }

  lemma HashIsOneLine(s: string)
    requires Hash(s)
    ensures Free(s, '\n')
  {
    forall i | 0 <= i < |s| ensures s[i] != '\n' { assert i < 2 || HexDigit(s[i]); }
  }

  lemma AADFieldsAreLines(env: Env, h: Handle)
    requires TimeLaw(env) && OpaqueHandle(h.id) && ValidBinding(h.binding)
    ensures AllFree(AADFields(env, h), '\n')
  {
    var b := h.binding;
    HashIsOneLine(b.requestID);
    HashIsOneLine(b.authorizationID);
    HashIsOneLine(b.reservationID);
    HashIsOneLine(b.operationID);
    HashIsOneLine(b.signerRequestHash);
    HashIsOneLine(b.canonicalPayloadHash);
    HashIsOneLine(b.digest);
    HashIsOneLine(b.nonce);
    assert Free("ASCP_SIGNER_ARTIFACT_V2", '\n') && Free(Decimal(b.keyEpoch), '\n');
  }

  /** The encryption context names exactly one handle: its ID and every bound field. */
  lemma AADInjective(env: Env, a: Handle, b: Handle)
    requires TimeLaw(env)
    requires OpaqueHandle(a.id) && ValidBinding(a.binding) && OpaqueHandle(b.id) && ValidBinding(b.binding)
    ensures ArtifactAAD(env, a) == ArtifactAAD(env, b) <==> a.id == b.id && a.binding == b.binding
  {
    if ArtifactAAD(env, a) == ArtifactAAD(env, b) {
      AADFieldsAreLines(env, a);
      AADFieldsAreLines(env, b);
      JoinInjective(AADFields(env, a), AADFields(env, b), '\n');
      var fa, fb := AADFields(env, a), AADFields(env, b);
      assert fa[1] == fb[1] && fa[2] == fb[2] && fa[3] == fb[3] && fa[4] == fb[4] && fa[5] == fb[5];
      assert fa[6] == fb[6] && fa[7] == fb[7] && fa[8] == fb[8] && fa[9] == fb[9] && fa[10] == fb[10];
      assert fa[11] == fb[11] && fa[12] == fb[12] && fa[13] == fb[13] && fa[14] == fb[14] && fa[15] == fb[15];
      DecimalInjective(a.binding.keyEpoch, b.binding.keyEpoch);
    }
  }

  // ---------- Every write the store asks for is one the log accepts ----------

  /** Random IDs have the opaque shape and clocks are more than a minute past the zero instant. */
  predicate Ordinary(call: Call) {
    call.Prepare? ==> call.now > MINUTE && forall i | 0 <= i < |call.candidates| :: OpaqueHandle(call.candidates[i])
  }

  lemma FreshActionIsAccepted(s: SignerState, r: SignerRecord)
    requires Indexed(s) && ValidRecord(r) && r.handle.state == Prepared
    requires r.handle.id !in s.byID && KeyOf(r.handle) !in s.byAction
    ensures ValidTransition(s.byID, r)
  {
    forall id | id in s.byID ensures !SameAction(s.byID[id].handle, r.handle) {
      assert KeyOf(s.byID[id].handle) in s.byAction;
    }
  }

  lemma PrepareIsAccepted(env: Env, s: SignerState, call: Call)
    requires CipherLaw(env) && Indexed(s) && call.Prepare? && Ordinary(call)
    requires PlanOf(env, s, call).Persist?
    ensures ValidTransition(s.byID, PlanOf(env, s, call).record)
  {
    hide Hash, Identifier, OpaqueHandle, ArtifactAAD, ActionKey;
    FreshActionIsAccepted(s, PlanOf(env, s, call).record);
  }

  /** No operation of the store ever asks the ledger for a transition it would refuse. */
  lemma PlansAreAccepted(env: Env, s: SignerState, call: Call)
    requires CipherLaw(env) && Indexed(s) && !call.Reopen? && Ordinary(call)
    requires PlanOf(env, s, call).Persist?
    ensures ValidTransition(s.byID, PlanOf(env, s, call).record)
  {
    hide Hash, Identifier, OpaqueHandle, Plaintext, ActionKey, PlanPrepare, ValidBinding, NewUnactivatedProof;
    if call.Prepare? {
      PrepareIsAccepted(env, s, call);
    }
  }

  lemma CommitKeepsIndex(s: SignerState, r: SignerRecord)
    requires Indexed(s) && ValidTransition(s.byID, r)
    ensures Indexed(Commit(s, r))
    ensures r.handle.id in s.byID ==> Commit(s, r).byAction == s.byAction
    ensures r.handle.id !in s.byID ==> KeyOf(r.handle) !in s.byAction
  {
    hide Hash, Identifier, OpaqueHandle, ActionKey, ValidBinding;
    if r.handle.id in s.byID {
      assert KeyOf(s.byID[r.handle.id].handle) == KeyOf(r.handle);
    } else if KeyOf(r.handle) in s.byAction {
      var other := s.byID[s.byAction[KeyOf(r.handle)]];
      ActionKeyInjective(other.handle.binding, r.handle.binding);
      assert false;
    }
  }

  // ---------- Runs ----------

  datatype Input = Input(call: Call, disk: Disk)

  ghost function Restart(env: Env, m: Signer, now: Time, revalidated: bool): (Signer, Reply) {
    match Replay(env, m.journal.file)
    case None => (m, Failed(LedgerFailed))
    case Some(log) =>
      if !revalidated || !Revalidates(env, log.records, now) || !OneRecordPerAction(log.records)
          then (m, Failed(LedgerFailed))
      else (Signer(IndexOf(log.records), Journal(m.journal.file, log, false)), Opened)
  }

  ghost function Step(env: Env, m: Signer, input: Input): (Signer, Reply) {
    if input.call.Reopen? then Restart(env, m, input.call.now, input.call.revalidated)
    else Execute(env, m, input.call.now, PlanOf(env, m.mem, input.call), input.disk)
  }

  const FRESH: Signer := Signer(SignerState(map[], map[]), Journal([], EMPTY_LOG, false))

  ghost function Run(env: Env, inputs: seq<Input>): Signer {
    if |inputs| == 0 then FRESH else Step(env, Run(env, inputs[..|inputs| - 1]), inputs[|inputs| - 1]).0
  }

  /** The answer given to input i of a run. */
  ghost function ReplyTo(env: Env, inputs: seq<Input>, i: nat): Reply
    requires i < |inputs|
  {
    Step(env, Run(env, inputs[..i]), inputs[i]).1
  }

  // ---------- Log refinement ----------

  /** What a file may hold: the journal's log, or, after a fault, that log and one more accepted event. */
  ghost predicate FileMatches(env: Env, j: Journal) {
    || Replay(env, j.file) == Some(j.log)
    || (j.faulted && |j.file| > 0 && Replay(env, j.file[..|j.file| - 1]) == Some(j.log) && Replay(env, j.file).Some?)
  }

  ghost predicate Refines(env: Env, m: Signer) {
    && Indexed(m.mem)
    && m.mem.byID == m.journal.log.records
    && FileMatches(env, m.journal)
    && (!m.journal.faulted ==> Replay(env, m.journal.file) == Some(m.journal.log))
  }

  lemma AppendedEventReplays(env: Env, j: Journal, at: Clock, record: SignerRecord)
    requires Replay(env, j.file) == Some(j.log) && Appendable(env, j, record)
    ensures var e := NextEvent(env, j.log, at, record);
            Replay(env, j.file + [e]) == Some(Log(e.body.sequence, e.hash, j.log.records[record.handle.id := record]))
  {
    var e := NextEvent(env, j.log, at, record);
    assert (j.file + [e])[..|j.file|] == j.file;
  }

  lemma AppendKeepsFile(env: Env, j: Journal, at: Clock, record: SignerRecord, disk: Disk)
    requires FileMatches(env, j) && (!j.faulted ==> Replay(env, j.file) == Some(j.log))
    ensures var j' := Append(env, j, at, record, disk).0;
            FileMatches(env, j') && (!j'.faulted ==> Replay(env, j'.file) == Some(j'.log))
  {
    if disk != Cancelled && Appendable(env, j, record) {
      AppendedEventReplays(env, j, at, record);
      var e := NextEvent(env, j.log, at, record);
      assert (j.file + [e])[..|j.file|] == j.file;
    }
  }

  lemma IndexIsDetermined(s: SignerState)
    requires Indexed(s)
    ensures OneRecordPerAction(s.byID) && IndexOf(s.byID) == s
  {
    hide ValidRecord, ActionKey;
    var index := IndexOf(s.byID);
    assert index.byAction.Keys == s.byAction.Keys by {
      forall key | key in s.byAction ensures key in index.byAction {
        assert KeyOf(s.byID[s.byAction[key]].handle) == key;
      }
    }
  }

  /** Records that a log can rebuild form a well-formed index. */
  lemma {:induction false} ReplayIndexes(env: Env, file: seq<LedgerEvent>)
    requires Replay(env, file).Some?
    ensures OneRecordPerAction(Replay(env, file).value.records)
    ensures Indexed(IndexOf(Replay(env, file).value.records))
  {
    hide ValidRecord, ValidTransition, ActionKey, ValidEvent;
    if |file| > 0 {
      var prior := Replay(env, file[..|file| - 1]).value;
      ReplayIndexes(env, file[..|file| - 1]);
      var s, r := IndexOf(prior.records), file[|file| - 1].body.record;
      CommitKeepsIndex(s, r);
      IndexIsDetermined(Commit(s, r));
      assert Commit(s, r).byID == Replay(env, file).value.records;
    }
  }

  /** One attempted write of an acceptable record, whatever the disk does. */
  lemma WriteRefines(env: Env, m: Signer, at: Clock, record: SignerRecord, reply: Reply, disk: Disk)
    requires Refines(env, m) && ValidTransition(m.mem.byID, record)
    ensures Refines(env, Execute(env, m, at, Persist(record, reply), disk).0)
  {
    hide ValidRecord, ValidTransition, ActionKey, Indexed, Replay;
    CommitKeepsIndex(m.mem, record);
    AppendKeepsFile(env, m.journal, at, record, disk);
  }

  lemma StepRefines(env: Env, m: Signer, input: Input)
    requires CipherLaw(env) && Refines(env, m) && Ordinary(input.call)
    ensures Refines(env, Step(env, m, input).0)
  {
    hide ValidRecord, ValidTransition, ActionKey, PlanOf, Indexed, Replay, OneRecordPerAction;
    if input.call.Reopen? {
      if Replay(env, m.journal.file).Some? {
        ReplayIndexes(env, m.journal.file);
      }
    } else {
      var plan := PlanOf(env, m.mem, input.call);
      if plan.Persist? {
        PlansAreAccepted(env, m.mem, input.call);
        WriteRefines(env, m, input.call.now, plan.record, plan.reply, input.disk);
      }
    }
  }

  ghost predicate OrdinaryRun(inputs: seq<Input>) {
    forall i | 0 <= i < |inputs| :: Ordinary(inputs[i].call)
  }

  lemma {:induction false} RunRefines(env: Env, inputs: seq<Input>)
    requires CipherLaw(env) && OrdinaryRun(inputs)
    ensures Refines(env, Run(env, inputs))
  {
    if |inputs| > 0 {
      RunRefines(env, inputs[..|inputs| - 1]);
      StepRefines(env, Run(env, inputs[..|inputs| - 1]), inputs[|inputs| - 1]);
    }
  }

  /** The record that reached the file although its write was reported as failed. */
  ghost function Orphan(env: Env, j: Journal): Option<SignerRecord> {
    if |j.file| == 0 || Replay(env, j.file) == Some(j.log) then None else Some(j.file[|j.file| - 1].body.record)
  }

  /** What a process that reopens the ledger now would serve. */
  ghost function Durable(env: Env, m: Signer): SignerState {
    var orphan := Orphan(env, m.journal);
    if orphan.None? then m.mem else Commit(m.mem, orphan.value)
  }

  lemma ReplayIsDurable(env: Env, m: Signer)
    requires Refines(env, m)
    ensures Replay(env, m.journal.file).Some? && OneRecordPerAction(Replay(env, m.journal.file).value.records)
    ensures IndexOf(Replay(env, m.journal.file).value.records) == Durable(env, m)
    ensures var orphan := Orphan(env, m.journal);
        orphan.Some? ==> m.journal.faulted && ValidTransition(m.mem.byID, orphan.value)
  {
    ReplayIndexes(env, m.journal.file);
    IndexIsDetermined(m.mem);
    if Orphan(env, m.journal).Some? {
      var r := m.journal.file[|m.journal.file| - 1].body.record;
      CommitKeepsIndex(m.mem, r);
      IndexIsDetermined(Commit(m.mem, r));
    }
  }

  /**
    Log refinement. After any run, replaying the file from empty yields exactly the in-memory maps;
    after a failed write it yields those maps or those maps and one more transition the log accepts.
   */
  lemma LogRefinement(env: Env, inputs: seq<Input>)
    requires CipherLaw(env) && OrdinaryRun(inputs)
    ensures var m := Run(env, inputs);
            && Replay(env, m.journal.file).Some?
            && OneRecordPerAction(Replay(env, m.journal.file).value.records)
            && var rebuilt := IndexOf(Replay(env, m.journal.file).value.records);
               (rebuilt == m.mem
               || (m.journal.faulted && exists r: SignerRecord ::
                   ValidTransition(m.mem.byID, r) && rebuilt == Commit(m.mem, r)))
  {
    hide Run, Replay, ValidTransition;
    RunRefines(env, inputs);
    ReplayIsDurable(env, Run(env, inputs));
  }

  // ---------- Nothing acknowledged is lost ----------

  predicate Reaches(from: State, to: State) {
    || from == to || NextState(from, to)
    || (from == Prepared && (to == Released || to == Terminal))
    || (from == Active && to == Terminal)
  }

  /** A record that may follow `old`: same identity and ciphertext, same proof once there is one, later state. */
  predicate Follows(old': SignerRecord, new': SignerRecord) {
    && new'.handle.id == old'.handle.id && new'.handle.binding == old'.handle.binding
        && new'.encrypted == old'.encrypted
    && (old'.activation.Some? ==> new'.activation == old'.activation)
    && Reaches(old'.handle.state, new'.handle.state)
    && (old'.handle.state == new'.handle.state ==> old' == new')
  }

  ghost predicate Advances(a: map<string, SignerRecord>, b: map<string, SignerRecord>) {
    forall id | id in a :: id in b && Follows(a[id], b[id])
  }

  lemma AdvancesTransitive(a: map<string, SignerRecord>, b: map<string, SignerRecord>, c: map<string, SignerRecord>)
    requires Advances(a, b) && Advances(b, c)
    ensures Advances(a, c)
  {
    forall id | id in a ensures id in c && Follows(a[id], c[id]) {
      assert id in b && Follows(a[id], b[id]) && Follows(b[id], c[id]);
    }
  }

  lemma TransitionAdvances(records: map<string, SignerRecord>, r: SignerRecord)
    requires ValidTransition(records, r)
    requires forall id | id in records :: records[id].handle.id == id
    ensures Advances(records, records[r.handle.id := r])
  {
    hide Hash, Identifier, OpaqueHandle, ValidBinding, ExactActivationProof;
  }

  lemma RestartAdvances(env: Env, m: Signer)
    requires Refines(env, m) && Replay(env, m.journal.file).Some?
    ensures Advances(m.mem.byID, Replay(env, m.journal.file).value.records)
  {
    hide ValidRecord, ValidTransition, ActionKey;
    if Replay(env, m.journal.file) != Some(m.journal.log) {
      TransitionAdvances(m.mem.byID, m.journal.file[|m.journal.file| - 1].body.record);
    }
  }

  lemma StepAdvances(env: Env, m: Signer, input: Input)
    requires CipherLaw(env) && Refines(env, m) && Ordinary(input.call)
    ensures Advances(m.mem.byID, Step(env, m, input).0.mem.byID)
  {
    hide ValidRecord, ValidTransition, ActionKey, PlanOf, Replay, OneRecordPerAction, FileMatches;
    if input.call.Reopen? {
      if Replay(env, m.journal.file).Some? {
        RestartAdvances(env, m);
      }
    } else if PlanOf(env, m.mem, input.call).Persist? {
      PlansAreAccepted(env, m.mem, input.call);
      TransitionAdvances(m.mem.byID, PlanOf(env, m.mem, input.call).record);
    }
  }

  /** Over any run, restarts included, a record once served keeps its identity and only moves forward. */
  lemma {:induction false} NothingAcknowledgedIsLost(env: Env, inputs: seq<Input>, i: nat)
    requires CipherLaw(env) && OrdinaryRun(inputs) && i <= |inputs|
    ensures Advances(Run(env, inputs[..i]).mem.byID, Run(env, inputs).mem.byID)
    decreases |inputs|
  {
    if i == |inputs| {
      assert inputs[..i] == inputs;
    } else {
      var prefix := inputs[..|inputs| - 1];
      assert prefix[..i] == inputs[..i];
      NothingAcknowledgedIsLost(env, prefix, i);
      RunRefines(env, prefix);
      StepAdvances(env, Run(env, prefix), inputs[|inputs| - 1]);
      AdvancesTransitive(Run(env, inputs[..i]).mem.byID, Run(env, prefix).mem.byID, Run(env, inputs).mem.byID);
    }
  }

  // ---------- Where every log entry comes from ----------

  ghost predicate WrittenBy(env: Env, r: SignerRecord, input: Input) {
    && input.call.Prepare? && ValidPrepare(input.call.now, input.call.input)
    && r.handle.binding == input.call.input.binding && input.call.nonce.Some?
    && r.encrypted == env.seal(ArtifactAAD(env, r.handle), input.call.nonce.value, input.call.input.signature)
  }

  ghost predicate ActivatedBy(env: Env, r: SignerRecord, inputs: seq<Input>, i: int) {
    && 0 <= i < |inputs| && inputs[i].call.Activate? && inputs[i].call.verified
    && inputs[i].call.id == r.handle.id && r.activation == Some(inputs[i].call.proof)
    && r.handle.binding.validAfter <= inputs[i].call.now < r.handle.binding.validUntil
    && r.handle.id in Run(env, inputs[..i]).mem.byID
  }

  /** A log entry is the work of some input of the run. */
  ghost predicate Explained(env: Env, inputs: seq<Input>, e: LedgerEvent) {
    && (e.body.record.handle.state == Prepared
        ==> exists i :: 0 <= i < |inputs| && WrittenBy(env, e.body.record, inputs[i]))
    && (e.body.record.handle.state == Active ==> exists i :: ActivatedBy(env, e.body.record, inputs, i))
    && (e.body.record.handle.state == Expired ==> e.body.record.handle.binding.validUntil <= e.body.at)
  }

  ghost predicate FileExplained(env: Env, inputs: seq<Input>, file: seq<LedgerEvent>) {
    forall k | 0 <= k < |file| :: Explained(env, inputs, file[k])
  }

  lemma ExplainedLater(env: Env, inputs: seq<Input>, more: Input, e: LedgerEvent)
    requires Explained(env, inputs, e)
    ensures Explained(env, inputs + [more], e)
  {
    hide Run, ValidPrepare, ArtifactAAD;
    var longer := inputs + [more];
    if e.body.record.handle.state == Prepared {
      var i :| 0 <= i < |inputs| && WrittenBy(env, e.body.record, inputs[i]);
      assert longer[i] == inputs[i];
    }
    if e.body.record.handle.state == Active {
      var i :| ActivatedBy(env, e.body.record, inputs, i);
      assert longer[i] == inputs[i] && longer[..i] == inputs[..i];
      assert ActivatedBy(env, e.body.record, longer, i);
    }
  }

  lemma PlannedEventIsExplained(env: Env, inputs: seq<Input>, input: Input)
    requires CipherLaw(env) && Refines(env, Run(env, inputs)) && !input.call.Reopen?
    requires PlanOf(env, Run(env, inputs).mem, input.call).Persist?
    ensures var record := PlanOf(env, Run(env, inputs).mem, input.call).record;
            Explained(env, inputs + [input], NextEvent(env, Run(env, inputs).journal.log, input.call.now, record))
  {
    hide Run, ValidRecord, ArtifactAAD, ActionKey, Hash, Identifier, FileMatches, ExactActivationProof;
    var longer := inputs + [input];
    assert longer[|inputs|] == input && longer[..|inputs|] == inputs;
    var record := PlanOf(env, Run(env, inputs).mem, input.call).record;
    if record.handle.state == Prepared {
      assert WrittenBy(env, record, longer[|inputs|]);
    }
    if record.handle.state == Active {
      assert ActivatedBy(env, record, longer, |inputs|);
    }
  }

  lemma {:induction false} RunIsExplained(env: Env, inputs: seq<Input>)
    requires CipherLaw(env) && OrdinaryRun(inputs)
    ensures FileExplained(env, inputs, Run(env, inputs).journal.file)
  {
    hide ValidRecord, ValidTransition, PlanOf, Explained, Replay, Revalidates, OneRecordPerAction, IndexOf, Commit;
    if |inputs| > 0 {
      var prefix, last := inputs[..|inputs| - 1], inputs[|inputs| - 1];
      assert prefix + [last] == inputs;
      RunIsExplained(env, prefix);
      RunRefines(env, prefix);
      var m := Run(env, prefix);
      forall k | 0 <= k < |m.journal.file| ensures Explained(env, inputs, m.journal.file[k]) {
        ExplainedLater(env, prefix, last, m.journal.file[k]);
      }
      if !last.call.Reopen? && PlanOf(env, m.mem, last.call).Persist? {
        PlannedEventIsExplained(env, prefix, last);
      }
    }
  }

  // ---------- Where every record comes from ----------

  predicate SameArtifact(a: SignerRecord, b: SignerRecord) {
    a.handle.id == b.handle.id && a.handle.binding == b.handle.binding && a.encrypted == b.encrypted
  }

  ghost predicate HasOrigin(file: seq<LedgerEvent>, r: SignerRecord) {
    && (exists k ::
          0 <= k < |file| && file[k].body.record.handle.state == Prepared && SameArtifact(file[k].body.record, r))
    && (r.activation.Some? ==>
          exists k :: 0 <= k < |file| && file[k].body.record.handle.state == Active
                      && SameArtifact(file[k].body.record, r) && file[k].body.record.activation == r.activation)
    && (r.handle.state == Expired ==> exists k :: 0 <= k < |file| && file[k].body.record == r)
  }

  lemma OriginLater(file: seq<LedgerEvent>, e: LedgerEvent, r: SignerRecord)
    requires HasOrigin(file, r)
    ensures HasOrigin(file + [e], r)
  {
    var longer := file + [e];
    assert forall k | 0 <= k < |file| :: longer[k] == file[k];
  }

  lemma NextRecordHasOrigin(env: Env, log: Log, file: seq<LedgerEvent>, e: LedgerEvent)
    requires ReplayEvent(env, log, e).Some?
    requires forall id | id in log.records :: ValidRecord(log.records[id]) && HasOrigin(file, log.records[id])
    ensures HasOrigin(file + [e], e.body.record)
  {
    hide Hash, Identifier, OpaqueHandle, ValidBinding, ExactActivationProof;
    var r, longer := e.body.record, file + [e];
    assert longer[|file|] == e;
    if r.handle.id in log.records {
      var current := log.records[r.handle.id];
      OriginLater(file, e, current);
      assert SameArtifact(current, r);
    }
  }

  /** Every record a log rebuilds goes back to a PREPARED entry and, if activated, to one ACTIVE entry. */
  lemma {:induction false} RecordsHaveOrigin(env: Env, file: seq<LedgerEvent>)
    requires Replay(env, file).Some?
    ensures forall id | id in Replay(env, file).value.records ::
              ValidRecord(Replay(env, file).value.records[id]) && HasOrigin(file, Replay(env, file).value.records[id])
  {
    hide ValidRecord, HasOrigin;
    if |file| > 0 {
      var prefix, e := file[..|file| - 1], file[|file| - 1];
      assert file == prefix + [e];
      RecordsHaveOrigin(env, prefix);
      var prior := Replay(env, prefix).value;
      NextRecordHasOrigin(env, prior, prefix, e);
      forall id | id in prior.records ensures HasOrigin(file, prior.records[id]) {
        OriginLater(prefix, e, prior.records[id]);
      }
    }
  }

  /** The log behind the records a signer serves: the file, without an unacknowledged last entry. */
  ghost function ServedFile(env: Env, m: Signer): (file: seq<LedgerEvent>)
    requires Refines(env, m)
    ensures Replay(env, file) == Some(m.journal.log)
    ensures |file| <= |m.journal.file| && file == m.journal.file[..|file|]
  {
    hide ValidRecord, Indexed;
    var file := m.journal.file;
    assert file[..|file|] == file;
    if Replay(env, file) == Some(m.journal.log) then file else file[..|file| - 1]
  }

  lemma ServedRecordHasOrigin(env: Env, inputs: seq<Input>, id: string)
    requires CipherLaw(env) && OrdinaryRun(inputs) && id in Run(env, inputs).mem.byID
    ensures HasOrigin(Run(env, inputs).journal.file, Run(env, inputs).mem.byID[id])
  {
    hide ValidRecord, Indexed, Run;
    RunRefines(env, inputs);
    var m := Run(env, inputs);
    var file := ServedFile(env, m);
    RecordsHaveOrigin(env, file);
    assert forall k | 0 <= k < |file| :: file[k] == m.journal.file[k];
  }

  lemma RecordWasPrepared(env: Env, inputs: seq<Input>, id: string) returns (i: nat)
    requires CipherLaw(env) && OrdinaryRun(inputs) && id in Run(env, inputs).mem.byID
    ensures i < |inputs| && WrittenBy(env, Run(env, inputs).mem.byID[id], inputs[i])
  {
    hide Run, ArtifactAAD, ValidPrepare;
    RunIsExplained(env, inputs);
    ServedRecordHasOrigin(env, inputs, id);
    var r, file := Run(env, inputs).mem.byID[id], Run(env, inputs).journal.file;
    var k :| 0 <= k < |file| && file[k].body.record.handle.state == Prepared && SameArtifact(file[k].body.record, r);
    assert Explained(env, inputs, file[k]);
    i :| 0 <= i < |inputs| && WrittenBy(env, file[k].body.record, inputs[i]);
    SameArtifactSameContext(env, file[k].body.record, r);
  }

  lemma SameArtifactSameContext(env: Env, a: SignerRecord, b: SignerRecord)
    requires SameArtifact(a, b)
    ensures ArtifactAAD(env, a.handle) == ArtifactAAD(env, b.handle)
  {
  }

  lemma RecordWasActivated(env: Env, inputs: seq<Input>, id: string) returns (a: nat)
    requires CipherLaw(env) && OrdinaryRun(inputs) && id in Run(env, inputs).mem.byID
    requires Run(env, inputs).mem.byID[id].activation.Some?
    ensures ActivatedBy(env, Run(env, inputs).mem.byID[id], inputs, a)
  {
    hide Run;
    RunIsExplained(env, inputs);
    ServedRecordHasOrigin(env, inputs, id);
    var r, file := Run(env, inputs).mem.byID[id], Run(env, inputs).journal.file;
    var k :| 0 <= k < |file| && file[k].body.record.handle.state == Active
             && SameArtifact(file[k].body.record, r) && file[k].body.record.activation == r.activation;
    assert Explained(env, inputs, file[k]);
    a :| ActivatedBy(env, file[k].body.record, inputs, a);
  }

  // ---------- What Release hands out ----------

  /**
    i prepared the signature, a activated its handle with a verified exact proof, j released it to its keeper
    in time.
   */
  ghost predicate ReleaseStory(inputs: seq<Input>, i: int, a: int, j: int, h: Handle, bytes: Bytes) {
    && 0 <= i < a < j < |inputs|
    && inputs[i].call.Prepare? && inputs[i].call.input == PrepareInput(h.binding, bytes)
    && inputs[a].call.Activate? && inputs[a].call.id == h.id && inputs[a].call.verified
    && ExactActivationProof(h, inputs[a].call.proof)
    && inputs[j].call.Release? && inputs[j].call.id == h.id && inputs[j].call.keeperID == h.binding.keeperID
    && h.binding.validAfter <= inputs[j].call.now < h.binding.validUntil
  }

  lemma SealedPlaintext(env: Env, r: SignerRecord, input: Input)
    requires CipherLaw(env) && WrittenBy(env, r, input)
    ensures Plaintext(env, r) == Some(input.call.input.signature)
  {
    hide ArtifactAAD, ValidPrepare;
  }

  lemma ArtifactReply(env: Env, m: Signer, input: Input)
    requires CipherLaw(env) && Refines(env, m) && Step(env, m, input).1.Artifact?
    ensures var h := Step(env, m, input).1.released;
            && input.call.Release? && input.call.id == h.id && h.id in m.mem.byID
                && h.binding == m.mem.byID[h.id].handle.binding
            && Plaintext(env, m.mem.byID[h.id]) == Some(Step(env, m, input).1.bytes)
            && m.mem.byID[h.id].activation.Some? && ExactActivationProof(h, m.mem.byID[h.id].activation.value)
            && input.call.keeperID == h.binding.keeperID
                && h.binding.validAfter <= input.call.now < h.binding.validUntil
            && KeyOf(h) in m.mem.byAction && m.mem.byAction[KeyOf(h)] == h.id
  {
    hide Hash, Identifier, OpaqueHandle, ArtifactAAD, ActionKey, FileMatches, ValidBinding, Revalidates;
  }

  /** The inputs that stored and activated a record the signer now serves. */
  lemma ArtifactOrigin(env: Env, past: seq<Input>, id: string, bytes: Bytes) returns (i: nat, a: nat)
    requires CipherLaw(env) && OrdinaryRun(past) && id in Run(env, past).mem.byID
    requires Run(env, past).mem.byID[id].activation.Some? && Plaintext(env, Run(env, past).mem.byID[id]) == Some(bytes)
    ensures i < a < |past| && past[i].call.Prepare? && past[a].call.Activate? && past[a].call.verified
        && past[a].call.id == id
    ensures past[i].call.input == PrepareInput(Run(env, past).mem.byID[id].handle.binding, bytes)
    ensures Run(env, past).mem.byID[id].activation == Some(past[a].call.proof)
  {
    hide Run, Step, ArtifactAAD, ValidPrepare, ExactActivationProof, FileMatches, ValidRecord;
    RunRefines(env, past);
    IndexedIDs(Run(env, past).mem, id);
    a := RecordWasActivated(env, past, id);
    var earlier := past[..a];
    i := RecordWasPrepared(env, earlier, id);
    NothingAcknowledgedIsLost(env, past, a);
    var then', now' := Run(env, earlier).mem.byID[id], Run(env, past).mem.byID[id];
    assert Follows(then', now');
    SealedPlaintext(env, then', earlier[i]);
    SameArtifactSameContext(env, then', now');
    assert earlier[i] == past[i];
  }

  /**
    Released bytes. Over every run, whatever writes failed and however often the signer was
    restarted from its log, the bytes handed out are the signature one earlier Prepare stored for
    exactly this binding, after an exact verified activation in between, to the bound keeper and
    inside the validity window.
   */
  lemma ReleasedBytes(env: Env, inputs: seq<Input>, j: nat)
    requires CipherLaw(env) && OrdinaryRun(inputs) && j < |inputs| && ReplyTo(env, inputs, j).Artifact?
    ensures var r := ReplyTo(env, inputs, j); exists i, a :: ReleaseStory(inputs, i, a, j, r.released, r.bytes)
  {
    hide Run, Step, ArtifactAAD, ValidPrepare, ExactActivationProof, Refines, Plaintext;
    var past := inputs[..j];
    var m := Run(env, past);
    RunRefines(env, past);
    ArtifactReply(env, m, inputs[j]);
    var h, bytes := ReplyTo(env, inputs, j).released, ReplyTo(env, inputs, j).bytes;
    var i, a := ArtifactOrigin(env, past, h.id, bytes);
    assert past[i] == inputs[i] && past[a] == inputs[a];
    assert ReleaseStory(inputs, i, a, j, h, bytes);
  }

  /** The action and signature an answer vouches for. */
  ghost function Vouches(input: Input, reply: Reply): Option<(string, Bytes)> {
    if reply.Artifact? then Some((KeyOf(reply.released), reply.bytes))
    else if input.call.Prepare? && reply.Granted? then
      Some((ActionKey(input.call.input.binding.operationID, input.call.input.binding.actionID),
          input.call.input.signature))
    else None
  }

  /** `m` serves `signature` for `key`. */
  ghost predicate Serves(env: Env, m: Signer, key: string, signature: Bytes) {
    key in m.mem.byAction && m.mem.byAction[key] in m.mem.byID
        && Plaintext(env, m.mem.byID[m.mem.byAction[key]]) == Some(signature)
  }

  lemma VouchedIsServed(env: Env, m: Signer, input: Input)
    requires CipherLaw(env) && Refines(env, m)
    requires Vouches(input, Step(env, m, input).1).Some?
    ensures var v := Vouches(input, Step(env, m, input).1).value; Serves(env, Step(env, m, input).0, v.0, v.1)
  {
    hide Hash, Identifier, OpaqueHandle, ActionKey, FileMatches, ValidBinding, Revalidates, ArtifactAAD,
        ValidTransition, ExactActivationProof;
    if Step(env, m, input).1.Artifact? {
      ArtifactReply(env, m, input);
      var h := Step(env, m, input).1.released;
      SameArtifactSameContext(env, m.mem.byID[h.id], Step(env, m, input).0.mem.byID[h.id]);
    }
  }

  lemma ServesForever(env: Env, inputs: seq<Input>, i: nat, key: string, signature: Bytes)
    requires CipherLaw(env) && OrdinaryRun(inputs) && i <= |inputs|
    requires Serves(env, Run(env, inputs[..i]), key, signature)
    ensures Serves(env, Run(env, inputs), key, signature)
  {
    hide Run, ValidRecord, FileMatches, ArtifactAAD, ActionKey;
    NothingAcknowledgedIsLost(env, inputs, i);
    RunRefines(env, inputs[..i]);
    RunRefines(env, inputs);
    var early, late := Run(env, inputs[..i]).mem, Run(env, inputs).mem;
    var id := early.byAction[key];
    assert Follows(early.byID[id], late.byID[id]);
    SameArtifactSameContext(env, early.byID[id], late.byID[id]);
  }

  /** One signature per action: every granted Prepare and every Release of an action speaks of the same bytes. */
  lemma OneSignaturePerAction(env: Env, inputs: seq<Input>, i: nat, j: nat)
    requires CipherLaw(env) && OrdinaryRun(inputs) && i < |inputs| && j < |inputs|
    requires Vouches(inputs[i], ReplyTo(env, inputs, i)).Some? && Vouches(inputs[j], ReplyTo(env, inputs, j)).Some?
    requires Vouches(inputs[i], ReplyTo(env, inputs, i)).value.0 == Vouches(inputs[j], ReplyTo(env, inputs, j)).value.0
    ensures Vouches(inputs[i], ReplyTo(env, inputs, i)) == Vouches(inputs[j], ReplyTo(env, inputs, j))
  {
    hide Step, Refines, Vouches;
    forall k | k in {i, j}
      ensures var v := Vouches(inputs[k], ReplyTo(env, inputs, k)).value; Serves(env, Run(env, inputs), v.0, v.1)
    {
      RunRefines(env, inputs[..k]);
      VouchedIsServed(env, Run(env, inputs[..k]), inputs[k]);
      assert inputs[..k + 1][..k] == inputs[..k] && inputs[..k + 1][k] == inputs[k];
      var v := Vouches(inputs[k], ReplyTo(env, inputs, k)).value;
      ServesForever(env, inputs, k + 1, v.0, v.1);
    }
  }

  lemma ActivateReply(env: Env, m: Signer, input: Input)
    requires Refines(env, m) && input.call.Activate? && Step(env, m, input).1.Granted?
    ensures var after := Step(env, m, input).0.mem.byID;
            input.call.id in after && after[input.call.id].activation == Some(input.call.proof)
  {
    hide ValidRecord, FileMatches, ActionKey, ExactActivationProof;
  }

  /** One activation proof per handle: every granted Activate of a handle carried the same proof. */
  lemma OneActivationProof(env: Env, inputs: seq<Input>, i: nat, j: nat)
    requires CipherLaw(env) && OrdinaryRun(inputs) && i < |inputs| && j < |inputs|
    requires inputs[i].call.Activate? && ReplyTo(env, inputs, i).Granted?
    requires inputs[j].call.Activate? && ReplyTo(env, inputs, j).Granted? && inputs[i].call.id == inputs[j].call.id
    ensures inputs[i].call.proof == inputs[j].call.proof
  {
    hide Step, Refines;
    forall k | k in {i, j}
      ensures inputs[k].call.id in Run(env, inputs).mem.byID
      ensures Run(env, inputs).mem.byID[inputs[k].call.id].activation == Some(inputs[k].call.proof)
    {
      assert inputs[..k + 1][..k] == inputs[..k] && inputs[..k + 1][k] == inputs[k];
      RunRefines(env, inputs[..k]);
      ActivateReply(env, Run(env, inputs[..k]), inputs[k]);
      NothingAcknowledgedIsLost(env, inputs, k + 1);
      var after := Run(env, inputs[..k + 1]).mem.byID;
      var id := inputs[k].call.id;
      assert Follows(after[id], Run(env, inputs).mem.byID[id]);
    }
  }

  /** A restart never rejects what earlier processes wrote, as long as the clock has not run backwards. */
  lemma RestartAccepts(env: Env, inputs: seq<Input>, now: Clock)
    requires CipherLaw(env) && OrdinaryRun(inputs)
    requires forall k | 0 <= k < |Run(env, inputs).journal.file| :: Run(env, inputs).journal.file[k].body.at <= now
    ensures Restart(env, Run(env, inputs), now, true).1 == Opened
  {
    hide Run, ValidRecord, FileMatches, Indexed;
    var m := Run(env, inputs);
    LogRefinement(env, inputs);
    RunIsExplained(env, inputs);
    var file := m.journal.file;
    var records := Replay(env, file).value.records;
    RecordsHaveOrigin(env, file);
    ReplayIndexes(env, file);
    forall id | id in records
      ensures Plaintext(env, records[id]).Some? && 64 <= |Plaintext(env, records[id]).value| <= 16 * 1024
      ensures records[id].handle.state == Expired ==> records[id].handle.binding.validUntil <= now
      ensures records[id].handle.id == id
    {
      RecordRevalidates(env, inputs, file, records[id], now);
      IndexedIDs(IndexOf(records), id);
    }
  }

  lemma IndexedIDs(s: SignerState, id: string)
    requires Indexed(s) && id in s.byID
    ensures s.byID[id].handle.id == id
  {
  }

  lemma RecordRevalidates(env: Env, inputs: seq<Input>, file: seq<LedgerEvent>, r: SignerRecord, now: Clock)
    requires CipherLaw(env) && FileExplained(env, inputs, file) && HasOrigin(file, r)
    requires forall k | 0 <= k < |file| :: file[k].body.at <= now
    ensures Plaintext(env, r).Some? && 64 <= |Plaintext(env, r).value| <= 16 * 1024
    ensures r.handle.state == Expired ==> r.handle.binding.validUntil <= now
  {
    hide Run, ArtifactAAD, Hash, Identifier;
    var k :| 0 <= k < |file| && file[k].body.record.handle.state == Prepared && SameArtifact(file[k].body.record, r);
    assert Explained(env, inputs, file[k]);
    var i :| 0 <= i < |inputs| && WrittenBy(env, file[k].body.record, inputs[i]);
    SealedPlaintext(env, file[k].body.record, inputs[i]);
    SameArtifactSameContext(env, file[k].body.record, r);
    if r.handle.state == Expired {
      var e :| 0 <= e < |file| && file[e].body.record == r;
      assert Explained(env, inputs, file[e]);
    }
  }
}
