/** What every run of the relay keeps, and what follows from it. */
module RelaySafety {
  import opened Text
  import opened RelayKernel
  import opened RelayJobs
  import opened RelayRuns

  // ---------- Moves inside an operation ----------

  lemma MoveOk(cfg: Setting, token: string, op: Op, x: Input, now: Time)
    requires OpOk(cfg, token, op) && op.read <= now
    ensures var m := Move(cfg, op, x, now).(read := now);
            OpOk(cfg, token, m) && m.job == op.job && (op.pc == Over ==> m.pc == Over)
  {
    hide ValidateRelaySnapshot, VerifyPrepared, ValidOuter, DecideRetry, ProvesGone, Decided;
    if op.job.prepared.Some? {
      GateDecides(cfg.safe, op.job.command, op.job.prepared.value, x.gate.snapshot, cfg.quorum, now);
      if op.job.outer.Some? {
        DecisionMeaning(op.job.prepared.value, op.job.outer.value.transactionHash, x.evidence, cfg.quorum, now);
        DecisionIsDecided(cfg, op.job, x.evidence, now);
      }
    }
  }

  lemma GateDecides(safe: Safe, c: Command, p: Prepared, s: Snapshot, quorum: int, now: Time)
    ensures var v := ValidateRelaySnapshot(safe, c, p, s, quorum, now);
        v.None? || v.value.Reapprove? || v == Some(RetryExact)
  {
    hide ValidSnapshot;
  }

  lemma DecisionIsDecided(cfg: Setting, job: Job, e: Evidence, now: Time)
    requires job.prepared.Some? && job.outer.Some?
    ensures var d := DecideRetry(job.prepared.value, job.outer.value.transactionHash, e, cfg.quorum, now);
            d.Some? ==> Decided(cfg, job, e, d.value)
  {
    hide IsQuorum, Hash, FreshAt;
  }

  // ---------- Changes to one job ----------

  lemma OuterKeeps(cfg: Setting, id: string, job: Job, h: seq<Recorded>, op: Op, token: string, outer: Outer, now: Time)
    requires JobOk(cfg, id, job, h) && OpOk(cfg, token, op) && op.pc == Offered(outer) && op.job == job
        && op.read <= now <= job.leaseExpiresAt
    requires WithOuter(job, outer, now).Some?
    ensures JobOk(cfg, id, WithOuter(job, outer, now).value, h + [Recorded(outer, op.proof, op.gate, now)])
  {
    hide ProvesGone, GatePasses, VerifyPrepared, LastDecided;
    var g := h + [Recorded(outer, op.proof, op.gate, now)];
    var p := job.prepared.value;
    assert ClearedRecord(cfg, job.command, p, g[|h|]);
    forall k | 0 <= k < |g| ensures ClearedRecord(cfg, job.command, p, g[k]) {
      assert k < |h| ==> ClearedRecord(cfg, job.command, p, h[k]);
    }
    forall k | 0 < k < |g| ensures Justified(cfg, p, g[k - 1], g[k]) {
      assert k < |h| ==> Justified(cfg, p, h[k - 1], h[k]);
    }
  }

  lemma SubmissionKeeps(cfg: Setting, id: string, job: Job, h: seq<Recorded>, hash: string)
    requires JobOk(cfg, id, job, h) && WithSubmission(job, hash).Some?
    ensures JobOk(cfg, id, WithSubmission(job, hash).value, h)
  {
    hide Justified, ClearedRecord, LastDecided;
  }

  lemma DecisionKeeps(cfg: Setting, id: string, job: Job, h: seq<Recorded>, e: Option<Evidence>, d: Decision)
    requires JobOk(cfg, id, job, h) && WithDecision(job, e, d).Some? && job.state != AwaitingSignatures
        && !Terminal(job.state)
    requires !d.Reapprove? ==> e.Some? && Decided(cfg, job, e.value, d)
    ensures JobOk(cfg, id, WithDecision(job, e, d).value, h)
  {
    hide Justified, ClearedRecord, DecideRetry;
    if !d.Reapprove? { DecidedAgain(cfg, job, WithDecision(job, e, d).value, e.value, d); }
  }

  lemma DecidedAgain(cfg: Setting, job: Job, job': Job, e: Evidence, d: Decision)
    requires Decided(cfg, job, e, d) && job'.prepared == job.prepared && job'.outer == job.outer
    ensures Decided(cfg, job', e, d)
  {
    hide DecideRetry;
  }

  /** Replace one job, one history and one operation; nobody else holds the new job's token. */
  lemma Replaced(cfg: Setting, w: World, w': World, id: string, job: Job, h: seq<Recorded>, token: string)
    requires Inv(cfg, w) && id in w.store.jobs && JobOk(cfg, id, job, h) && token in w'.ops
        && SameArtifact(w.store.jobs[id], job)
    requires w'.store.jobs == w.store.jobs[id := job] && w'.store.commands == w.store.commands
        && w'.ops == w.ops[token := w'.ops[token]] && w'.sendings == w.sendings
    requires h == History(w, id) || (exists r :: h == History(w, id) + [r])
    requires History(w', id) == h && (forall other | other != id :: History(w', other) == History(w, other))
        && w'.outers.Keys <= w.outers.Keys + {id}
    requires OpOk(cfg, token, w'.ops[token]) && Known(w', w'.ops[token])
    requires w'.ops[token].pc != Over ==> w'.ops[token].job == job
    requires forall t | t in w.ops && t != token && w.ops[t].pc != Over :: job.leaseToken != t
    ensures Inv(cfg, w')
  {
    hide JobOk, OpOk, History, GatePasses;
    forall t | t in w'.ops ensures OpOk(cfg, t, w'.ops[t]) && Fenced(w', t) && Known(w', w'.ops[t]) {
      if t != token {
        assert OpOk(cfg, t, w.ops[t]) && Fenced(w, t) && Known(w, w.ops[t]);
        KnownGrows(w, w', w.ops[t], id);
      } else {
        WorkflowOf(cfg, id, job, h);
      }
    }
    forall s | s in w'.sendings ensures SendingOk(cfg, w', s) {
      assert SendingOk(cfg, w, s);
      WasGrows(History(w, s.workflowID), History(w', s.workflowID), s.transactionHash);
    }
  }

  lemma WorkflowOf(cfg: Setting, id: string, job: Job, h: seq<Recorded>)
    requires JobOk(cfg, id, job, h)
    ensures job.command.workflowID == id
  {
  }

  lemma WasGrows(h: seq<Recorded>, g: seq<Recorded>, hash: string)
    requires Was(h, hash) && (g == h || exists r :: g == h + [r])
    ensures Was(g, hash)
  {
    var k :| 0 <= k < |h| && h[k].outer.transactionHash == hash;
    assert g[k].outer.transactionHash == hash;
  }

  lemma KnownGrows(w: World, w': World, op: Op, id: string)
    requires Known(w, op)
    requires History(w', id) == History(w, id) || (exists r :: History(w', id) == History(w, id) + [r])
    requires forall other | other != id :: History(w', other) == History(w, other)
    ensures Known(w', op)
  {
    hide History;
    if op.pc != Over && op.job.outer.Some? {
      WasGrows(History(w, op.job.command.workflowID), History(w', op.job.command.workflowID),
          op.job.outer.value.transactionHash);
    }
  }

  // ---------- Steps of operations ----------

  lemma OpStepBasics(cfg: Setting, w: World, token: string)
    requires Inv(cfg, w) && token in w.ops
    ensures OpOk(cfg, token, w.ops[token]) && Fenced(w, token) && Known(w, w.ops[token])
    ensures var op := w.ops[token]; op.pc != Over ==>
              var id := op.job.command.workflowID;
                  id in w.store.jobs && JobOk(cfg, id, w.store.jobs[id], History(w, id))
  {
    hide JobOk, OpOk, Known;
  }

  /** Only the operation itself changes. */
  lemma OpOnlyKeeps(cfg: Setting, w: World, token: string, op: Op)
    requires Inv(cfg, w) && OpOk(cfg, token, op)
    requires op.pc != Over ==> token in w.ops && w.ops[token].pc != Over && w.ops[token].job == op.job
    ensures Inv(cfg, Put(w, token, w.store, op))
  {
    hide JobOk, OpOk, History, GatePasses;
    var v := Put(w, token, w.store, op);
    SameHistory(w, v);
    forall t | t in v.ops ensures OpOk(cfg, t, v.ops[t]) && Fenced(v, t) && Known(v, v.ops[t]) {
      if t in w.ops { assert OpOk(cfg, t, w.ops[t]) && Fenced(w, t) && Known(w, w.ops[t]); }
    }
  }

  lemma SameHistory(w: World, v: World)
    requires w.outers == v.outers
    ensures forall id :: History(w, id) == History(v, id)
  {
  }

  lemma LocalKeeps(cfg: Setting, w: World, step: Step)
    requires Inv(cfg, w) && step.Local?
    ensures Inv(cfg, Next(cfg, w, step))
  {
    hide Inv, OpOk, Move, JobOk;
    if step.token in w.ops && Reads(w, w.ops[step.token], step.now) {
      OpStepBasics(cfg, w, step.token);
      MoveOk(cfg, step.token, w.ops[step.token], step.input, step.now);
      OpOnlyKeeps(cfg, w, step.token, Move(cfg, w.ops[step.token], step.input, step.now).(read := step.now));
    }
  }

  /** Read the clock, then write: a later reading alone changes nothing. */
  lemma ReadKeeps(cfg: Setting, w: World, token: string, now: Time)
    requires Inv(cfg, w) && token in w.ops && Reads(w, w.ops[token], now)
    ensures OpOk(cfg, token, w.ops[token].(read := now))
  {
    hide JobOk, Known, Fenced, ProvesGone, GatePasses, VerifyPrepared, Decided;
    assert OpOk(cfg, token, w.ops[token]);
  }

  lemma TokensDiffer(cfg: Setting, w: World, token: string, job: Job)
    requires Inv(cfg, w) && job.leaseToken == token
    ensures forall t | t in w.ops && t != token && w.ops[t].pc != Over :: job.leaseToken != t
  {
  }

  lemma RecordsOuterKeeps(cfg: Setting, w: World, token: string, op: Op, now: Time)
    requires Inv(cfg, w) && token in w.ops && Reads(w, w.ops[token], now) && op == w.ops[token].(read := now)
        && op.pc.Offered?
    ensures Inv(cfg, Write(w, token, op, now))
  {
    hide Inv, OpOk, JobOk, WithOuter, ValidOuter, Fenced, Known, History;
    OpStepBasics(cfg, w, token);
    ReadKeeps(cfg, w, token, now);
    OverIsOk(cfg, token, op);
    var v := Write(w, token, op, now);
    var id := op.job.command.workflowID;
    if HoldsLease(w.store, Lease(op.job, token), now) && WithOuter(w.store.jobs[id], op.pc.outer, now).Some? {
      FencedJob(w, token);
      OfferedState(cfg, token, op);
      var job := WithOuter(op.job, op.pc.outer, now).value;
      var h := History(w, id) + [Recorded(op.pc.outer, op.proof, op.gate, now)];
      OuterKeeps(cfg, id, op.job, History(w, id), op, token, op.pc.outer, now);
      WithOuterIs(op.job, op.pc.outer, now);
      TokensDiffer(cfg, w, token, job);
      OutgoingIsOk(cfg, token, op, job);
      HistoryAfter(w, v, id, h);
      RecordedIsKnown(v, id, h, v.ops[token]);
      KeysStay(cfg, w, id);
      Replaced(cfg, w, v, id, job, h, token);
    } else {
      OpOnlyKeeps(cfg, w, token, op.(pc := Over));
    }
  }

  lemma OverIsOk(cfg: Setting, token: string, op: Op)
    requires OpOk(cfg, token, op)
    ensures OpOk(cfg, token, op.(pc := Over))
  {
  }

  lemma FencedJob(w: World, token: string)
    requires token in w.ops && Fenced(w, token) && w.ops[token].pc != Over
    ensures var id := w.ops[token].job.command.workflowID;
        id in w.store.jobs && (w.store.jobs[id].leaseToken == token ==> w.store.jobs[id] == w.ops[token].job)
  {
  }

  lemma OfferedState(cfg: Setting, token: string, op: Op)
    requires OpOk(cfg, token, op) && op.pc.Offered?
    ensures op.job.state == Ready || op.job.state == Retryable
    ensures op.job.leaseToken == token
  {
  }

  lemma WithOuterIs(job: Job, outer: Outer, now: Time)
    requires WithOuter(job, outer, now).Some? && (job.state == Ready || job.state == Retryable)
    ensures WithOuter(job, outer, now).value == job.(outer := Some(outer), state := Broadcasting)
  {
  }

  lemma OutgoingIsOk(cfg: Setting, token: string, op: Op, job: Job)
    requires OpOk(cfg, token, op) && op.pc.Offered? && job == op.job.(outer := job.outer, state := Broadcasting)
    ensures OpOk(cfg, token, op.(job := job, pc := Outgoing))
  {
    hide GatePasses, VerifyPrepared, ProofOk;
  }

  lemma HistoryAfter(w: World, v: World, id: string, h: seq<Recorded>)
    requires v.outers == w.outers[id := h]
    ensures History(v, id) == h && forall other | other != id :: History(v, other) == History(w, other)
  {
  }

  lemma RecordedIsKnown(v: World, id: string, h: seq<Recorded>, op: Op)
    requires History(v, id) == h && |h| > 0 && op.job.command.workflowID == id && op.job.outer == Some(h[|h| - 1].outer)
    ensures Known(v, op)
  {
  }

  lemma KeysStay(cfg: Setting, w: World, id: string)
    requires Inv(cfg, w) && id in w.store.jobs
    ensures JobOk(cfg, id, w.store.jobs[id], History(w, id))
  {
  }

  lemma SubmitsKeeps(cfg: Setting, w: World, token: string, op: Op, now: Time)
    requires Inv(cfg, w) && token in w.ops && Reads(w, w.ops[token], now) && op == w.ops[token].(read := now)
        && (op.pc.Sent? || op.pc.Crossed?)
    ensures Inv(cfg, Write(w, token, op, now))
  {
    hide Inv, OpOk, JobOk, WithSubmission, Fenced, Known, History;
    OpStepBasics(cfg, w, token);
    ReadKeeps(cfg, w, token, now);
    OverIsOk(cfg, token, op);
    var v := Write(w, token, op, now);
    var id := op.job.command.workflowID;
    if op.job.outer.Some? {
      var hash := op.job.outer.value.transactionHash;
      if HoldsLease(w.store, Lease(op.job, token), now) && WithSubmission(w.store.jobs[id], hash).Some? {
        FencedJob(w, token);
        var job := WithSubmission(op.job, hash).value;
        SubmissionKeeps(cfg, id, op.job, History(w, id), hash);
        SubmittedOp(cfg, token, op, hash, v.ops[token]);
        TokensDiffer(cfg, w, token, job);
        SameHistory(w, v);
        SameOuterIsKnown(w, v, w.ops[token], v.ops[token]);
        Replaced(cfg, w, v, id, job, History(w, id), token);
      } else {
        OpOnlyKeeps(cfg, w, token, op.(pc := Over));
      }
    } else {
      assert v == w;
    }
  }

  lemma SubmittedOp(cfg: Setting, token: string, op: Op, hash: string, op': Op)
    requires OpOk(cfg, token, op) && (op.pc.Sent? || op.pc.Crossed?) && WithSubmission(op.job, hash).Some?
    requires op' == op.(job := WithSubmission(op.job, hash).value, pc := op'.pc)
    requires op'.pc == Over || (op'.pc.Deciding? && !op'.pc.resume)
    requires op'.pc.Deciding? ==>
        op.pc.Crossed? && op'.pc.cause == Some(op.pc.evidence) && op'.pc.decision == op.pc.decision
    ensures OpOk(cfg, token, op') && op'.job.leaseToken == token && op'.job.command == op.job.command
        && op'.job.outer == op.job.outer
    ensures SameArtifact(op.job, op'.job)
  {
    hide GatePasses, DecideRetry;
    if op'.pc.Deciding? { DecidedAgain(cfg, op.job, op'.job, op.pc.evidence, op.pc.decision); }
  }

  lemma SameOuterIsKnown(w: World, v: World, op: Op, op': Op)
    requires Known(w, op) && op.pc != Over && op'.job.outer == op.job.outer && op'.job.command == op.job.command
    requires forall id :: History(w, id) == History(v, id)
    ensures Known(v, op')
  {
  }

  lemma DecidesKeeps(cfg: Setting, w: World, token: string, op: Op, now: Time)
    requires Inv(cfg, w) && token in w.ops && Reads(w, w.ops[token], now) && op == w.ops[token].(read := now)
        && op.pc.Deciding?
    ensures Inv(cfg, Write(w, token, op, now))
  {
    hide Inv, OpOk, JobOk, WithDecision, Fenced, Known, History;
    OpStepBasics(cfg, w, token);
    ReadKeeps(cfg, w, token, now);
    OverIsOk(cfg, token, op);
    var v := Write(w, token, op, now);
    var id := op.job.command.workflowID;
    if HoldsLease(w.store, Lease(op.job, token), now)
        && WithDecision(w.store.jobs[id], op.pc.cause, op.pc.decision).Some? {
      FencedJob(w, token);
      var job := WithDecision(op.job, op.pc.cause, op.pc.decision).value;
      DecidedOp(cfg, token, op, v.ops[token]);
      DecisionKeeps(cfg, id, op.job, History(w, id), op.pc.cause, op.pc.decision);
      TokensDiffer(cfg, w, token, job);
      SameHistory(w, v);
      SameOuterIsKnown(w, v, w.ops[token], v.ops[token]);
      Replaced(cfg, w, v, id, job, History(w, id), token);
    } else {
      OpOnlyKeeps(cfg, w, token, op.(pc := Over));
    }
  }

  lemma DecidedOp(cfg: Setting, token: string, op: Op, op': Op)
    requires OpOk(cfg, token, op) && op.pc.Deciding? && WithDecision(op.job, op.pc.cause, op.pc.decision).Some?
    requires op' == op.(job := WithDecision(op.job, op.pc.cause, op.pc.decision).value, pc := if op.pc.resume
        then Checking else Over)
    ensures OpOk(cfg, token, op') && op'.job.leaseToken == token && op'.job.command == op.job.command
        && op'.job.outer == op.job.outer
    ensures op.job.state != AwaitingSignatures && !Terminal(op.job.state) && SameArtifact(op.job, op'.job)
    ensures !op.pc.decision.Reapprove? ==> op.pc.cause.Some? && Decided(cfg, op.job, op.pc.cause.value, op.pc.decision)
  {
    hide ProvesGone, Decided;
  }

  lemma WroteKeeps(cfg: Setting, w: World, step: Step)
    requires Inv(cfg, w) && step.Wrote?
    ensures Inv(cfg, Next(cfg, w, step))
  {
    hide Inv, Write;
    if step.token in w.ops && Reads(w, w.ops[step.token], step.now) {
      var op := w.ops[step.token].(read := step.now);
      match op.pc
      case Offered(_) => RecordsOuterKeeps(cfg, w, step.token, op, step.now);
      case Sent => SubmitsKeeps(cfg, w, step.token, op, step.now);
      case Crossed(_, _) => SubmitsKeeps(cfg, w, step.token, op, step.now);
      case Deciding(_, _, _) => DecidesKeeps(cfg, w, step.token, op, step.now);
      case _ => WritesNothing(w, step.token, op, step.now);
    }
  }

  lemma WritesNothing(w: World, token: string, op: Op, now: Time)
    requires !op.pc.Offered? && !op.pc.Sent? && !op.pc.Crossed? && !op.pc.Deciding?
    ensures Write(w, token, op, now) == w
  {
  }

  lemma ClaimKeeps(cfg: Setting, w: World, step: Step)
    requires Inv(cfg, w) && step.Claimed?
    ensures Inv(cfg, Next(cfg, w, step))
  {
    hide Inv, JobOk, Known, History;
    var v := Next(cfg, w, step);
    var (id, token) := (step.id, step.token);
    if v != w {
      var job := v.store.jobs[id];
      KeysStay(cfg, w, id);
      LeasedKeeps(cfg, id, w.store.jobs[id], History(w, id), step.worker, token, step.now + step.duration);
      WorkflowOf(cfg, id, job, History(w, id));
      SameHistory(w, v);
      ClaimIsKnown(cfg, v, id, v.ops[token]);
      Replaced(cfg, w, v, id, job, History(w, id), token);
    }
  }

  lemma LeasedKeeps(cfg: Setting, id: string, job: Job, h: seq<Recorded>, worker: string, token: string,
        expiresAt: Time)
    requires JobOk(cfg, id, job, h)
    ensures JobOk(cfg, id, Leased(job, worker, token, expiresAt), h)
  {
    hide Justified;
  }

  lemma ClaimIsKnown(cfg: Setting, v: World, id: string, op: Op)
    requires op.job.command.workflowID == id && JobOk(cfg, id, op.job, History(v, id)) && !Terminal(op.job.state)
    ensures Known(v, op)
  {
    hide HistoryOk, History;
  }

  lemma ReleaseKeeps(cfg: Setting, w: World, step: Step)
    requires Inv(cfg, w) && step.Released?
    ensures Inv(cfg, Next(cfg, w, step))
  {
    hide Inv, JobOk, Known, History, OpOk;
    var v := Next(cfg, w, step);
    var token := step.token;
    if token in w.ops {
      OpStepBasics(cfg, w, token);
      OverIsOk(cfg, token, w.ops[token]);
      var id := w.ops[token].job.command.workflowID;
      if id in w.store.jobs && w.store.jobs[id].leaseToken == token {
        KeysStay(cfg, w, id);
        LeasedKeeps(cfg, id, w.store.jobs[id], History(w, id), "", "", 0);
        NoEmptyToken(cfg, w);
        SameHistory(w, v);
        OverIsKnown(v, v.ops[token]);
        Replaced(cfg, w, v, id, v.store.jobs[id], History(w, id), token);
      } else {
        OpOnlyKeeps(cfg, w, token, w.ops[token].(pc := Over));
      }
    }
  }

  lemma NoEmptyToken(cfg: Setting, w: World)
    requires Inv(cfg, w)
    ensures "" !in w.ops
  {
    hide JobOk, Fenced, Known, PcOk;
  }

  lemma OverIsKnown(v: World, op: Op)
    requires op.pc == Over
    ensures Known(v, op)
  {
  }

  lemma BroadcastKeeps(cfg: Setting, w: World, step: Step)
    requires Inv(cfg, w) && step.Broadcast?
    ensures Inv(cfg, Next(cfg, w, step))
  {
    hide Inv, JobOk, OpOk, History;
    var token := step.token;
    if token in w.ops && w.ops[token].pc.Outgoing? && w.ops[token].job.outer.Some? {
      var op := w.ops[token];
      OpStepBasics(cfg, w, token);
      SentIsOk(cfg, token, op);
      OpOnlyKeeps(cfg, w, token, op.(pc := Sent));
      PassedGate(cfg, w, token);
      SendingKeeps(cfg, Put(w, token, w.store, op.(pc := Sent)), token);
    }
  }

  lemma PassedGate(cfg: Setting, w: World, token: string)
    requires token in w.ops && OpOk(cfg, token, w.ops[token]) && w.ops[token].pc.Outgoing? && Fenced(w, token)
    ensures SentIsRecorded(cfg, Put(w, token, w.store, w.ops[token].(pc := Sent)), token)
  {
    hide GatePasses;
  }

  lemma SentIsOk(cfg: Setting, token: string, op: Op)
    requires OpOk(cfg, token, op) && op.pc.Outgoing?
    ensures OpOk(cfg, token, op.(pc := Sent))
  {
  }

  lemma SendingKeeps(cfg: Setting, w: World, token: string)
    requires Inv(cfg, w) && token in w.ops && w.ops[token].pc == Sent && w.ops[token].job.outer.Some?
    requires SentIsRecorded(cfg, w, token)
    ensures Inv(cfg, w.(sendings := w.sendings + [Sending(w.ops[token].job.command.workflowID,
        w.ops[token].job.outer.value.transactionHash, w.ops[token].gate)]))
  {
    hide JobOk, OpOk, History, GatePasses;
    var s := Sending(w.ops[token].job.command.workflowID, w.ops[token].job.outer.value.transactionHash,
        w.ops[token].gate);
    var v := w.(sendings := w.sendings + [s]);
    SameHistory(w, v);
    assert Known(w, w.ops[token]);
    forall t | t in v.ops ensures Fenced(v, t) && Known(v, v.ops[t]) { assert Fenced(w, t) && Known(w, w.ops[t]); }
    forall x | x in v.sendings ensures SendingOk(cfg, v, x) { assert x != s ==> SendingOk(cfg, w, x); }
  }

  /** The gate an operation passed is about the stored job's own artifact. */
  predicate SentIsRecorded(cfg: Setting, w: World, token: string)
    requires token in w.ops
  {
    var op := w.ops[token];
    var id := op.job.command.workflowID;
    && id in w.store.jobs && w.store.jobs[id].prepared.Some? && op.gate.Some?
    && GatePasses(cfg, w.store.jobs[id].command, w.store.jobs[id].prepared.value, op.gate.value.0, op.gate.value.1)
  }

  // ---------- Steps of the store alone ----------

  predicate Authorizing(id: string, job: Job, job': Job) {
    && job.state == AwaitingSignatures && job'.state == Ready && job'.prepared.Some?
        && job'.prepared.value.workflowID == id && job'.command == job.command
    && job'.outer == job.outer && job'.attempts == job.attempts && job'.leaseToken == job.leaseToken
  }

  /** Jobs appear, or an awaiting job is authorized. */
  ghost predicate JobsGrow(jobs: map<string, Job>, jobs': map<string, Job>) {
    && (forall id | id in jobs :: id in jobs' && (jobs'[id] == jobs[id] || Authorizing(id, jobs[id], jobs'[id])))
    && (forall id | id in jobs' && id !in jobs :: exists q: Queued ::
        q.command.workflowID == id != "" && jobs'[id] == NewJob(q))
  }

  lemma ConsumeGrows(s: Store, i: nat)
    requires i < |s.commands| && forall q | q in s.commands :: q.command.workflowID != ""
    ensures JobsGrow(s.jobs, Consume(s, i).jobs) && forall q | q in Consume(s, i).commands :: q.command.workflowID != ""
  {
    hide Authorizing;
    assert s.commands[i] in s.commands;
  }

  lemma AuthorizeGrows(s: Store, organizationID: string, id: string, key: string, inputHash: string, p: Prepared,
        handle: string)
    ensures var v := Authorize(s, organizationID, id, key, inputHash, p, handle).0;
        JobsGrow(s.jobs, v.jobs) && v.commands == s.commands
  {
    hide Hash, Identifier, Scope;
  }

  lemma StoreStepGrows(cfg: Setting, w: World, step: Step)
    requires step.Tick? || step.Enqueued? || step.Consumed? || step.Authorized?
    requires forall q | q in w.store.commands :: q.command.workflowID != ""
    ensures var v := Next(cfg, w, step);
            && v.ops == w.ops && v.outers == w.outers && v.sendings == w.sendings
                && JobsGrow(w.store.jobs, v.store.jobs)
            && forall q | q in v.store.commands :: q.command.workflowID != ""
  {
    hide Prepare, Consume, Authorize, Authorizing;
    match step
    case Consumed(i) => if i < |w.store.commands| { ConsumeGrows(w.store, i); }
    case Authorized(org, id, key, inputHash, handle, safeAddress, snapshot, signatures, now) =>
      if id in w.store.jobs {
        var p := Prepare(cfg.safe, w.store.jobs[id].command, safeAddress, snapshot, signatures, cfg.quorum, now);
        if p.Some? { AuthorizeGrows(w.store, org, id, key, inputHash, p.value.0, handle); }
      }
    case _ =>
  }

  lemma StoreStepKeeps(cfg: Setting, w: World, step: Step)
    requires Inv(cfg, w) && (step.Tick? || step.Enqueued? || step.Consumed? || step.Authorized?)
    ensures Inv(cfg, Next(cfg, w, step))
  {
    hide Next, History, OpOk, Known, HistoryOk, JobOk, Authorizing;
    var v := Next(cfg, w, step);
    StoreStepGrows(cfg, w, step);
    SameHistory(w, v);
    NoHistoryWithoutJob(cfg, w);
    AwaitingJobsAreBare(cfg, w);
    forall t | t in v.ops ensures OpOk(cfg, t, v.ops[t]) && Fenced(v, t) && Known(v, v.ops[t]) {
      assert OpOk(cfg, t, w.ops[t]) && Fenced(w, t) && Known(w, w.ops[t]);
      KnownAgain(w, v, w.ops[t]);
      FencedAgain(cfg, w, v, t);
    }
    forall id | id in v.store.jobs ensures JobOk(cfg, id, v.store.jobs[id], History(v, id)) {
      if id in w.store.jobs {
        AuthorizedKeeps(cfg, id, w.store.jobs[id], v.store.jobs[id], History(w, id));
      } else {
        var q: Queued :| q.command.workflowID == id != "" && v.store.jobs[id] == NewJob(q);
        NewJobOk(cfg, q);
      }
    }
    forall x | x in v.sendings ensures SendingOk(cfg, v, x) {
      assert SendingOk(cfg, w, x);
      SendingAgain(cfg, w, v, x);
    }
  }

  lemma SendingAgain(cfg: Setting, w: World, v: World, s: Sending)
    requires SendingOk(cfg, w, s) && JobsGrow(w.store.jobs, v.store.jobs)
        && History(w, s.workflowID) == History(v, s.workflowID)
    requires forall id | id in w.store.jobs
        && w.store.jobs[id].state == AwaitingSignatures :: w.store.jobs[id].prepared == None
    ensures SendingOk(cfg, v, s)
  {
    hide GatePasses, History;
  }

  lemma AwaitingJobsAreBare(cfg: Setting, w: World)
    requires Inv(cfg, w)
    ensures forall id | id in w.store.jobs && w.store.jobs[id].state
        == AwaitingSignatures :: w.store.jobs[id].prepared == None
  {
    hide OpOk, Fenced, Known, SendingOk, HistoryOk;
  }

  lemma CommandsAreNamed(cfg: Setting, w: World)
    requires Inv(cfg, w)
    ensures forall q | q in w.store.commands :: q.command.workflowID != ""
  {
    hide JobOk, OpOk, Fenced, Known, SendingOk;
  }

  lemma NewJobOk(cfg: Setting, q: Queued)
    requires q.command.workflowID != ""
    ensures JobOk(cfg, q.command.workflowID, NewJob(q), [])
  {
  }

  lemma FencedAgain(cfg: Setting, w: World, v: World, t: string)
    requires t in w.ops && v.ops == w.ops && JobsGrow(w.store.jobs, v.store.jobs) && OpOk(cfg, t, w.ops[t])
        && Fenced(w, t)
    requires forall id | id in w.store.jobs
        && w.store.jobs[id].state == AwaitingSignatures :: w.store.jobs[id].prepared == None
    ensures Fenced(v, t)
  {
    hide PcOk;
    if w.ops[t].pc != Over { ActiveState(cfg, t, w.ops[t]); }
  }

  lemma AuthorizedKeeps(cfg: Setting, id: string, job: Job, job': Job, h: seq<Recorded>)
    requires JobOk(cfg, id, job, h)
    requires job' == job || Authorizing(id, job, job')
    ensures JobOk(cfg, id, job', h)
  {
  }

  lemma ActiveState(cfg: Setting, token: string, op: Op)
    requires OpOk(cfg, token, op) && op.pc != Over
    ensures op.job.state != AwaitingSignatures && !Terminal(op.job.state)
  {
  }

  lemma NoHistoryWithoutJob(cfg: Setting, w: World)
    requires Inv(cfg, w)
    ensures forall id | id !in w.store.jobs :: History(w, id) == []
  {
  }

  lemma KnownAgain(w: World, v: World, op: Op)
    requires Known(w, op) && forall id :: History(w, id) == History(v, id)
    ensures Known(v, op)
  {
  }

  // ---------- Every run ----------

  lemma NextKeeps(cfg: Setting, w: World, step: Step)
    requires Inv(cfg, w)
    ensures Inv(cfg, Next(cfg, w, step))
  {
    hide Inv, Next;
    match step
    case Claimed(_, _, _, _, _, _) => ClaimKeeps(cfg, w, step);
    case Local(_, _, _) => LocalKeeps(cfg, w, step);
    case Wrote(_, _) => WroteKeeps(cfg, w, step);
    case Broadcast(_) => BroadcastKeeps(cfg, w, step);
    case Released(_) => ReleaseKeeps(cfg, w, step);
    case _ => StoreStepKeeps(cfg, w, step);
  }

  lemma {:induction false} RunKeeps(cfg: Setting, clock: Clock, steps: seq<Step>)
    ensures Inv(cfg, Run(cfg, clock, steps))
  {
    hide Next;
    if |steps| > 0 {
      RunKeeps(cfg, clock, steps[..|steps| - 1]);
      NextKeeps(cfg, Run(cfg, clock, steps[..|steps| - 1]), steps[|steps| - 1]);
    }
  }

  /**
    A second outer transaction exists only because fresh quorum evidence showed the previous one
    dropped or reorged and not canonical, with the Safe nonce and payload unchanged. The evidence was
    accepted at most a minute before the new outer transaction was recorded.
   */
  lemma ReplacementNeedsProof(cfg: Setting, clock: Clock, steps: seq<Step>, id: string, k: nat)
    requires 0 < k < |History(Run(cfg, clock, steps), id)|
    ensures var w := Run(cfg, clock, steps);
            var h := History(w, id);
            && id in w.store.jobs && w.store.jobs[id].prepared.Some? && h[k].proof.Some?
            && var (p, e, at) := (w.store.jobs[id].prepared.value, h[k].proof.value.0, h[k].proof.value.1);
               && (e.outcome == Dropped || e.outcome == Reorged) && !e.previousCanonical
                   && e.outerTransactionHash == h[k - 1].outer.transactionHash
               && e.currentSafeNonce == p.transaction.nonce && e.verifiedPayloadHash == p.payloadHash
               && e.workflowID == id && e.chainID == p.transaction.chainID && e.safeAddress == p.transaction.safe
               && e.safeTxHash == p.safeTxHash && e.execCalldataHash == p.execCalldataHash
                   && 0 < e.blockNumber <= e.confirmedHead
               && IsQuorum(e.observers, cfg.quorum) && h[k].at - e.observedAt <= MAX_EVIDENCE_AGE + MINUTE
                   && at <= h[k].at
  {
    hide Run, IsQuorum, Hash, CountOk;
    RunKeeps(cfg, clock, steps);
    var w := Run(cfg, clock, steps);
    HasJob(cfg, w, id);
    assert Justified(cfg, w.store.jobs[id].prepared.value, History(w, id)[k - 1], History(w, id)[k]);
  }

  lemma HasJob(cfg: Setting, w: World, id: string)
    requires Inv(cfg, w) && History(w, id) != []
    ensures id in w.store.jobs && JobOk(cfg, id, w.store.jobs[id], History(w, id))
        && w.store.jobs[id].state != AwaitingSignatures
  {
    hide HistoryOk, OpOk, Known, Fenced;
  }

  /**
    Every outer transaction of a workflow carries the one Safe transaction and calldata fixed when its
    signatures were accepted, and was recorded within a minute of a look at the live Safe and at the
    sealed calldata.
   */
  lemma OneSafeTransaction(cfg: Setting, clock: Clock, steps: seq<Step>, id: string, k: nat)
    requires k < |History(Run(cfg, clock, steps), id)|
    ensures var w := Run(cfg, clock, steps);
            id in w.store.jobs && w.store.jobs[id].prepared.Some?
            && History(w, id)[k].outer.safeTxHash == w.store.jobs[id].prepared.value.safeTxHash
            && History(w, id)[k].outer.execCalldataHash == w.store.jobs[id].prepared.value.execCalldataHash
            && ClearedRecord(cfg, w.store.jobs[id].command, w.store.jobs[id].prepared.value, History(w, id)[k])
  {
    hide Run, Justified, CountOk, GatePasses, VerifyPrepared;
    RunKeeps(cfg, clock, steps);
    HasJob(cfg, Run(cfg, clock, steps), id);
    assert ClearedRecord(cfg, Run(cfg, clock, steps).store.jobs[id].command, Run(cfg, clock,
        steps).store.jobs[id].prepared.value, History(Run(cfg, clock, steps), id)[k]);
  }

  /**
    RETRYABLE_EXACT, PENDING and FINALIZED_OBSERVED always rest on kept evidence about the job's own outer
    transaction: proof that it is gone, that it is there, that it is final.
   */
  lemma OutcomesAreProven(cfg: Setting, clock: Clock, steps: seq<Step>, id: string)
    requires id in Run(cfg, clock, steps).store.jobs
    ensures var job := Run(cfg, clock, steps).store.jobs[id];
            && (job.state == Retryable ==> LastDecided(cfg, job, RetryExact))
            && (job.state == Waiting ==> LastDecided(cfg, job, Wait))
            && (job.state == FinalizedObserved ==> LastDecided(cfg, job, Finalize))
  {
    hide Run, HistoryOk, CountOk, LastDecided;
    RunKeeps(cfg, clock, steps);
    KeysStay(cfg, Run(cfg, clock, steps), id);
  }

  /**
    BROADCASTING implies fewer than ten attempts; attempts and outer transactions never exceed ten and
    never differ by more than the one in flight.
   */
  lemma AttemptsAreBounded(cfg: Setting, clock: Clock, steps: seq<Step>, id: string)
    requires id in Run(cfg, clock, steps).store.jobs
    ensures var w := Run(cfg, clock, steps);
            var job := w.store.jobs[id];
            && (job.state == Broadcasting ==> job.attempts < MAX_RELAY_ATTEMPTS && |History(w, id)| == job.attempts + 1)
            && (!Terminal(job.state) && job.state != Broadcasting ==> |History(w, id)| == job.attempts)
            && job.attempts <= |History(w, id)| <= MAX_RELAY_ATTEMPTS
  {
    hide Run, HistoryOk;
    RunKeeps(cfg, clock, steps);
    assert JobOk(cfg, id, Run(cfg, clock, steps).store.jobs[id], History(Run(cfg, clock, steps), id));
  }

  /**
    A token-bearing write succeeds only while nobody re-claimed the job, and then the stored job is the
    snapshot the worker decided on.
   */
  lemma LeaseFencing(cfg: Setting, clock: Clock, steps: seq<Step>, token: string, now: Time, change: Job -> Option<Job>)
    requires token in Run(cfg, clock, steps).ops && Run(cfg, clock, steps).ops[token].pc != Over
    requires var w := Run(cfg, clock, steps); WithLease(w.store, Lease(w.ops[token].job, token), now, change).1.Ok?
    ensures var w := Run(cfg, clock, steps);
            var id := w.ops[token].job.command.workflowID;
            && id in w.store.jobs && w.store.jobs[id] == w.ops[token].job
            && WithLease(w.store, Lease(w.ops[token].job, token), now, change).1.value == change(w.ops[token].job).value
  {
    hide Run, JobOk, OpOk, Known;
    RunKeeps(cfg, clock, steps);
    assert Fenced(Run(cfg, clock, steps), token);
  }

  /**
    Nothing is broadcast that was not durably recorded for its workflow before, and only after the live Safe
    passed the gate.
   */
  lemma RecordedBeforeBroadcast(cfg: Setting, clock: Clock, steps: seq<Step>, i: nat)
    requires i < |Run(cfg, clock, steps).sendings|
    ensures var w := Run(cfg, clock, steps);
            Was(History(w, w.sendings[i].workflowID), w.sendings[i].transactionHash) && SendingOk(cfg, w, w.sendings[i])
  {
    hide Run, JobOk, OpOk, Known, GatePasses;
    RunKeeps(cfg, clock, steps);
    assert Run(cfg, clock, steps).sendings[i] in Run(cfg, clock, steps).sendings;
  }

  // ---------- What never changes back ----------

  /** What an earlier job still says about the job now. */
  predicate JobForward(a: Job, b: Job) {
    && a.command == b.command && a.outboxID == b.outboxID
        && (a.prepared.Some? ==> b.prepared == a.prepared && b.artifactHandle == a.artifactHandle)
    && a.attempts <= b.attempts
    && (Terminal(a.state) ==>
        b.state == a.state && b.outer == a.outer && b.attempts == a.attempts && b.lastOutcome == a.lastOutcome)
  }

  ghost predicate WorldForward(w: World, v: World) {
    forall id | id in w.store.jobs :: id in v.store.jobs && JobForward(w.store.jobs[id], v.store.jobs[id])
        && History(w, id) <= History(v, id)
  }

  lemma OuterForward(cfg: Setting, w: World, token: string, op: Op, now: Time)
    requires Inv(cfg, w) && token in w.ops && op == w.ops[token].(read := now) && op.pc.Offered?
    ensures WorldForward(w, Write(w, token, op, now))
  {
    hide Inv, OpOk, JobOk, Known, ValidOuter, Fenced;
    OpStepBasics(cfg, w, token);
    FencedJob(w, token);
    ActiveState(cfg, token, w.ops[token]);
  }

  lemma SubmissionForward(cfg: Setting, w: World, token: string, op: Op, now: Time)
    requires Inv(cfg, w) && token in w.ops && op == w.ops[token].(read := now) && (op.pc.Sent? || op.pc.Crossed?)
    ensures WorldForward(w, Write(w, token, op, now))
  {
    hide Inv, OpOk, JobOk, Known, ValidOuter, Fenced;
    OpStepBasics(cfg, w, token);
    FencedJob(w, token);
    ActiveState(cfg, token, w.ops[token]);
  }

  lemma DecisionForward(cfg: Setting, w: World, token: string, op: Op, now: Time)
    requires Inv(cfg, w) && token in w.ops && op == w.ops[token].(read := now) && op.pc.Deciding?
    ensures WorldForward(w, Write(w, token, op, now))
  {
    hide Inv, OpOk, JobOk, Known, ValidOuter, Fenced;
    OpStepBasics(cfg, w, token);
    FencedJob(w, token);
    ActiveState(cfg, token, w.ops[token]);
  }

  lemma WriteForward(cfg: Setting, w: World, token: string, op: Op, now: Time)
    requires Inv(cfg, w) && token in w.ops && op == w.ops[token].(read := now)
    ensures WorldForward(w, Write(w, token, op, now))
  {
    hide Inv, Write, WorldForward;
    match op.pc
    case Offered(_) => OuterForward(cfg, w, token, op, now);
    case Sent => SubmissionForward(cfg, w, token, op, now);
    case Crossed(_, _) => SubmissionForward(cfg, w, token, op, now);
    case Deciding(_, _, _) => DecisionForward(cfg, w, token, op, now);
    case _ =>
      WritesNothing(w, token, op, now);
      SameForward(w);
  }

  lemma SameForward(w: World)
    ensures WorldForward(w, w)
  {
  }

  lemma AuthorizeForward(cfg: Setting, w: World, step: Step, id: string)
    requires Inv(cfg, w) && (step.Tick? || step.Enqueued? || step.Consumed? || step.Authorized?) && id in w.store.jobs
    ensures var v := Next(cfg, w, step); id in v.store.jobs && JobForward(w.store.jobs[id], v.store.jobs[id])
  {
    hide Inv, JobOk, Prepare, Hash, Identifier;
    KeysStay(cfg, w, id);
    AwaitingIsBare(cfg, id, w.store.jobs[id], History(w, id));
  }

  lemma AwaitingIsBare(cfg: Setting, id: string, job: Job, h: seq<Recorded>)
    requires JobOk(cfg, id, job, h)
    ensures job.state == AwaitingSignatures ==> job.prepared == None
  {
  }

  lemma NextForward(cfg: Setting, w: World, step: Step)
    requires Inv(cfg, w)
    ensures WorldForward(w, Next(cfg, w, step))
  {
    hide Inv, Write, Move, JobForward, StoreStep;
    forall id | id in w.store.jobs ensures JobForward(w.store.jobs[id],
        w.store.jobs[id]) { ForwardReflexive(w.store.jobs[id]); }
    match step
    case Claimed(id, token, worker, duration, _, now) =>
      if id in w.store.jobs { LeasedForward(w.store.jobs[id], worker, token, now + duration); }
    case Released(token) =>
      if token in w.ops {
        var id := w.ops[token].job.command.workflowID;
        if id in w.store.jobs { LeasedForward(w.store.jobs[id], "", "", 0); }
      }
    case Wrote(token, now) =>
      if token in w.ops { WriteForward(cfg, w, token, w.ops[token].(read := now), now); }
    case Local(_, _, _) =>
    case Broadcast(_) =>
    case _ =>
      CommandsAreNamed(cfg, w);
      StoreStepGrows(cfg, w, step);
      SameHistory(w, Next(cfg, w, step));
      forall id | id in w.store.jobs ensures id in Next(cfg, w, step).store.jobs
          && JobForward(w.store.jobs[id], Next(cfg, w, step).store.jobs[id]) {
        AuthorizeForward(cfg, w, step, id);
      }
  }

  lemma ForwardReflexive(job: Job)
    ensures JobForward(job, job)
  {
  }

  lemma LeasedForward(job: Job, worker: string, token: string, expiresAt: Time)
    ensures JobForward(job, Leased(job, worker, token, expiresAt))
  {
  }

  lemma {:induction false} RunForward(cfg: Setting, clock: Clock, steps: seq<Step>, i: nat)
    requires i <= |steps|
    ensures WorldForward(Run(cfg, clock, steps[..i]), Run(cfg, clock, steps))
    decreases |steps|
  {
    hide Inv, Next, History;
    if i == |steps| {
      assert steps[..i] == steps;
    } else {
      var prefix := steps[..|steps| - 1];
      assert prefix[..i] == steps[..i];
      RunForward(cfg, clock, prefix, i);
      RunKeeps(cfg, clock, prefix);
      NextForward(cfg, Run(cfg, clock, prefix), steps[|steps| - 1]);
    }
  }

  /**
    Over service runs REAPPROVAL_REQUIRED and FINALIZED_OBSERVED are absorbing, the authorized artifact
    of a workflow never changes, and its outer transactions only grow in number.
   */
  lemma TerminalStatesAbsorb(cfg: Setting, clock: Clock, steps: seq<Step>, i: nat, id: string)
    requires i <= |steps| && id in Run(cfg, clock, steps[..i]).store.jobs
    ensures var (then', now') := (Run(cfg, clock, steps[..i]), Run(cfg, clock, steps));
            && id in now'.store.jobs
            && (Terminal(then'.store.jobs[id].state) ==> now'.store.jobs[id].state == then'.store.jobs[id].state)
            && (then'.store.jobs[id].prepared.Some? ==> now'.store.jobs[id].prepared == then'.store.jobs[id].prepared)
            && History(then', id) <= History(now', id)
  {
    hide Run, History;
    RunForward(cfg, clock, steps, i);
  }

  /** That is a fact about service runs only: the store itself lets a reapproval decision through from every state. */
  lemma StoreAloneReapprovesAnything(job: Job, e: Option<Evidence>, reason: Reason)
    ensures WithDecision(job, e, Reapprove(reason)).Some?
        && WithDecision(job, e, Reapprove(reason)).value.state == ReapprovalRequired
    ensures forall d: Decision | !d.Reapprove? && Terminal(job.state) :: WithDecision(job, e, d).None?
  {
  }
}
