/** The fail-closed health record of one asset, with the block and recover rows that follow it. */
module AssetHealth {
  import opened Text
  import opened Sums

  datatype State = Normal | TokenPaused | AssetTransferBlocked | Recovering

  datatype Record = Record(state: State, epoch: nat, evidenceDigest: string, finalizedBlock: nat, observedAt: Time)

  datatype Decision = Decision(state: State, evidenceDigest: string, finalizedBlock: nat, observedAt: Time)

  datatype Proof = Proof(healthEpoch: nat, cleanEvidenceDigest: string, cleanFinalizedBlock: nat, reconciledAt: Time,
        evidenceDigest: string)

  /** A reclassification row is named by the evidence that blocked it and its operation. */
  type BlockKey = (string, string)

  /** `recoveries` is keyed by the block that each row reverses. */
  datatype Health = Health(
    record: Record, seen: set<string>, blocks: map<BlockKey, nat>, recoveries: map<BlockKey, nat>, proofs: set<string>)

  /**
    The settlement tables as they are at a step: finalized locks with their amounts, and whether other work is
    pending or stale.
   */
  datatype Settlement = Settlement(locks: map<string, nat>, finalized: set<string>, quiet: bool)

  datatype Result = Ok(record: Record) | RecoveryIncomplete

  // ---------- Transitions ----------

  predicate IsOpen(h: Health, k: BlockKey) {
    k in h.blocks && k !in h.recoveries
  }

  predicate HasOpenBlock(h: Health, operationID: string) {
    exists k | k in h.blocks :: IsOpen(h, k) && k.1 == operationID
  }

  function Target(r: Record, d: Decision): State {
    if d.state == Normal && r.state != Normal then Recovering else d.state
  }

  predicate Unhealthy(s: State) {
    s == TokenPaused || s == AssetTransferBlocked
  }

  /** The rows of the INSERT ... SELECT: one per lock that has no open block. */
  function NewBlocks(h: Health, digest: string, locks: map<string, nat>): map<BlockKey, nat> {
    map op | op in locks && !HasOpenBlock(h, op) :: (digest, op) := locks[op]
  }

  /** transitionOnce. */
  function Transition(h: Health, d: Decision, s: Settlement): Health {
    if d.evidenceDigest in h.seen then h
    else
      var target := Target(h.record, d);
      var epoch := if target != h.record.state then h.record.epoch + 1 else h.record.epoch;
      var seen := h.seen + {d.evidenceDigest};
      if d.state == Normal && h.record.state == Recovering then h.(seen := seen)
      else
        h.(record := Record(target, epoch, d.evidenceDigest, d.finalizedBlock, d.observedAt), seen := seen,
           blocks := if Unhealthy(target) then h.blocks + NewBlocks(h, d.evidenceDigest, s.locks) else h.blocks)
  }

  /**
    New unhealthy evidence leaves no lock without an open block, and a block made for it carries the lock's own
    amount.
   */
  lemma EveryLockIsBlocked(h: Health, d: Decision, s: Settlement, op: string)
    requires d.evidenceDigest !in h.seen && Unhealthy(d.state) && op in s.locks && Accounted(h)
    ensures HasOpenBlock(Transition(h, d, s), op)
    ensures !HasOpenBlock(h, op) ==>
              var k: BlockKey := (d.evidenceDigest, op);
                  k in Transition(h, d, s).blocks && Transition(h, d, s).blocks[k] == s.locks[op]
  {
    var v := Transition(h, d, s);
    if HasOpenBlock(h, op) {
      var k :| k in h.blocks && IsOpen(h, k) && k.1 == op;
      assert IsOpen(v, k);
    } else {
      var k: BlockKey := (d.evidenceDigest, op);
      assert k in NewBlocks(h, d.evidenceDigest, s.locks);
      assert IsOpen(v, k);
    }
  }

  // ---------- Recovery ----------

  /** Every finalized lock is classified as blocked. */
  predicate Classified(h: Health, s: Settlement) {
    forall op | op in s.finalized :: HasOpenBlock(h, op)
  }

  /** readRecoveryCounts returns three zeros. */
  predicate Reconciled(h: Health, s: Settlement) {
    s.quiet && Classified(h, s)
  }

  /** VerifyRecovery: a proof about the record as it was read. */
  function MakeProof(digest: Proof -> string, r: Record, at: Time): Proof {
    var p := Proof(r.epoch, r.evidenceDigest, r.finalizedBlock, at, "");
    p.(evidenceDigest := digest(p))
  }

  predicate ValidProof(digest: Proof -> string, r: Record, p: Proof, now: Time) {
    && r.state == Recovering && p.healthEpoch == r.epoch && p.cleanEvidenceDigest == r.evidenceDigest
        && p.cleanFinalizedBlock == r.finalizedBlock
    && p.reconciledAt != 0 && r.observedAt <= p.reconciledAt <= now + MINUTE && now - p.reconciledAt <= MINUTE
    && p.evidenceDigest == digest(p.(evidenceDigest := ""))
  }

  /** The proof table also refuses a proof dated after it is recorded, and one recorded before. */
  predicate CanComplete(digest: Proof -> string, h: Health, p: Proof, s: Settlement, now: Time) {
    ValidProof(digest, h.record, p, now) && Reconciled(h, s) && p.reconciledAt <= now && p.evidenceDigest !in h.proofs
  }

  /** completeRecoveryOnce: reverse every open block and return to NORMAL in a new epoch. */
  function Complete(h: Health, p: Proof): Health {
    h.(record := h.record.(state := Normal, epoch := h.record.epoch + 1, evidenceDigest := p.evidenceDigest),
       recoveries := h.recoveries + (map k | k in h.blocks && k !in h.recoveries :: h.blocks[k]),
       proofs := h.proofs + {p.evidenceDigest})
  }

  datatype Step = Observed(decision: Decision, settlement: Settlement) | Recovered(proof: Proof,
        settlement: Settlement, now: Clock)

  function Next(digest: Proof -> string, h: Health, step: Step): Health {
    match step
    case Observed(d, s) => if d.state == Recovering then h else Transition(h, d, s)
    case Recovered(p, s, now) => if CanComplete(digest, h, p, s, now) then Complete(h, p) else h
  }

  function Initial(): Health {
    Health(Record(Normal, 0, "", 0, 0), {}, map[], map[], {})
  }

  function Run(digest: Proof -> string, steps: seq<Step>): Health {
    if |steps| == 0 then Initial() else Next(digest, Run(digest, steps[..|steps| - 1]), steps[|steps| - 1])
  }

  // ---------- Accounting ----------

  ghost predicate OneOpenBlock(h: Health) {
    forall j, k | IsOpen(h, j) && IsOpen(h, k) && j.1 == k.1 :: j == k
  }

  ghost predicate Copied(h: Health) {
    && (forall k | k in h.recoveries :: k in h.blocks && h.recoveries[k] == h.blocks[k])
    && (forall k | k in h.blocks :: k.0 in h.seen)
    && (h.record.state == Normal ==> forall k | k in h.blocks :: k in h.recoveries)
  }

  ghost predicate Accounted(h: Health) {
    Copied(h) && OneOpenBlock(h)
  }

  lemma TransitionAccounts(h: Health, d: Decision, s: Settlement)
    requires Accounted(h) && d.state != Recovering
    ensures Accounted(Transition(h, d, s))
  {
    hide OneOpenBlock, HasOpenBlock;
    TransitionKeepsOneOpen(h, d, s);
  }

  lemma TransitionKeepsOneOpen(h: Health, d: Decision, s: Settlement)
    requires Accounted(h)
    ensures OneOpenBlock(Transition(h, d, s))
  {
    hide HasOpenBlock, NewBlocks, Copied, Target;
    var v := Transition(h, d, s);
    forall j, k | IsOpen(v, j) && IsOpen(v, k) && j.1 == k.1 ensures j == k {
      if v.blocks != h.blocks {
        NewOrOld(h, d.evidenceDigest, s.locks, j);
        NewOrOld(h, d.evidenceDigest, s.locks, k);
      } else {
        assert IsOpen(h, j) && IsOpen(h, k);
      }
    }
  }

  lemma NewOrOld(h: Health, digest: string, locks: map<string, nat>, k: BlockKey)
    requires k in h.blocks + NewBlocks(h, digest, locks) && k !in h.recoveries
    ensures IsOpen(h, k) || (k.0 == digest && !HasOpenBlock(h, k.1))
    ensures IsOpen(h, k) ==> HasOpenBlock(h, k.1)
  {
  }

  lemma CompleteAccounts(h: Health, p: Proof)
    requires Accounted(h)
    ensures Accounted(Complete(h, p))
  {
  }

  lemma {:induction false} RunAccounts(digest: Proof -> string, steps: seq<Step>)
    ensures Accounted(Run(digest, steps))
  {
    hide Transition, Complete, CanComplete, Accounted;
    if |steps| == 0 {
      InitialAccounts();
    } else {
      var h := Run(digest, steps[..|steps| - 1]);
      RunAccounts(digest, steps[..|steps| - 1]);
      match steps[|steps| - 1]
      case Observed(d, s) => if d.state != Recovering { TransitionAccounts(h, d, s); }
      case Recovered(p, _, _) => CompleteAccounts(h, p);
    }
  }

  lemma InitialAccounts()
    ensures Accounted(Initial())
  {
  }

  lemma {:induction false} SumSplits(amounts: map<BlockKey, nat>, others: map<BlockKey, nat>, part: set<BlockKey>,
        rest: set<BlockKey>)
    requires part <= others.Keys && part + rest <= amounts.Keys && part !! rest
        && forall k | k in part :: others[k] == amounts[k]
    ensures Sum(amounts, part + rest) == Sum(others, part) + Sum(amounts, rest)
    decreases |part|
  {
    if part == {} {
      assert part + rest == rest;
    } else {
      var k :| k in part;
      SumWithout(amounts, part + rest, k);
      SumWithout(others, part, k);
      assert part + rest - {k} == (part - {k}) + rest;
      SumSplits(amounts, others, part - {k}, rest);
    }
  }

  ghost function OpenKeys(h: Health): set<BlockKey> {
    set k | k in h.blocks && k !in h.recoveries
  }

  /**
    What stands on the token-blocked account is exactly the open blocks, at most one per operation, and
    nothing once the asset is NORMAL.
   */
  lemma BlockedFundsAreAccounted(digest: Proof -> string, steps: seq<Step>)
    ensures var h := Run(digest, steps);
            && Sum(h.blocks, h.blocks.Keys) - Sum(h.recoveries, h.recoveries.Keys) == Sum(h.blocks, OpenKeys(h))
            && (forall j, k | j in OpenKeys(h) && k in OpenKeys(h) && j.1 == k.1 :: j == k)
            && (h.record.state == Normal ==>
                OpenKeys(h) == {} && Sum(h.blocks, h.blocks.Keys) == Sum(h.recoveries, h.recoveries.Keys))
  {
    hide Run;
    RunAccounts(digest, steps);
    var h := Run(digest, steps);
    assert h.blocks.Keys == h.recoveries.Keys + OpenKeys(h);
    SumSplits(h.blocks, h.recoveries, h.recoveries.Keys, OpenKeys(h));
  }

  // ---------- Epochs ----------

  /**
    One step: the epoch rises exactly with the state, NORMAL is entered only by a proof, and a recovery
    anchor stands still within its epoch.
   */
  lemma StepEpochs(digest: Proof -> string, h: Health, step: Step)
    ensures var v := Next(digest, h, step);
            && h.record.epoch <= v.record.epoch <= h.record.epoch + 1
            && (v.record.epoch == h.record.epoch <==> v.record.state == h.record.state)
            && (h.record.state == Recovering && v.record.epoch == h.record.epoch ==> v.record == h.record)
            && (h.record.state != Normal && v.record.state == Normal ==>
                  step.Recovered? && CanComplete(digest, h, step.proof, step.settlement, step.now)
                      && h.record.state == Recovering)
  {
    hide NewBlocks, Reconciled;
  }

  lemma {:induction false} EpochsRise(digest: Proof -> string, steps: seq<Step>, i: nat)
    requires i <= |steps|
    ensures var (a, b) := (Run(digest, steps[..i]).record, Run(digest, steps).record);
            a.epoch <= b.epoch && (a.epoch == b.epoch ==> a.state == b.state && (a.state == Recovering ==> a == b))
    decreases |steps|
  {
    hide Next;
    if i == |steps| {
      assert steps[..i] == steps;
    } else {
      var before := steps[..|steps| - 1];
      assert before[..i] == steps[..i];
      EpochsRise(digest, before, i);
      StepEpochs(digest, Run(digest, before), steps[|steps| - 1]);
    }
  }

  /**
    A proof made before a relapse is never accepted after it: if a proof that carries the epoch of an
    earlier recovering record is valid now, the record has not changed at any moment in between.
   */
  lemma StaleProofIsRefused(digest: Proof -> string, steps: seq<Step>, i: nat, j: nat, p: Proof, now: Time)
    requires i <= j <= |steps|
    requires var made := Run(digest, steps[..i]).record; made.state == Recovering && p.healthEpoch == made.epoch
    requires ValidProof(digest, Run(digest, steps).record, p, now)
    ensures Run(digest, steps[..j]).record == Run(digest, steps[..i]).record == Run(digest, steps).record
  {
    hide Run;
    EpochsRise(digest, steps, i);
    EpochsRise(digest, steps, j);
    assert steps[..j][..i] == steps[..i];
    EpochsRise(digest, steps[..j], i);
  }

  /** A proof made of the current recovering record is valid as long as it is fresh. */
  lemma FreshProofIsAccepted(digest: Proof -> string, h: Health, at: Time, now: Time)
    requires h.record.state == Recovering && at != 0 && h.record.observedAt <= at <= now <= at + MINUTE
    ensures ValidProof(digest, h.record, MakeProof(digest, h.record, at), now)
  {
    var p := MakeProof(digest, h.record, at);
    assert p.(evidenceDigest := "") == Proof(h.record.epoch, h.record.evidenceDigest, h.record.finalizedBlock, at, "");
  }

  /**
    A proof made of a recovering record is valid while it is fresh if and only if the record is still the same, however
    often the asset relapsed and began to recover again in between.
   */
  lemma ProofIsValidExactly(digest: Proof -> string, steps: seq<Step>, i: nat, at: Time, now: Time)
    requires i <= |steps| && Run(digest, steps[..i]).record.state == Recovering
    requires at != 0 && Run(digest, steps[..i]).record.observedAt <= at <= now <= at + MINUTE
    ensures var (made, current) := (Run(digest, steps[..i]).record, Run(digest, steps).record);
            ValidProof(digest, current, MakeProof(digest, made, at), now) <==> current == made
  {
    hide Run, ValidProof;
    var made := Run(digest, steps[..i]).record;
    var p := MakeProof(digest, made, at);
    FreshProofIsAccepted(digest, Run(digest, steps[..i]), at, now);
    if ValidProof(digest, Run(digest, steps).record, p, now) { StaleProofIsRefused(digest, steps, i, i, p, now); }
  }

  // ---------- When recovery can complete ----------

  lemma QuietStep(digest: Proof -> string, h: Health, step: Step)
    requires h.record.state == Recovering && Next(digest, h, step).record == h.record
    ensures var v := Next(digest, h, step); v.blocks == h.blocks && v.recoveries == h.recoveries && v.proofs == h.proofs
  {
    hide ValidProof, Reconciled, NewBlocks;
  }

  /** While the recovering record stands, no block is opened or reversed. */
  lemma {:induction false} BlocksStand(digest: Proof -> string, steps: seq<Step>, i: nat)
    requires i <= |steps| && Run(digest, steps[..i]).record.state == Recovering
    requires Run(digest, steps).record == Run(digest, steps[..i]).record
    ensures var (a, b) := (Run(digest, steps[..i]), Run(digest, steps));
        b.blocks == a.blocks && b.recoveries == a.recoveries
    decreases |steps|
  {
    hide Next;
    if i == |steps| {
      assert steps[..i] == steps;
    } else {
      var before := steps[..|steps| - 1];
      assert before[..i] == steps[..i];
      EpochsRise(digest, steps, |before|);
      EpochsRise(digest, before, i);
      BlocksStand(digest, before, i);
      QuietStep(digest, Run(digest, before), steps[|steps| - 1]);
    }
  }

  /**
    Recovery may have to wait for a relapse. As long as the recovering record stands, a fresh proof completes recovery
    if and only if nothing is pending and every finalized lock already had an open block when the record was made: a
    lock finalized since then keeps it from completing.
   */
  lemma RecoveryCompletesExactly(digest: Proof -> string, steps: seq<Step>, i: nat, s: Settlement, at: Time, now: Time)
    requires i <= |steps| && Run(digest, steps[..i]).record.state == Recovering
    requires Run(digest, steps).record == Run(digest, steps[..i]).record
    requires at != 0 && Run(digest, steps).record.observedAt <= at <= now <= at + MINUTE
    requires MakeProof(digest, Run(digest, steps).record, at).evidenceDigest !in Run(digest, steps).proofs
    ensures CanComplete(digest, Run(digest, steps), MakeProof(digest, Run(digest, steps).record, at), s, now) <==>
              s.quiet && forall op | op in s.finalized :: HasOpenBlock(Run(digest, steps[..i]), op)
  {
    hide Run, ValidProof;
    var (a, b) := (Run(digest, steps[..i]), Run(digest, steps));
    BlocksStand(digest, steps, i);
    FreshProofIsAccepted(digest, b, at, now);
    forall op ensures HasOpenBlock(a, op) <==> HasOpenBlock(b, op) { SameBlocks(a, b, op); }
  }

  lemma SameBlocks(a: Health, b: Health, op: string)
    requires a.blocks == b.blocks && a.recoveries == b.recoveries
    ensures HasOpenBlock(a, op) <==> HasOpenBlock(b, op)
  {
    forall k ensures IsOpen(a, k) <==> IsOpen(b, k) {}
  }

  function Quiet(locks: map<string, nat>): Settlement {
    Settlement(locks, locks.Keys, true)
  }

  /** A pause with nothing locked, then a clean observation; after it a lock is finalized. */
  function PausedRun(): seq<Step> {
    [Observed(Decision(TokenPaused, "e1", 1, 1), Quiet(map[])), Observed(Decision(Normal, "e2", 2, 2), Quiet(map[]))]
  }

  function RelapsedRun(): seq<Step> {
    PausedRun() + [Observed(Decision(TokenPaused, "e3", 3, 3), Quiet(map["op" := 5])),
                   Observed(Decision(Normal, "e4", 4, 4), Quiet(map["op" := 5]))]
  }

  /** It happens: with the new lock no proof completes recovery, and after a relapse a fresh one does. */
  lemma RecoveryWaitsForRelapse(digest: Proof -> string)
    ensures var h := Run(digest, PausedRun());
            h.record.state == Recovering && forall p, now :: !CanComplete(digest, h, p, Quiet(map["op" := 5]), now)
    ensures var h := Run(digest, RelapsedRun());
            && h.record.state == Recovering
            && CanComplete(digest, h, MakeProof(digest, h.record, 5), Quiet(map["op" := 5]), 5)
  {
    hide Run, Transition, CanComplete;
    var (a, s) := (RelapsedRun(), Quiet(map["op" := 5]));
    RunSoFar(digest, a);
    var (h2, h3, h4) := (Run(digest, a[..2]), Run(digest, a[..3]), Run(digest, a));
    assert a[..2] == PausedRun();
    PauseThenClean(Initial());
    forall p, now ensures !CanComplete(digest, h2, p, s, now) { NothingOpen(digest, h2, p, s, now, "op"); }
    RunAccounts(digest, a[..2]);
    EveryLockIsBlocked(h2, a[2].decision, s, "op");
    CleanAfterPause(h2, h3, h4, s);
    SameBlocks(h3, h4, "op");
    FreshProofIsAccepted(digest, h4, 5, 5);
    Completes(digest, h4, MakeProof(digest, h4.record, 5), s, 5);
  }

  lemma RunSoFar(digest: Proof -> string, a: seq<Step>)
    requires |a| == 4
    ensures Run(digest, a[..2]) == Next(digest, Next(digest, Initial(), a[0]), a[1])
    ensures Run(digest, a[..3]) == Next(digest, Run(digest, a[..2]), a[2])
    ensures Run(digest, a) == Next(digest, Run(digest, a[..3]), a[3])
  {
    hide Next;
    assert a[..1][..0] == [] && a[..2][..1] == a[..1] && a[..3][..2] == a[..2];
    assert Run(digest, a[..1]) == Next(digest, Initial(), a[0]);
  }

  lemma PauseThenClean(h: Health)
    requires h == Initial()
    ensures var paused := Transition(h, Decision(TokenPaused, "e1", 1, 1), Quiet(map[]));
            Transition(paused, Decision(Normal, "e2", 2, 2), Quiet(map[]))
            == Health(Record(Recovering, 2, "e2", 2, 2), {"e1", "e2"}, map[], map[], {})
  {
    assert NewBlocks(h, "e1", map[]) == map[];
    var paused := Transition(h, Decision(TokenPaused, "e1", 1, 1), Quiet(map[]));
    assert paused == Health(Record(TokenPaused, 1, "e1", 1, 1), {"e1"}, map[], map[], {});
    assert {"e1"} + {"e2"} == {"e1", "e2"};
  }

  lemma NothingOpen(digest: Proof -> string, h: Health, p: Proof, s: Settlement, now: Time, op: string)
    requires h.blocks == map[] && op in s.finalized
    ensures !CanComplete(digest, h, p, s, now)
  {
    assert !HasOpenBlock(h, op);
  }

  lemma CleanAfterPause(h2: Health, h3: Health, h4: Health, s: Settlement)
    requires h2.record.state == Recovering && "e3" !in h2.seen && "e4" !in h2.seen && h2.proofs == {}
    requires h3 == Transition(h2, Decision(TokenPaused, "e3", 3, 3), s)
        && h4 == Transition(h3, Decision(Normal, "e4", 4, 4), s)
    ensures h4.record.state == Recovering && h4.record.observedAt == 4 && h4.proofs == {}
    ensures h4.blocks == h3.blocks && h4.recoveries == h3.recoveries
  {
    hide NewBlocks;
  }

  lemma Completes(digest: Proof -> string, h: Health, p: Proof, s: Settlement, now: Time)
    requires ValidProof(digest, h.record, p, now) && p.reconciledAt <= now && h.proofs == {} && s.quiet
    requires forall op | op in s.finalized :: HasOpenBlock(h, op)
    ensures CanComplete(digest, h, p, s, now)
  {
  }

  /** Completing recovery reverses the block of every finalized lock, whose funds were all classified. */
  lemma RecoveryReversesEveryLock(digest: Proof -> string, h: Health, p: Proof, s: Settlement, now: Time, op: string)
    requires CanComplete(digest, h, p, s, now) && op in s.finalized
    ensures exists k: BlockKey ::
        k.1 == op && IsOpen(h, k) && k in Complete(h, p).recoveries && Complete(h, p).recoveries[k] == h.blocks[k]
  {
    var k :| k in h.blocks && IsOpen(h, k) && k.1 == op;
    assert k in Complete(h, p).recoveries;
  }
}
