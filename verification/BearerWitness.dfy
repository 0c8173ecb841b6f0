/** For every request that may be signed there is a run in which its record is written after its "no record" proof. */
module BearerWitness {
  import opened Text
  import opened ActivationTables
  import opened BearerProtocol
  import L = SignerLedger
  import R = SignerRuns

  /** A request, the two workers that meet, and what the engine, the random source and the cipher give. */
  datatype Race = Race(
    input: ActivationInput, early: Clock, worker: string, token: string, other: string, otherToken: string,
    signature: Bytes, handle: string, nonce: nat)

  /** The request may be signed at `early`, and nothing about it is out of the ordinary. */
  predicate Possible(s: Setting, y: System, x: Race) {
    var i, t := x.input, y.w.db;
    && Initial(y) && y.w.clock <= x.early && MINUTE < x.early && x.early + SECOND <= i.validUntil
    && ValidInput(s.cfg, i, x.early) && Hash(InputHash(s.cfg, i)) && Hash(i.canonicalPayloadHash)
    && AuthorizesSigning(t, i, x.early) && t.reservations[i.reservationID].operationID == i.operationID
    && Hash(t.authorizations[i.authorizationID].snapshotHash)
    && Identifier(x.worker) && Identifier(x.other) && x.token != x.otherToken
    && 64 <= |x.signature| <= 16 * 1024 && OpaqueHandle(x.handle)
    && s.env.encodedLength(LateRecord(s, x)) <= L.MAX_RECORD_BYTES
        && |s.env.seal(L.ArtifactAAD(s.env, LateHandle(s, x)), x.nonce, x.signature)| > 0
  }

  function LateHandle(s: Setting, x: Race): L.Handle {
    L.Handle(x.handle, BindingOf(x.input, InputHash(s.cfg, x.input)), L.Prepared, "")
  }

  function LateRecord(s: Setting, x: Race): L.SignerRecord {
    L.SignerRecord(LateHandle(s, x), s.env.seal(L.ArtifactAAD(s.env, LateHandle(s, x)), x.nonce, x.signature), None)
  }

  /** The row as the request creates it and as each claim hands it out. */
  function Row(s: Setting, x: Race, lease: Option<Lease>): Request {
    Request(x.input, InputHash(s.cfg, x.input), "", SignRequested, "", x.early, 0, lease, 0)
  }

  function FirstClaim(s: Setting, x: Race): Request {
    Row(s, x, Some(Lease(x.worker, x.token, x.early + SECOND)))
  }

  function SecondClaim(s: Setting, x: Race): Request
    requires x.input.validUntil > 0
  {
    Row(s, x, Some(Lease(x.other, x.otherToken, x.input.validUntil + SECOND)))
  }

  /**
    The first worker claims the row, validates it and stops before the signer's lock. The window ends, its lease ends,
    a second worker claims the expired row and is told there is no record. Then the first worker goes on.
   */
  function RaceRun(s: Setting, x: Race): seq<Act>
    requires x.input.validUntil > 0
  {
    var (i, end) := (x.input, x.input.validUntil);
    [Does(Tick(x.early), L.Synced),
     Does(Requested(i, x.early, true), L.Synced),
     Does(Claimed(i.requestID, x.worker, x.token, x.early, SECOND, false), L.Synced),
     Does(Tick(end), L.Synced),
     Does(Claimed(i.requestID, x.other, x.otherToken, end, SECOND, true), L.Synced),
     Does(SignerProves(SecondClaim(s, x), true, end), L.Synced),
     Does(SignerPrepares(FirstClaim(s, x), x.signature, [x.handle], Some(x.nonce), x.early), L.Synced)]
  }

  lemma RunThen(s: Setting, y: System, acts: seq<Act>, act: Act)
    ensures Run(s, y, acts + [act]) == Do(s, Run(s, y, acts), act)
  {
    hide Do;
    assert (acts + [act])[..|acts|] == acts;
  }

  lemma EmptyRun(s: Setting, y: System)
    ensures Run(s, y, []) == y
  {
  }

  function Created(s: Setting, y: System, x: Race): World {
    var w := y.w;
    w.(clock := x.early,
       db := w.db.(requests := map[x.input.requestID := Row(s, x, None)], outbox :=
           map[(x.input.requestID, SignPrepare) := Pending]))
  }

  lemma Creates(s: Setting, y: System, x: Race)
    requires Possible(s, y, x)
    ensures Next(s, Next(s, y.w, Tick(x.early)), Requested(x.input, x.early, true)) == Created(s, y, x)
  {
    hide ValidInput, Hash, Identifier, OpaqueHandle, LateRecord;
    var w := Next(s, y.w, Tick(x.early));
    assert w.db.requests[x.input.requestID := Row(s, x, None)] == map[x.input.requestID := Row(s, x, None)];
    assert w.db.outbox[(x.input.requestID, SignPrepare) := Pending] == map[(x.input.requestID, SignPrepare) := Pending];
  }

  /** After the first claim and the end of the window. */
  function Waiting(s: Setting, y: System, x: Race): World
    requires x.input.validUntil > 0
  {
    var w := Created(s, y, x);
    w.(clock := x.input.validUntil, db := w.db.(requests := map[x.input.requestID := FirstClaim(s, x)]),
       granted := map[x.token := x.early], snapshots := {FirstClaim(s, x)})
  }

  lemma Claims(s: Setting, y: System, x: Race)
    requires Possible(s, y, x) && x.input.validUntil > 0
    ensures var w := Next(s, Created(s, y, x), Claimed(x.input.requestID, x.worker, x.token, x.early, SECOND, false));
            Next(s, w, Tick(x.input.validUntil)) == Waiting(s, y, x)
  {
    hide Hash, Identifier, OpaqueHandle, LateRecord, InputHash;
    var w := Created(s, y, x);
    var id := x.input.requestID;
    assert Claimable(w.db.requests[id], x.early, false);
    var v := Next(s, w, Claimed(id, x.worker, x.token, x.early, SECOND, false));
    assert v.db.requests == map[id := FirstClaim(s, x)];
    assert v.granted == map[x.token := x.early] && v.snapshots == {FirstClaim(s, x)};
  }

  function ProofOf(s: Setting, x: Race): L.UnactivatedProof {
    var i := x.input;
    L.NewUnactivatedProof(s.env, i.requestID, i.operationID, i.actionID, InputHash(s.cfg, i), "", i.validUntil)
  }

  /** The second worker has its proof. */
  function Proven(s: Setting, y: System, x: Race): World
    requires x.input.validUntil > 0
  {
    var w := Waiting(s, y, x);
    w.(db := w.db.(requests := map[x.input.requestID := SecondClaim(s, x)]), granted :=
        w.granted[x.otherToken := x.input.validUntil],
       expiredClaims := {SecondClaim(s, x)}, proofs := {ProofOf(s, x)})
  }

  /** The second worker holds the expired row. */
  function Reclaimed(s: Setting, y: System, x: Race): World
    requires x.input.validUntil > 0
  {
    Proven(s, y, x).(proofs := {})
  }

  lemma Reclaims(s: Setting, y: System, x: Race)
    requires Possible(s, y, x) && x.input.validUntil > 0
    ensures Next(s, Waiting(s, y, x), Claimed(x.input.requestID, x.other, x.otherToken, x.input.validUntil, SECOND,
        true))
            == Reclaimed(s, y, x)
  {
    hide Hash, Identifier, OpaqueHandle, LateRecord, InputHash, ValidInput;
    var w := Waiting(s, y, x);
    var id, end := x.input.requestID, x.input.validUntil;
    assert Claimable(w.db.requests[id], end, true);
    var v := Next(s, w, Claimed(id, x.other, x.otherToken, end, SECOND, true));
    assert v.db.requests == map[id := SecondClaim(s, x)];
    assert v.expiredClaims == {SecondClaim(s, x)};
  }

  lemma Proves(s: Setting, y: System, x: Race)
    requires Possible(s, y, x) && x.input.validUntil > 0
    ensures var step := SignerProves(SecondClaim(s, x), true, x.input.validUntil);
            Next(s, Reclaimed(s, y, x), step) == Proven(s, y, x) && WriteOf(s, Reclaimed(s, y, x), step).None?
  {
    hide Hash, Identifier, OpaqueHandle, LateRecord, InputHash, L.ActionKey, L.PlanOf, SecondClaim, FirstClaim;
    var v := Reclaimed(s, y, x);
    ProofIsNoRecord(s, v, x);
    assert v.proofs + {ProofOf(s, x)} == {ProofOf(s, x)};
  }

  lemma ProofIsNoRecord(s: Setting, w: World, x: Race)
    requires x.input.validUntil > 0 && w.signer == L.SignerState(map[], map[])
    requires Hash(x.input.requestID) && Hash(x.input.operationID) && Identifier(x.input.actionID)
        && Hash(InputHash(s.cfg, x.input))
    ensures var step := SignerProves(SecondClaim(s, x), true, x.input.validUntil);
            L.PlanOf(s.env, w.signer, CallOf(s, step)) == L.Answer(L.Unactivated(ProofOf(s, x)))
  {
    hide Hash, Identifier, L.ActionKey, InputHash;
  }

  lemma PlansLate(s: Setting, y: System, x: Race)
    requires Possible(s, y, x) && x.input.validUntil > 0
    ensures var step := SignerPrepares(FirstClaim(s, x), x.signature, [x.handle], Some(x.nonce), x.early);
            && Enabled(s, Proven(s, y, x), step)
            && L.PlanOf(s.env, Proven(s, y, x).signer, CallOf(s, step))
                == L.Persist(LateRecord(s, x), L.Granted(LateHandle(s, x)))
            && L.ValidTransition(map[], LateRecord(s, x))
  {
    hide Hash, Identifier, L.ActionKey, InputHash, L.ArtifactAAD;
    assert L.PickID(map[], [x.handle], 3) == Some(x.handle);
    OpaqueIsNotEmpty(x.handle);
  }

  lemma OpaqueIsNotEmpty(h: string)
    requires OpaqueHandle(h)
    ensures h != ""
  {
  }

  lemma NoWrite(s: Setting, y: System, step: Step, w: World)
    requires WriteOf(s, y.w, step).None? && Next(s, y.w, step) == w
    ensures Do(s, y, Does(step, L.Synced)) == y.(w := w)
  {
    hide Next, WriteOf;
  }

  lemma BeforeRecord(s: Setting, y: System, x: Race)
    requires Possible(s, y, x) && x.input.validUntil > 0
    ensures Run(s, y, RaceRun(s, x)[..6]) == System(Proven(s, y, x), R.FRESH.journal)
  {
    hide Run, Next, Do, Possible, Created, Waiting, Proven, FirstClaim, SecondClaim;
    var a := RaceRun(s, x);
    EmptyRun(s, y);
    Journal(s, y, x);
    RunThen(s, y, [], a[0]);
    NoWrite(s, y, a[0].step, Next(s, y.w, a[0].step));
    var y1 := y.(w := Next(s, y.w, a[0].step));
    RunThen(s, y, [a[0]], a[1]);
    Creates(s, y, x);
    NoWrite(s, y1, a[1].step, Created(s, y, x));
    var y2 := y.(w := Created(s, y, x));
    RunThen(s, y, [a[0], a[1]], a[2]);
    NoWrite(s, y2, a[2].step, Next(s, y2.w, a[2].step));
    var y3 := y.(w := Next(s, y2.w, a[2].step));
    RunThen(s, y, [a[0], a[1], a[2]], a[3]);
    Claims(s, y, x);
    NoWrite(s, y3, a[3].step, Waiting(s, y, x));
    assert a[..4] == [a[0], a[1], a[2]] + [a[3]];
    assert [] + [a[0]] == [a[0]] && [a[0]] + [a[1]] == [a[0], a[1]] && [a[0], a[1]] + [a[2]] == [a[0], a[1], a[2]];
    LastBeforeRecord(s, y, x);
  }

  lemma LastBeforeRecord(s: Setting, y: System, x: Race)
    requires Possible(s, y, x) && x.input.validUntil > 0
    requires Run(s, y, RaceRun(s, x)[..4]) == y.(w := Waiting(s, y, x))
    ensures Run(s, y, RaceRun(s, x)[..6]) == y.(w := Proven(s, y, x))
  {
    hide Run, Next, Do, Possible, Created, Waiting, Proven, Reclaimed, FirstClaim, SecondClaim, WriteOf;
    var a := RaceRun(s, x);
    var y4 := y.(w := Waiting(s, y, x));
    RunThen(s, y, a[..4], a[4]);
    assert a[..4] + [a[4]] == a[..5];
    ClaimWritesNothing(s, y4.w, a[4].step);
    Reclaims(s, y, x);
    NoWrite(s, y4, a[4].step, Reclaimed(s, y, x));
    var y5 := y.(w := Reclaimed(s, y, x));
    RunThen(s, y, a[..5], a[5]);
    assert a[..5] + [a[5]] == a[..6];
    Proves(s, y, x);
    NoWrite(s, y5, a[5].step, Proven(s, y, x));
  }

  lemma ClaimWritesNothing(s: Setting, w: World, step: Step)
    requires step.Claimed?
    ensures WriteOf(s, w, step).None?
  {
  }

  lemma Journal(s: Setting, y: System, x: Race)
    requires Possible(s, y, x)
    ensures y.journal == R.FRESH.journal
  {
  }

  /** The late write is acknowledged. */
  lemma Writes(s: Setting, y: System, x: Race)
    requires Possible(s, y, x) && x.input.validUntil > 0
    ensures var step := SignerPrepares(FirstClaim(s, x), x.signature, [x.handle], Some(x.nonce), x.early);
            var v := Perform(s, System(Proven(s, y, x), R.FRESH.journal), step, L.Synced).w;
            && v.proofs == Proven(s, y, x).proofs && v.signer == L.Commit(Proven(s, y, x).signer, LateRecord(s, x))
  {
    hide Possible, Proven, FirstClaim, LateRecord, LateHandle, L.Commit, L.PlanOf, L.ValidTransition, ValidInput,
        L.NextEvent;
    PlansLate(s, y, x);
    Small(s, y, x);
  }

  lemma Small(s: Setting, y: System, x: Race)
    requires Possible(s, y, x)
    ensures s.env.encodedLength(LateRecord(s, x)) <= L.MAX_RECORD_BYTES
  {
  }

  /** The end of the run: the "no record" proof is out, and the signer holds a PREPARED record of the same request. */
  lemma RecordAfterProof(s: Setting, y: System, x: Race)
    requires Possible(s, y, x)
    ensures x.input.validUntil > 0
    ensures var before := Run(s, y, RaceRun(s, x)[..6]).w;
            ProofOf(s, x) in before.proofs && ProofOf(s, x).handleID == ""
                && ProofOf(s, x).requestID == x.input.requestID
            && before.signer.byID == map[]
    ensures var after := Run(s, y, RaceRun(s, x)).w;
            && ProofOf(s, x) in after.proofs && x.handle in after.signer.byID
                && after.signer.byID[x.handle] == LateRecord(s, x)
            && LateRecord(s, x).handle.state == L.Prepared
                && LateRecord(s, x).handle.binding.requestID == x.input.requestID
  {
    hide Possible, Run, Perform;
    Window(s, y, x);
    var a := RaceRun(s, x);
    BeforeRecord(s, y, x);
    NoRecords(s, y, x);
    RunThen(s, y, a[..6], a[6]);
    assert a[..6] + [a[6]] == a;
    Writes(s, y, x);
  }

  lemma NoRecords(s: Setting, y: System, x: Race)
    requires Possible(s, y, x) && x.input.validUntil > 0
    ensures Proven(s, y, x).signer.byID == map[]
  {
  }

  lemma Window(s: Setting, y: System, x: Race)
    requires Possible(s, y, x)
    ensures x.input.validUntil > 0
  {
  }

  // ---------- Such requests exist ----------

  function SomeHash(): string {
    "0x" + seq(64, _ => '1')
  }

  function SomeAddress(): string {
    "0x" + seq(40, _ => '1')
  }

  function SomeSetting(): Setting {
    Setting(L.Env((_, _, plain) => [0] + plain, (_, sealed) => if |sealed| > 0 then Some(sealed[1..]) else None,
                  _ => "", _ => "", _ => 0, _ => ""),
            Config(_ => SomeHash(), _ => SomeHash(), _ => SomeHash(), _ => SomeHash(), _ => SomeHash(), true))
  }

  function SomeInput(): ActivationInput {
    ActivationInput(SomeHash(), SomeHash(), SomeHash(), SomeHash(), "action-1", [1], SomeHash(), [1], SomeHash(),
        SomeHash(), SomeHash(),
                    LOCK_AUTHORIZATION, 1, "signer-1", 1, SomeAddress(), SomeAddress(), "keeper-1", 2 * MINUTE,
                        3 * MINUTE)
  }

  function SomeSystem(): System {
    var db := Tables(map[], map[SomeHash() := Authorization(SomeHash(), SomeHash(), SomeHash())],
                     map[SomeHash() := Reservation(SomeHash(), Reserved, 3 * MINUTE)], map[], map[], map[], map[]);
    System(World(db, L.SignerState(map[], map[]), map[], 1, map[], {}, {}, {}, {}, {}, {}, {}), R.FRESH.journal)
  }

  function SomeRace(): Race {
    Race(SomeInput(), 2 * MINUTE, "worker-1", "first", "worker-2", "second", seq(64, _ => 7), SomeHash(), 0)
  }

  lemma SomeShapes()
    ensures Hash(SomeHash()) && OpaqueHandle(SomeHash()) && Address(SomeAddress())
    ensures Identifier("action-1") && Identifier("signer-1") && Identifier("keeper-1") && Identifier("worker-1")
        && Identifier("worker-2")
  {
    assert SomeHash()[2] == '1' && SomeAddress()[2] == '1';
  }

  /** A concrete race, under a cipher that obeys its law. */
  lemma RaceExists()
    ensures L.CipherLaw(SomeSetting().env) && SomeSetting().cfg.leasesRequired
    ensures Possible(SomeSetting(), SomeSystem(), SomeRace())
  {
    hide Hash, OpaqueHandle, Address, Identifier, SomeHash, SomeAddress;
    SomeShapes();
    var env := SomeSetting().env;
    forall aad: string, n: nat, plain: Bytes ensures |env.seal(aad, n, plain)| > 0
        && env.open(aad, env.seal(aad, n, plain)) == Some(plain) {
      assert ([0] + plain)[1..] == plain;
    }
  }
}
