/** What every run of publishers keeps, when recovery accepts, and that one publish repairs any crash. */
module CheckpointSafety {
  import opened Text
  import opened Utf
  import opened CanonicalJson
  import opened EventChain
  import opened Checkpoints

  // ---------- Steps ----------

  lemma OnChainGrows(events: seq<Event>, more: seq<Event>, head: Head)
    requires OnChain(events, head)
    ensures OnChain(events + more, head)
  {
  }

  lemma AppendedKeeps(s: Setting, w: World, step: Step)
    requires Inv(s, w) && step.Appended?
    ensures Inv(s, Next(s, w, step))
  {
    hide Verify, Sign, Blob, OnChain;
    var v := Next(s, w, step);
    if v != w {
      OnChainGrows(w.events, [step.event], w.remote);
      forall c | c in v.signed ensures Genuine(s, v.events, c) {
        assert Genuine(s, w.events, c);
        OnChainGrows(w.events, [step.event], Head(c.lastSequence, c.lastEventHash));
      }
    }
  }

  lemma SignedIsGenuine(s: Setting, events: seq<Event>, n: nat, at: int)
    requires n <= |events| && Sign(s, HeadOf(events[..n]), at).Some?
    ensures Genuine(s, events, Sign(s, HeadOf(events[..n]), at).value)
  {
    hide Print, Name, Document, NonZero;
  }

  lemma SignedKeeps(s: Setting, w: World, step: Step)
    requires Inv(s, w) && step.Signed?
    ensures Inv(s, Next(s, w, step))
  {
    hide Verify, Sign, Blob, OnChain, HeadOf, Genuine;
    if step.n <= |w.events| && Sign(s, HeadOf(w.events[..step.n]), step.at).Some? {
      SignedIsGenuine(s, w.events, step.n, step.at);
    }
  }

  lemma PutKeeps(s: Setting, w: World, step: Step)
    requires Inv(s, w) && step.Put?
    ensures Inv(s, Next(s, w, step))
  {
    hide Verify, Sign, Blob, OnChain, Genuine;
  }

  lemma AdvancedKeeps(s: Setting, w: World, step: Step)
    requires Inv(s, w) && step.Advanced?
    ensures Inv(s, Next(s, w, step))
  {
    hide Verify, Sign, Blob;
    if step.c in w.stored { assert Genuine(s, w.events, step.c); }
  }

  lemma SavedKeeps(s: Setting, w: World, step: Step)
    requires Inv(s, w) && step.Saved?
    ensures Inv(s, Next(s, w, step))
  {
    hide Verify, Sign, Blob, OnChain, Genuine;
  }

  lemma NextKeeps(s: Setting, w: World, step: Step)
    requires Inv(s, w)
    ensures Inv(s, Next(s, w, step))
  {
    hide Inv, Next;
    match step
    case Appended(_) => AppendedKeeps(s, w, step);
    case Signed(_, _) => SignedKeeps(s, w, step);
    case Put(_) => PutKeeps(s, w, step);
    case Advanced(_) => AdvancedKeeps(s, w, step);
    case Saved(_) => SavedKeeps(s, w, step);
  }

  lemma {:induction false} RunKeeps(s: Setting, steps: seq<Step>)
    ensures Inv(s, Run(s, steps))
  {
    hide Next;
    if |steps| > 0 {
      RunKeeps(s, steps[..|steps| - 1]);
      NextKeeps(s, Run(s, steps[..|steps| - 1]), steps[|steps| - 1]);
    }
  }

  /**
    Every saved checkpoint has its exact bytes in the write-once store and a remote head at or beyond it;
    the remote head is always an event of the chain.
   */
  lemma SavedIsBacked(s: Setting, steps: seq<Step>, n: nat)
    requires n in Run(s, steps).saved
    ensures var w := Run(s, steps);
            && InWorm(s, w.worm, w.saved[n]) && 0 < n <= w.remote.sequence <= |w.events|
            && w.events[n - 1].eventHash == w.saved[n].lastEventHash
            && w.events[w.remote.sequence - 1].eventHash == w.remote.eventHash
  {
    hide Run, Inv, InWorm;
    RunKeeps(s, steps);
    BackedIn(s, Run(s, steps), n);
  }

  lemma BackedIn(s: Setting, w: World, n: nat)
    requires Inv(s, w) && n in w.saved
    ensures InWorm(s, w.worm, w.saved[n]) && 0 < n <= w.remote.sequence <= |w.events|
    ensures w.events[n - 1].eventHash == w.saved[n].lastEventHash
        && w.events[w.remote.sequence - 1].eventHash == w.remote.eventHash
  {
    hide Verify, Sign, WormOk;
    assert Genuine(s, w.events, w.saved[n]);
    SequenceIsPositive(s, w.events, w.saved[n]);
  }

  // ---------- Genuine checkpoints verify ----------

  predicate Plain(s: Octets) {
    forall i | 0 <= i < |s| :: 0x21 <= s[i] < 0x7F
  }

  lemma {:induction false} PlainDecodes(s: Octets)
    requires Plain(s)
    ensures Decode(s).Some? && |Decode(s).value| == |s| && forall i | 0 <= i < |s| :: Decode(s).value[i] == s[i] as int
  {
    if |s| > 0 {
      assert DecodeRune(s) == Some((s[0] as int, 1));
      PlainDecodes(s[1..]);
    }
  }

  lemma PlainName(s: Octets, least: nat, most: nat)
    requires Plain(s) && least <= |s| <= most
    ensures Name(s, least, most)
  {
    hide Decode;
    PlainDecodes(s);
  }

  lemma HexIsPlain(h: Octets)
    requires HexHash(h)
    ensures Plain(h)
  {
  }

  lemma PlainParts()
    ensures Plain(Ascii("checkpoint_")) && |Ascii("checkpoint_")| == 11
    ensures Plain(Ascii("ascp/checkpoints/")) && |Ascii("ascp/checkpoints/")| == 17
    ensures Plain(Ascii(".json")) && |Ascii(".json")| == 5
  {
  }

  lemma GenuineVerifies(s: Setting, events: seq<Event>, c: Checkpoint)
    requires SettingLaw(s) && Genuine(s, events, c)
    ensures VerifyCheckpoint(s, c)
  {
    hide Print, Name, Document, Ascii, NonZero;
    PlainParts();
    var digest := s.env.sha(ID_TAG + c.document);
    HexIsPlain(digest);
    assert |digest| == 64 by { HexLength(digest); }
    PlainName(c.id, 8, 200);
    PlainName(c.wormRef, 8, 300);
  }

  lemma HexLength(h: Octets)
    requires HexHash(h)
    ensures |h| == 64
  {
  }

  // ---------- When recovery accepts ----------

  /** The remote head is the latest checkpoint's, or nothing was ever published. */
  ghost predicate Settled(w: World) {
    if w.saved == map[] then w.remote.sequence == 0 else w.remote.sequence in w.saved && forall m | m in w.saved ::
        m <= w.remote.sequence
  }

  lemma LatestIs(saved: map<nat, Checkpoint>, n: nat)
    requires n in saved && forall m | m in saved :: m <= n
    ensures Latest(saved) == Some(saved[n])
  {
  }

  lemma {:induction false} Greatest(keys: set<nat>) returns (n: nat)
    requires keys != {}
    ensures n in keys && forall m | m in keys :: m <= n
    decreases |keys|
  {
    var k :| k in keys;
    if keys == {k} {
      n := k;
    } else {
      assert keys - {k} != {};
      var rest := keys - {k};
      n := Greatest(rest);
      assert forall m | m in keys :: m == k || m in rest;
      if n < k { n := k; }
    }
  }

  lemma NoKeysNoMap(saved: map<nat, Checkpoint>)
    ensures saved.Keys == {} ==> saved == map[]
  {
  }

  lemma LatestExists(saved: map<nat, Checkpoint>) returns (n: nat)
    requires saved != map[]
    ensures n in saved && Latest(saved) == Some(saved[n]) && forall m | m in saved :: m <= n
  {
    NoKeysNoMap(saved);
    n := Greatest(saved.Keys);
    LatestIs(saved, n);
  }

  /**
    In every reachable state recovery accepts exactly when the remote head is the head of the latest saved
    checkpoint, or both are missing; it then reports exactly the events appended since that checkpoint.
   */
  lemma RecoveryAccepts(s: Setting, steps: seq<Step>)
    requires SettingLaw(s)
    ensures var w := Run(s, steps);
            && (VerifyRecovery(s, w).Some? <==> Settled(w))
            && (Settled(w) ==> VerifyRecovery(s, w).value.uncheckpointed == |w.events| - w.remote.sequence)
  {
    hide Run, SettingLaw, Inv, VerifyRecovery, Settled;
    RunKeeps(s, steps);
    AcceptsIn(s, Run(s, steps));
  }

  lemma AcceptsIn(s: Setting, w: World)
    requires SettingLaw(s) && Inv(s, w)
    ensures VerifyRecovery(s, w).Some? <==> Settled(w)
    ensures Settled(w) ==> VerifyRecovery(s, w).value.uncheckpointed == |w.events| - w.remote.sequence
  {
    hide SettingLaw, Verify, VerifyCheckpoint, Blob, WormOk, Sign;
    VerifyCounts(s.env, w.events, s.writerKeys);
    if w.saved != map[] {
      var n := LatestExists(w.saved);
      var c := w.saved[n];
      assert Genuine(s, w.events, c);
      GenuineVerifies(s, w.events, c);
      SequenceIsPositive(s, w.events, c);
    } else {
      assert Latest(w.saved).None?;
    }
  }

  /**
    In every reachable state, advancing the remote head to an unsaved checkpoint makes recovery refuse until it
    is saved.
   */
  lemma AdvancedButUnsavedIsRefused(s: Setting, steps: seq<Step>, c: Checkpoint)
    requires SettingLaw(s)
    requires var w := Run(s, steps); c in w.stored && w.remote.sequence < c.lastSequence && c.lastSequence !in w.saved
    ensures VerifyRecovery(s, Run(s, steps + [Advanced(c)])).None?
  {
    hide VerifyRecovery, SettingLaw;
    var w := Run(s, steps);
    assert (steps + [Advanced(c)])[..|steps|] == steps;
    RecoveryAccepts(s, steps + [Advanced(c)]);
    var v := Next(s, w, Advanced(c));
    assert v.remote.sequence == c.lastSequence && v.saved == w.saved;
  }

  lemma SequenceIsPositive(s: Setting, events: seq<Event>, c: Checkpoint)
    requires Genuine(s, events, c)
    ensures c.lastSequence > 0
  {
    hide Print, Name, Document, NonZero;
  }

  // ---------- One publish repairs any crash ----------

  lemma DocumentSequence(m: nat, mh: Octets, mb: Octets, mk: Octets, n: nat, nh: Octets, nb: Octets, nk: Octets)
    requires Document(m, mh, mb, mk) == Document(n, nh, nb, nk)
    ensures m == n
  {
    hide Ascii, Integer;
    DocumentNames();
    var a, b := Document(m, mh, mb, mk).members, Document(n, nh, nb, nk).members;
    assert a[Ascii("lastSeq")] == Integer(m) && b[Ascii("lastSeq")] == Integer(n);
    IntegerInjective(m, n);
  }

  lemma DocumentNames()
    ensures |Ascii("schemaVersion")| == 13 && |Ascii("lastSeq")| == 7 && |Ascii("lastEventHash")| == 13
    ensures |Ascii("journalTrialBalanceHash")| == 23 && |Ascii("signingKeyId")| == 12
  {
  }

  /** The texts behind the IDs of these two checkpoints are a SHA-256 collision. */
  predicate IDsCollide(s: Setting, a: Checkpoint, b: Checkpoint) {
    Collide(s.env.sha, ID_TAG + a.document, ID_TAG + b.document)
  }

  /** The ID of `c` collides with that of a checkpoint some publisher signed. */
  predicate Clashes(s: Setting, w: World, c: Checkpoint) {
    exists d | d in w.signed :: IDsCollide(s, c, d)
  }

  /** Checkpoints with the same ID have the same document, hence the same blob and the same sequence. */
  lemma SameIDSameCheckpoint(s: Setting, events: seq<Event>, a: Checkpoint, b: Checkpoint)
    requires Genuine(s, events, a) && Genuine(s, events, b) && a.id == b.id
    ensures IDsCollide(s, a, b) || (Blob(s, a) == Blob(s, b) && a.lastSequence == b.lastSequence)
  {
    hide Print, Name, Document, NonZero, Ascii, OnChain;
    var x, y := s.env.sha(ID_TAG + a.document), s.env.sha(ID_TAG + b.document);
    assert a.id[|Ascii("checkpoint_")|..] == x && b.id[|Ascii("checkpoint_")|..] == y;
    if ID_TAG + a.document == ID_TAG + b.document {
      assert a.document == (ID_TAG + a.document)[|ID_TAG|..] && b.document == (ID_TAG + b.document)[|ID_TAG|..];
      PrintInjective(Document(a.lastSequence, a.lastEventHash, a.trialBalanceHash, a.keyID), 0,
          Document(b.lastSequence, b.lastEventHash, b.trialBalanceHash, b.keyID), 0);
      DocumentSequence(a.lastSequence, a.lastEventHash, a.trialBalanceHash, a.keyID, b.lastSequence, b.lastEventHash,
          b.trialBalanceHash, b.keyID);
    }
  }

  lemma SameRefSameID(a: Octets, b: Octets)
    requires Ref(a) == Ref(b)
    ensures a == b
  {
    hide Ascii;
    var p, q := Ascii("ascp/checkpoints/"), Ascii(".json");
    assert |a| == |Ref(a)| - |p| - |q| && |b| == |Ref(b)| - |p| - |q|;
    assert Ref(a)[|p|..|Ref(a)| - |q|] == a && Ref(b)[|p|..|Ref(b)| - |q|] == b;
  }

  lemma PutWorks(s: Setting, w: World, c: Checkpoint)
    requires Inv(s, w) && Genuine(s, w.events, c)
    ensures Clashes(s, w, c) || CanPut(w.worm, c.wormRef, Blob(s, c))
  {
    hide Verify, Sign, Blob, OnChain, Genuine, Collide, Ref;
    if c.wormRef in w.worm {
      var d :| d in w.signed && d.wormRef == c.wormRef && w.worm[c.wormRef] == Blob(s, d);
      GenuineRef(s, w.events, c);
      GenuineRef(s, w.events, d);
      SameRefSameID(c.id, d.id);
      SameIDSameCheckpoint(s, w.events, c, d);
    }
  }

  lemma GenuineRef(s: Setting, events: seq<Event>, c: Checkpoint)
    requires Genuine(s, events, c)
    ensures c.wormRef == Ref(c.id) && c.trialBalanceHash == s.trialBalance(Head(c.lastSequence, c.lastEventHash))
        && c.keyID == s.keyID
  {
    hide Print, Name, Document, NonZero, OnChain, Ref;
  }

  /** The part of a publish that follows the signature, for a checkpoint of the current head. */
  lemma HeadPublishes(s: Setting, w: World, c: Checkpoint)
    requires Inv(s, w) && c in w.signed && c.lastSequence == |w.events| && CanPut(w.worm, c.wormRef, Blob(s, c))
    ensures var v := Next(s, Next(s, w, Put(c)), Advanced(c));
            && Inv(s, v) && v.remote == HeadOf(w.events) && c in v.advanced && v.events == w.events
                && v.saved == w.saved && v.signed == w.signed
  {
    hide Inv, Blob, Sign;
    NextKeeps(s, w, Put(c));
    NextKeeps(s, Next(s, w, Put(c)), Advanced(c));
    SignedHead(s, w, c);
  }

  lemma SignedHead(s: Setting, w: World, c: Checkpoint)
    requires Inv(s, w) && c in w.signed && c.lastSequence == |w.events|
    ensures Head(c.lastSequence, c.lastEventHash) == HeadOf(w.events) && CanAdvance(w.remote, HeadOf(w.events))
        && |w.events| > 0
  {
    hide Verify, Sign, WormOk;
    assert Genuine(s, w.events, c);
    SequenceIsPositive(s, w.events, c);
  }

  lemma InsertWorks(s: Setting, w: World, c: Checkpoint)
    requires Inv(s, w) && c in w.signed && c.lastSequence == |w.events| && |w.events| !in w.saved
    ensures Clashes(s, w, c) || CanInsert(w, c)
  {
    hide Verify, Sign, WormOk, Collide, Blob, Genuine;
    SignedHead(s, w, c);
    if n :| n in w.saved && w.saved[n].id == c.id {
      assert w.saved[n] in w.signed;
      SameIDSameCheckpoint(s, w.events, c, w.saved[n]);
    }
  }

  /** A new checkpoint of the head: sign, put, advance, save. */
  lemma FreshPublish(s: Setting, w: World, at: int)
    requires Inv(s, w) && |w.events| !in w.saved && Sign(s, HeadOf(w.events), at).Some?
    requires !Clashes(s, w, Sign(s, HeadOf(w.events), at).value)
    ensures Inv(s, Publish(s, w, at)) && Settled(Publish(s, w, at))
    ensures Publish(s, w, at).remote == HeadOf(w.events) && Publish(s, w, at).events == w.events
  {
    hide Inv, Blob, Sign, Verify, Clashes, CanPut, CanInsert;
    assert w.events[..|w.events|] == w.events;
    var c := Sign(s, HeadOf(w.events), at).value;
    SignedIsGenuine(s, w.events, |w.events|, at);
    SignedShape(s, HeadOf(w.events), at);
    var w1 := Next(s, w, Signed(|w.events|, at));
    NextKeeps(s, w, Signed(|w.events|, at));
    NoNewClash(s, w, w1, c);
    PutWorks(s, w1, c);
    HeadPublishes(s, w1, c);
    var w3 := Next(s, Next(s, w1, Put(c)), Advanced(c));
    NoNewClash(s, w, w3, c);
    InsertWorks(s, w3, c);
    NextKeeps(s, w3, Saved(c));
    SavedAreBelow(s, w);
    assert Publish(s, w, at) == Next(s, w3, Saved(c));
  }

  lemma NoNewClash(s: Setting, w: World, v: World, c: Checkpoint)
    requires !Clashes(s, w, c) && v.signed == w.signed + {c}
    ensures !Clashes(s, v, c)
  {
  }

  lemma SignedShape(s: Setting, head: Head, at: int)
    requires Sign(s, head, at).Some?
    ensures Sign(s, head, at).value.lastSequence == head.sequence > 0
  {
    hide Print, Name, Document, NonZero;
  }

  lemma SavedAreBelow(s: Setting, w: World)
    requires Inv(s, w)
    ensures forall m | m in w.saved :: m <= |w.events|
  {
    hide Inv, InWorm;
    forall m | m in w.saved ensures m <= |w.events| { BackedIn(s, w, m); }
  }

  /** The head is checkpointed already: put and advance again. */
  lemma RepeatedPublish(s: Setting, w: World, at: int)
    requires SettingLaw(s) && Inv(s, w) && |w.events| in w.saved
    ensures Inv(s, Publish(s, w, at)) && Settled(Publish(s, w, at)) && Publish(s, w, at).remote == HeadOf(w.events)
        && Publish(s, w, at).events == w.events
  {
    hide Inv, Blob, Sign, Verify, SettingLaw, VerifyCheckpoint, Genuine;
    var c := w.saved[|w.events|];
    SavedIsSigned(s, w);
    SignedHead(s, w, c);
    GenuineVerifies(s, w.events, c);
    GenuineRef(s, w.events, c);
    HeadPublishes(s, w, c);
    SavedAreBelow(s, w);
  }

  lemma SavedIsSigned(s: Setting, w: World)
    requires Inv(s, w) && |w.events| in w.saved
    ensures var c := w.saved[|w.events|];
            c in w.signed && c.lastSequence == |w.events| && Genuine(s, w.events, c)
                && CanPut(w.worm, c.wormRef, Blob(s, c))
  {
    hide Verify, Sign, WormOk, Blob, Genuine;
  }

  /**
    Convergence: from any reachable state, whatever crashed before, one uninterrupted publish makes
    recovery accept with nothing uncheckpointed, and after k further appends it reports exactly k events.
    The head must be one that can be signed. The only other outcome: the head has no checkpoint yet, and the
    ID text of its new one collides under SHA-256 with that of a checkpoint signed before.
   */
  lemma OnePublishConverges(s: Setting, steps: seq<Step>, at: int, more: seq<Event>)
    requires SettingLaw(s) && Sign(s, HeadOf(Run(s, steps).events), at).Some?
    requires Verify(s.env, Run(s, steps).events + more, s.writerKeys).Some?
    ensures var w := Run(s, steps);
            var v := Publish(s, w, at);
            var r := VerifyRecovery(s, v.(events := v.events + more));
            || (|w.events| !in w.saved && Clashes(s, w, Sign(s, HeadOf(w.events), at).value))
            || (r.Some? && r.value.uncheckpointed == |more| && (r.value.externallyCheckpointed <==> more == []))
  {
    hide Run, Inv, Sign, Clashes, Publish, SettingLaw, Verify, VerifyRecovery, Settled;
    RunKeeps(s, steps);
    var w := Run(s, steps);
    SignedShape(s, HeadOf(w.events), at);
    if |w.events| in w.saved {
      RepeatedPublish(s, w, at);
    } else if Clashes(s, w, Sign(s, HeadOf(w.events), at).value) {
      return;
    } else {
      FreshPublish(s, w, at);
    }
    AppendsReported(s, Publish(s, w, at), more);
  }

  lemma AppendsReported(s: Setting, w: World, more: seq<Event>)
    requires SettingLaw(s) && Inv(s, w) && Settled(w) && w.remote == HeadOf(w.events) && |w.events| > 0
        && Verify(s.env, w.events + more, s.writerKeys).Some?
    ensures var later := w.(events := w.events + more);
            && VerifyRecovery(s, later).Some? && VerifyRecovery(s, later).value.uncheckpointed == |more|
            && (VerifyRecovery(s, later).value.externallyCheckpointed <==> more == [])
  {
    hide Inv, SettingLaw, Sign, Verify, VerifyCheckpoint, Blob;
    var later := w.(events := w.events + more);
    ExtendedKeeps(s, w, more);
    AcceptsIn(s, later);
    VerifyCounts(s.env, later.events, s.writerKeys);
    if w.saved != map[] { var n := LatestExists(w.saved); }
  }

  lemma ExtendedKeeps(s: Setting, w: World, more: seq<Event>)
    requires Inv(s, w) && Verify(s.env, w.events + more, s.writerKeys).Some?
    ensures Inv(s, w.(events := w.events + more))
  {
    hide Verify, Sign, Blob, OnChain;
    OnChainGrows(w.events, more, w.remote);
    forall c | c in w.signed ensures Genuine(s, w.events + more, c) {
      assert Genuine(s, w.events, c);
      OnChainGrows(w.events, more, Head(c.lastSequence, c.lastEventHash));
    }
  }

  /**
    Such states are reached from everywhere: whenever there are events beyond the remote head, a publisher that
    stops between advancing the remote head and saving leaves a state recovery refuses.
   */
  lemma CrashBeforeSaveIsRefused(s: Setting, steps: seq<Step>, at: int)
    requires SettingLaw(s)
    requires var w := Run(s, steps);
             && w.remote.sequence < |w.events| && Sign(s, HeadOf(w.events), at).Some?
             && !Clashes(s, w, Sign(s, HeadOf(w.events), at).value)
    ensures var w := Run(s, steps);
            var c := Sign(s, HeadOf(w.events), at).value;
            VerifyRecovery(s, Run(s, steps + [Signed(|w.events|, at), Put(c), Advanced(c)])).None?
  {
    hide Sign, VerifyRecovery, SettingLaw, Clashes, Inv, Blob, CanPut;
    var w := Run(s, steps);
    var c := Sign(s, HeadOf(w.events), at).value;
    RunKeeps(s, steps);
    SavedAreUpToRemote(s, w);
    SignedShape(s, HeadOf(w.events), at);
    assert w.events[..|w.events|] == w.events;
    var signed := steps + [Signed(|w.events|, at)];
    assert signed[..|steps|] == steps;
    var w1 := Run(s, signed);
    assert w1 == w.(signed := w.signed + {c});
    RunKeeps(s, signed);
    SignedIsGenuine(s, w.events, |w.events|, at);
    NoNewClash(s, w, w1, c);
    PutWorks(s, w1, c);
    var put := signed + [Put(c)];
    assert put[..|signed|] == signed;
    AdvancedButUnsavedIsRefused(s, put, c);
    assert put + [Advanced(c)] == steps + [Signed(|w.events|, at), Put(c), Advanced(c)];
  }

  lemma SavedAreUpToRemote(s: Setting, w: World)
    requires Inv(s, w)
    ensures forall m | m in w.saved :: m <= w.remote.sequence
  {
    hide Inv, InWorm;
    forall m | m in w.saved ensures m <= w.remote.sequence { BackedIn(s, w, m); }
  }

  // ---------- What recovery detects ----------

  /** The row with the largest sequence, stored under its own sequence. */
  predicate IsLatest(saved: map<nat, Checkpoint>, n: nat) {
    n in saved && (forall m | m in saved :: m <= n) && saved[n].lastSequence == n
  }

  /** The checkpoint verifies, has its exact bytes in the write-once store and is the remote head. */
  ghost predicate Backs(s: Setting, w: World, c: Checkpoint) {
    InWorm(s, w.worm, c) && VerifyCheckpoint(s, c) && w.remote == Head(c.lastSequence, c.lastEventHash)
  }

  /** A table cut off below the remote head, or below its own checkpoint, is refused. */
  lemma RecoveryDetectsTruncation(s: Setting, w: World)
    requires |w.events| < w.remote.sequence
    ensures VerifyRecovery(s, w).None?
  {
    hide VerifyCheckpoint, InWorm, Latest, VerifyEvent;
    if Verify(s.env, w.events, s.writerKeys).Some? { VerifyCounts(s.env, w.events, s.writerKeys); }
  }

  /**
    Recovery never accepts a checkpoint whose stored bytes differ, whose signature fails or whose head is not
    the remote one.
   */
  lemma RecoveryDetectsForgery(s: Setting, w: World, n: nat)
    requires IsLatest(w.saved, n) && !Backs(s, w, w.saved[n])
    ensures VerifyRecovery(s, w).None?
  {
    hide VerifyCheckpoint, InWorm, Verify;
    LatestIs(w.saved, n);
  }

  lemma AcceptedIsBacked(s: Setting, w: World)
    requires VerifyRecovery(s, w).Some?
    ensures w.remote.sequence <= |w.events| && forall n | IsLatest(w.saved, n) :: Backs(s, w, w.saved[n])
  {
    hide VerifyRecovery, IsLatest, Backs;
    if |w.events| < w.remote.sequence { RecoveryDetectsTruncation(s, w); }
    forall n | IsLatest(w.saved, n) ensures n in w.saved && Backs(s, w, w.saved[n]) {
      LatestIsSaved(w.saved, n);
      if !Backs(s, w, w.saved[n]) { RecoveryDetectsForgery(s, w, n); }
    }
  }

  lemma LatestIsSaved(saved: map<nat, Checkpoint>, n: nat)
    requires IsLatest(saved, n)
    ensures n in saved
  {
  }

  /**
    Whatever happened to the event table, checkpoints and objects, recovery accepts only tables that contain,
    event for event, the history the remote head was advanced over, and whose latest checkpoint verifies, has its
    bytes in the write-once store and is the remote head; or the hash inputs of a tampered event and of the real
    event at its position are a SHA-256 collision.
   */
  lemma RecoveryDetectsRewrites(s: Setting, steps: seq<Step>, tampered: World)
    requires tampered.remote == Run(s, steps).remote && VerifyRecovery(s, tampered).Some?
    ensures var w := Run(s, steps);
            && w.remote.sequence <= |tampered.events| && w.remote.sequence <= |w.events|
            && (|| (forall i | 0 <= i < w.remote.sequence :: SameEvent(s.env, tampered.events[i], w.events[i]))
                || (exists i | 0 <= i < w.remote.sequence :: EventsCollide(s.env, tampered.events[i], w.events[i])))
    ensures forall n | IsLatest(tampered.saved, n) :: Backs(s, tampered, tampered.saved[n])
  {
    hide Run, Verify, Sign, VerifyCheckpoint, EventsCollide, SameEvent, WormOk, Genuine, InWorm, Latest, IsLatest,
        Backs;
    AcceptedIsBacked(s, tampered);
    RunKeeps(s, steps);
    var w := Run(s, steps);
    var n := w.remote.sequence;
    VerifyCounts(s.env, tampered.events, s.writerKeys);
    if n > 0 {
      VerifyPrefix(s.env, w.events, s.writerKeys, n);
      VerifyPrefix(s.env, tampered.events, s.writerKeys, n);
      var a, b := tampered.events[..n], w.events[..n];
      assert a[|a| - 1] == tampered.events[n - 1] && b[|b| - 1] == w.events[n - 1];
      HeadDeterminesHistory(s.env, a, b, s.writerKeys);
      assert forall i | 0 <= i < n :: a[i] == tampered.events[i] && b[i] == w.events[i];
      if i: nat :| CollideAt(s.env, a, b, i) { assert EventsCollide(s.env, tampered.events[i], w.events[i]); }
    }
  }
}
