/** Publisher.publish: three stores written in order, each failure ending the call where it is. */
module Publishers {
  import opened Text
  import opened CanonicalJson
  import opened EventChain
  import opened Checkpoints
  import opened CheckpointSafety
  import EventStores

  method SignCheckpoint(s: Setting, head: Head, at: int) returns (r: Option<Checkpoint>)
    ensures r == Sign(s, head, at)
  {
    hide Print, Name, Document, NonZero;
    var balance := s.trialBalance(head);
    var document := EventStores.Canonical(Document(head.sequence, head.eventHash, balance, s.keyID));
    if head.sequence == 0 || !NonZero(head.eventHash) || !NonZero(balance) || !Name(s.keyID, 8, 128) || at <= 0
        || document.None? { return None; }
    var id := CheckpointID(s.env, document.value);
    return Some(Checkpoint(id, head.sequence, head.eventHash, balance, at, s.keyID, document.value,
                           s.sign(s.env.sha(DIGEST_TAG + document.value)), Ref(id)));
  }

  method CheckCheckpoint(s: Setting, c: Checkpoint) returns (ok: bool)
    ensures ok == VerifyCheckpoint(s, c)
  {
    hide Print, Name, Document, NonZero;
    if !Name(c.id, 8, 200) || c.lastSequence == 0 || !NonZero(c.lastEventHash) || !NonZero(c.trialBalanceHash)
        || c.createdAt <= 0
       || !Name(c.keyID, 8, 128) || |c.signature| != 64 || !Name(c.wormRef, 8, 300) { return false; }
    var want := EventStores.Canonical(Document(c.lastSequence, c.lastEventHash, c.trialBalanceHash, c.keyID));
    if want != Some(c.document) || c.id != CheckpointID(s.env, c.document) || c.wormRef != Ref(c.id)
        || c.keyID != s.keyID { return false; }
    return s.checks(s.env.sha(DIGEST_TAG + c.document), c.signature);
  }

  /** The table holds this checkpoint under its ID, made at this time or another. */
  predicate Present(saved: map<nat, Checkpoint>, c: Checkpoint) {
    exists n | n in saved :: saved[n].id == c.id && SameCheckpoint(saved[n], c)
  }

  /** The head of the chain has a saved checkpoint and is the remote head. */
  predicate Published(w: World) {
    |w.events| in w.saved && w.remote == HeadOf(w.events)
  }

  class Publisher {
    const s: Setting
    var events: seq<Event>
    var saved: map<nat, Checkpoint>
    var worm: map<Octets, Octets>
    var remote: Head
    ghost var signed: set<Checkpoint>
    ghost var stored: set<Checkpoint>
    ghost var advanced: set<Checkpoint>

    ghost function Value(): World
      reads this
    {
      World(events, saved, worm, remote, signed, stored, advanced)
    }

    constructor (s: Setting)
      ensures this.s == s && Value() == Initial()
    {
      this.s, events, saved, worm, remote := s, [], map[], map[], Head(0, ZERO_HASH);
      signed, stored, advanced := {}, {}, {};
    }

    /** ORDER BY last_sequence DESC LIMIT 1. */
    method LatestCheckpoint() returns (r: Option<Checkpoint>)
      requires forall n | n in saved :: saved[n].lastSequence == n
      ensures r.None? <==> saved == map[]
      ensures r.Some? ==> r.value.lastSequence in saved && r.value == saved[r.value.lastSequence] && forall n
          | n in saved :: n <= r.value.lastSequence
    {
      var left := saved.Keys;
      r := None;
      NoKeysNoMap(saved);
      while left != {}
        invariant left <= saved.Keys && (r.None? ==> left == saved.Keys)
        invariant r.Some? ==> r.value.lastSequence in saved && r.value == saved[r.value.lastSequence]
        invariant r.Some? ==> forall n | n in saved && n !in left :: n <= r.value.lastSequence
        decreases |left|
      {
        var n :| n in left;
        left := left - {n};
        if r.None? || r.value.lastSequence < n { r := Some(saved[n]); }
      }
    }

    method PutBlob(c: Checkpoint) returns (ok: bool)
      requires c in signed
      modifies this`worm, this`stored
      ensures Value() == Next(s, old(Value()), Put(c)) && (ok ==> c in stored)
      ensures ok <==> CanPut(old(worm), c.wormRef, Blob(s, c))
    {
      ok := c.wormRef !in worm || worm[c.wormRef] == Blob(s, c);
      if ok {
        worm := worm[c.wormRef := Blob(s, c)];
        stored := stored + {c};
      }
    }

    method AdvanceRemote(c: Checkpoint) returns (ok: bool)
      requires c in stored
      modifies this`remote, this`advanced
      ensures Value() == Next(s, old(Value()), Advanced(c))
          && (ok ==> c in advanced && remote == Head(c.lastSequence, c.lastEventHash))
      ensures ok <==> CanAdvance(old(remote), Head(c.lastSequence, c.lastEventHash))
    {
      var head := Head(c.lastSequence, c.lastEventHash);
      ok := remote == head || remote.sequence < head.sequence;
      if ok {
        remote := head;
        advanced := advanced + {c};
      }
    }

    method SaveCheckpoint(c: Checkpoint) returns (ok: bool)
      requires c in advanced && UniqueIDs(saved)
      modifies this`saved
      ensures Value() == Next(s, old(Value()), Saved(c))
      ensures ok <==> CanInsert(old(Value()), c) || Present(old(saved), c)
      ensures saved == if CanInsert(old(Value()), c) then old(saved)[c.lastSequence := c] else old(saved)
    {
      if n :| n in saved && saved[n].id == c.id { return SameCheckpoint(saved[n], c); }
      ok := c.lastSequence !in saved && 0 < c.lastSequence <= |events|
          && events[c.lastSequence - 1].eventHash == c.lastEventHash;
      if ok { saved := saved[c.lastSequence := c]; }
    }

    /**
      Exactly the atomic steps of an uninterrupted publish, in order; it succeeds exactly when the head ends up
      published.
     */
    method Publish(at: int) returns (r: Option<Checkpoint>)
      requires SettingLaw(s) && Inv(s, Value())
      modifies this
      ensures Value() == Checkpoints.Publish(s, old(Value()), at)
      ensures r.Some? <==> Published(Value())
      ensures r.Some? ==> saved[|events|] == r.value
    {
      hide Inv, Sign, Blob, VerifyCheckpoint, Next, SettingLaw;
      SavedFacts(s, Value());
      r := None;
      var n := |events|;
      var latest := LatestCheckpoint();
      if latest.Some? && latest.value.lastSequence == n {
        r := PublishAgain(latest.value);
      } else if latest.None? || latest.value.lastSequence < n {
        r := SignCheckpoint(s, HeadOf(events), at);
        if r.Some? { r := PublishNew(r.value, at); }
      }
    }

    /** The head has a checkpoint: compare it, then put and advance again. */
    method PublishAgain(c: Checkpoint) returns (r: Option<Checkpoint>)
      requires SettingLaw(s) && Inv(s, Value()) && |events| in saved && saved[|events|] == c
      modifies this
      ensures forall at :: Value() == Checkpoints.Publish(s, old(Value()), at)
      ensures r == Some(c) && Published(Value()) && saved[|events|] == c
    {
      hide Inv, Sign, Blob, VerifyCheckpoint, Next, SettingLaw, Genuine;
      r := None;
      SavedFacts(s, Value());
      SavedIsSigned(s, Value());
      SignedHead(s, Value(), c);
      GenuineVerifies(s, events, c);
      GenuineRef(s, events, c);
      var genuine := CheckCheckpoint(s, c);
      if c.lastEventHash != HeadHash(events) || c.trialBalanceHash != s.trialBalance(HeadOf(events))
          || c.keyID != s.keyID || !genuine { return None; }
      RefusedPutStops(s, Value(), c);
      var put := PutBlob(c);
      if put {
        var moved := AdvanceRemote(c);
        r := if moved then Some(c) else None;
      }
    }

    /** The new checkpoint goes to the write-once store, then to the remote head, then to the table. */
    method PublishNew(c: Checkpoint, at: int) returns (r: Option<Checkpoint>)
      requires Inv(s, Value()) && |events| !in saved && Sign(s, HeadOf(events), at) == Some(c)
      modifies this
      ensures Value() == Checkpoints.Publish(s, old(Value()), at)
      ensures r.Some? <==> Published(Value())
      ensures r.Some? ==> saved[|events|] == r.value
    {
      hide Inv, Sign, Blob, Next;
      r := None;
      SignedEffect(s, Value(), at);
      signed := signed + {c};
      RefusedPutStops(s, Value(), c);
      NextKeeps(s, Value(), Put(c));
      var put := PutBlob(c);
      if put {
        HeadAdvances(s, Value(), c);
        NextKeeps(s, Value(), Advanced(c));
        var moved := AdvanceRemote(c);
        if moved {
          SavedFacts(s, Value());
          NotPresent(saved, c);
          var ok := SaveCheckpoint(c);
          r := if ok then Some(c) else None;
        }
      }
    }
  }

  lemma NotPresent(saved: map<nat, Checkpoint>, c: Checkpoint)
    requires c.lastSequence !in saved && forall n | n in saved :: saved[n].lastSequence == n
    ensures !Present(saved, c)
  {
    forall n | n in saved ensures !SameCheckpoint(saved[n], c) { assert saved[n].(createdAt := 0).lastSequence == n; }
  }

  lemma SavedFacts(s: Setting, w: World)
    requires Inv(s, w)
    ensures forall n | n in w.saved :: w.saved[n].lastSequence == n && w.saved[n] in w.signed
    ensures UniqueIDs(w.saved) && forall n | n in w.saved :: 0 < n <= |w.events|
  {
    SavedAreBelow(s, w);
    forall n | n in w.saved ensures 0 < n { BackedIn(s, w, n); }
  }

  /** After a refused put the later steps of a publish do nothing. */
  lemma RefusedPutStops(s: Setting, w: World, c: Checkpoint)
    requires Inv(s, w)
    ensures !CanPut(w.worm, c.wormRef, Blob(s, c)) ==>
              Next(s, w, Put(c)) == w && Next(s, w, Advanced(c)) == w && Next(s, w, Saved(c)) == w
  {
    hide Sign, Blob, Verify, Genuine, WormOk;
  }

  lemma SignedEffect(s: Setting, w: World, at: int)
    requires Inv(s, w) && |w.events| !in w.saved && Sign(s, HeadOf(w.events), at).Some?
    ensures Next(s, w, Signed(|w.events|, at)) == w.(signed := w.signed + {Sign(s, HeadOf(w.events), at).value})
    ensures Inv(s, w.(signed := w.signed + {Sign(s, HeadOf(w.events), at).value}))
    ensures Sign(s, HeadOf(w.events), at).value.lastSequence == |w.events|
  {
    hide Inv, Sign, Verify;
    assert w.events[..|w.events|] == w.events;
    NextKeeps(s, w, Signed(|w.events|, at));
    SignedShape(s, HeadOf(w.events), at);
  }

  lemma HeadAdvances(s: Setting, w: World, c: Checkpoint)
    requires Inv(s, w) && c in w.stored && c.lastSequence == |w.events|
    ensures CanAdvance(w.remote, Head(c.lastSequence, c.lastEventHash))
        && Head(c.lastSequence, c.lastEventHash) == HeadOf(w.events)
  {
    hide Sign, Blob, Verify, Genuine, WormOk;
    SignedHead(s, w, c);
  }
}
