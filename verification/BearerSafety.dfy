/** The invariant of the activation protocol, step by step, and the safety theorems it gives over every run. */
module BearerSafety {
  import opened Text
  import opened ActivationTables
  import opened ActivationInvariants
  import opened BearerProtocol
  import L = SignerLedger
  import R = SignerRuns

  // ---------- Table transactions ----------

  /** What a committed transaction may do to one row, given what the other parties have answered so far. */
  predicate RowDelta(s: Setting, w: World, id: string, r': Request) {
    if id in w.db.requests then
      var r := w.db.requests[id];
      && (r'.handle != r.handle ==> OwnHandle(w.signer, id, r'.handle))
      && (Mirrored(r'.state) && !Mirrored(r.state) ==> MirrorKey(r'.input.digest) in w.mirror)
      && (r'.state == ActivationAcknowledged && r.state != ActivationAcknowledged ==>
            r'.handle in w.signer.byID && L.Activated(w.signer.byID[r'.handle].handle.state))
      && (s.cfg.leasesRequired && ActiveState(r'.state) && !ActiveState(r.state)
          ==> !Doomed(w.db, w.granted, w.clock, id))
      && (r'.lease == None || r'.lease == r.lease
          || (r'.lease.value.token in w.granted && w.granted[r'.lease.value.token] == w.clock))
    else r'.handle == "" && !ActiveState(r'.state) && r'.lease == None
  }

  lemma DoomedStays(s: Setting, w: World, db: Tables, id: string)
    requires s.cfg.leasesRequired && Doomed(w.db, w.granted, w.clock, id) && Forward(w.db, db) && id in db.requests
        && RowDelta(s, w, id, db.requests[id])
    ensures Doomed(db, w.granted, w.clock, id)
  {
  }

  lemma RecordStays(s: Setting, w: World, db: Tables, r: L.SignerRecord)
    requires RecordBacked(s, w, r) && Forward(w.db, db)
    requires forall id | id in db.requests :: RowDelta(s, w, id, db.requests[id])
    ensures RecordBacked(s, w.(db := db), r)
  {
    hide RowDelta, Doomed;
    var id := r.handle.binding.requestID;
    assert Progress(w.db.requests[id], db.requests[id]);
    if s.cfg.leasesRequired && r.handle.state == L.Expired {
      DoomedStays(s, w, db, id);
    }
  }

  lemma RowStays(s: Setting, w: World, db: Tables, id: string)
    requires id in w.db.requests ==> RowBacked(w, id)
    requires Forward(w.db, db) && id in db.requests && RowDelta(s, w, id, db.requests[id])
    ensures RowBacked(w.(db := db), id)
  {
    hide Doomed, MirrorKey;
  }

  lemma RememberedStays(t: Tables, u: Tables, r: Request)
    requires Remembered(t, r) && Forward(t, u)
    ensures Remembered(u, r)
  {
    var now', later := t.requests[r.input.requestID], u.requests[r.input.requestID];
    assert Progress(r, now') && Progress(now', later);
  }

  lemma MessagesStay(s: Setting, w: World, db: Tables)
    requires MessagesBacked(s, w) && Forward(w.db, db)
    requires forall id | id in db.requests :: RowDelta(s, w, id, db.requests[id])
    ensures MessagesBacked(s, w.(db := db))
  {
    hide RowDelta, Doomed, MirrorKey, OwnHandle, Progress, Remembered, ReservationMoves;
    var w' := w.(db := db);
    forall r | r in w.snapshots ensures Remembered(db, r) { RememberedStays(w.db, db, r); }
    forall r | r in w.expiredClaims ensures Remembered(db, r) && (s.cfg.leasesRequired ==>
        Doomed(db, w.granted, w.clock, r.input.requestID)) {
      RememberedStays(w.db, db, r);
      RememberedRow(db, r);
      if s.cfg.leasesRequired { DoomedStays(s, w, db, r.input.requestID); }
    }
    forall m | m in w.stored ensures m.0 in db.requests && MirrorKey(db.requests[m.0].input.digest) in w.mirror {
      StoredStays(w.db, db, m.0);
    }
    forall p | p in w.proofs ensures ProofBacked(s, w', p) {
      if s.cfg.leasesRequired {
        DoomedRow(w, p.requestID);
        DoomedStays(s, w, db, p.requestID);
      }
    }
  }

  lemma RememberedRow(db: Tables, r: Request)
    requires Remembered(db, r)
    ensures r.input.requestID in db.requests
  {
  }

  lemma DoomedRow(w: World, id: string)
    requires Doomed(w.db, w.granted, w.clock, id)
    ensures id in w.db.requests
  {
  }

  lemma StoredStays(t: Tables, u: Tables, id: string)
    requires Forward(t, u) && id in t.requests
    ensures id in u.requests && u.requests[id].input == t.requests[id].input
  {
    assert Progress(t.requests[id], u.requests[id]);
  }

  lemma MirrorStays(s: Setting, w: World, db: Tables)
    requires MirrorBacked(s, w) && Forward(w.db, db)
    ensures MirrorBacked(s, w.(db := db))
  {
    hide MirrorKey, Progress, ReservationMoves;
  }

  lemma TablesKeep(s: Setting, w: World, db: Tables)
    requires Inv(s, w) && Consistent(s.cfg, db) && Forward(w.db, db)
    requires forall id | id in db.requests :: RowDelta(s, w, id, db.requests[id])
    ensures Inv(s, w.(db := db))
  {
    hide Consistent, L.Indexed, RowBacked, RecordBacked, MirrorBacked, MessagesBacked, Forward, RowDelta;
    var w' := w.(db := db);
    forall id | id in db.requests ensures RowBacked(w', id) { RowStays(s, w, db, id); }
    forall h | h in w.signer.byID ensures RecordBacked(s, w',
        w.signer.byID[h]) { RecordStays(s, w, db, w.signer.byID[h]); }
    MirrorStays(s, w, db);
    MessagesStay(s, w, db);
  }

  /** For a transaction that changes one row it is enough to look at that row. */
  lemma OneRowTablesKeep(s: Setting, w: World, db: Tables, id: string)
    requires Inv(s, w) && Consistent(s.cfg, db) && Forward(w.db, db)
    requires id in db.requests && db.requests == w.db.requests[id := db.requests[id]]
        && RowDelta(s, w, id, db.requests[id])
    ensures Inv(s, w.(db := db))
  {
    hide Inv, Consistent, Forward;
    forall o | o in db.requests ensures RowDelta(s, w, o, db.requests[o]) {
      if o != id {
        assert db.requests[o] == w.db.requests[o];
      }
    }
    TablesKeep(s, w, db);
  }

  lemma RequestedKeeps(s: Setting, w: World, step: Step)
    requires Inv(s, w) && step.Requested?
    ensures Inv(s, Next(s, w, step))
  {
    hide Inv, Consistent, Forward, ValidInput, Doomed, MirrorKey, AuthorizesSigning;
    InvTables(s, w);
    CreateKeeps(s.cfg, w.db, step.input, step.now, step.signerBound);
    var db := Create(s.cfg, w.db, step.input, step.now, step.signerBound).0;
    if db != w.db {
      OneRowTablesKeep(s, w, db, step.input.requestID);
    }
  }

  lemma InvTables(s: Setting, w: World)
    requires Inv(s, w)
    ensures Consistent(s.cfg, w.db)
  {
    hide Consistent, L.Indexed, RowBacked, RecordBacked, MirrorBacked, MessagesBacked;
  }

  lemma PreparedIsBacked(s: Setting, w: World, m: (string, string))
    requires Inv(s, w) && m in w.prepared
    ensures OwnHandle(w.signer, m.0, m.1)
  {
    hide Consistent, L.Indexed, RowBacked, RecordBacked, MirrorBacked;
  }

  lemma StoredIsBacked(s: Setting, w: World, m: (string, string))
    requires Inv(s, w) && m in w.stored
    ensures m.0 in w.db.requests && MirrorKey(w.db.requests[m.0].input.digest) in w.mirror
  {
    hide Consistent, L.Indexed, RowBacked, RecordBacked, MirrorBacked;
  }

  lemma AcknowledgedIsBacked(s: Setting, w: World, m: (string, string))
    requires Inv(s, w) && m in w.acknowledged
    ensures OwnHandle(w.signer, m.0, m.1) && L.Activated(w.signer.byID[m.1].handle.state)
  {
    hide Consistent, L.Indexed, RowBacked, RecordBacked, MirrorBacked;
  }

  lemma ProofIsBacked(s: Setting, w: World, p: L.UnactivatedProof)
    requires Inv(s, w) && p in w.proofs
    ensures ProofBacked(s, w, p)
  {
    hide Consistent, L.Indexed, RowBacked, RecordBacked, MirrorBacked;
  }

  lemma AuthorizedKeeps(s: Setting, w: World, step: Step)
    requires Inv(s, w) && step.Authorized?
    ensures Inv(s, Next(s, w, step))
  {
    hide Inv, Consistent, Forward, Doomed, MirrorKey;
    InvTables(s, w);
    AuthorizeKeeps(s.cfg, w.db, step.authorizationID, step.authorization, step.expiresAt);
    TablesKeep(s, w, Authorize(w.db, step.authorizationID, step.authorization, step.expiresAt));
  }

  lemma ReturnedKeeps(s: Setting, w: World, step: Step)
    requires Inv(s, w) && step.Returned?
    ensures Inv(s, Next(s, w, step))
  {
    hide Inv, Consistent, Forward, Doomed, MirrorKey;
    InvTables(s, w);
    ReturnLeaseKeeps(s.cfg, w.db, step.held, step.next);
    var db := ReturnLease(w.db, step.held, step.next).0;
    if db != w.db {
      OneRowTablesKeep(s, w, db, step.held.requestID);
    }
  }

  lemma RecordsPreparedKeeps(s: Setting, w: World, step: Step)
    requires Inv(s, w) && step.RecordsPrepared?
    ensures Inv(s, Next(s, w, step))
  {
    hide Inv, Consistent, Forward, Doomed, MirrorKey, LeaseHolds, Hash, OpaqueHandle, OwnHandle;
    InvTables(s, w);
    RecordPreparedKeeps(s.cfg, w.db, Some(step.held), step.id, step.handle, step.now);
    var db := RecordPrepared(s.cfg, w.db, Some(step.held), step.id, step.handle, step.now).0;
    if (step.id, step.handle) in w.prepared && db != w.db {
      PreparedIsBacked(s, w, (step.id, step.handle));
      OneRowTablesKeep(s, w, db, step.id);
    }
  }

  /** Whoever may still write to a doomed row reads a clock past the end of its window, so activation is refused. */
  lemma ActivationIsNotDoomed(s: Setting, w: World, held: Held, id: string, now: Clock, committed: bool)
    requires s.cfg.leasesRequired && Timely(s, w, held, now) && Doomed(w.db, w.granted, w.clock, id)
    ensures Activate(s.cfg, w.db, Some(held), id, now, committed).0 == w.db
  {
    hide Hash, Identifier, EntryIsUnique;
  }

  lemma ActivatesKeeps(s: Setting, w: World, step: Step)
    requires Inv(s, w) && step.Activates?
    ensures Inv(s, Next(s, w, step))
  {
    hide Inv, Consistent, Forward, Doomed, MirrorKey, LeaseHolds, Hash, EntryIsUnique, OwnHandle;
    InvTables(s, w);
    ActivateKeeps(s.cfg, w.db, Some(step.held), step.id, step.now, step.committed);
    var db := Activate(s.cfg, w.db, Some(step.held), step.id, step.now, step.committed).0;
    if Timely(s, w, step.held, step.now) && db != w.db {
      if s.cfg.leasesRequired && Doomed(w.db, w.granted, w.clock, step.id) {
        ActivationIsNotDoomed(s, w, step.held, step.id, step.now, step.committed);
      } else {
        OneRowTablesKeep(s, w, db, step.id);
      }
    }
  }

  lemma RecordsMirroredKeeps(s: Setting, w: World, step: Step)
    requires Inv(s, w) && step.RecordsMirrored?
    ensures Inv(s, Next(s, w, step))
  {
    hide Inv, Consistent, Forward, Doomed, MirrorKey, LeaseHolds, Hash, MirrorDigest, OwnHandle;
    InvTables(s, w);
    MarkPrimaryMirroredKeeps(s.cfg, w.db, Some(step.held), step.id, step.digest, step.now);
    var db := MarkPrimaryMirrored(s.cfg, w.db, Some(step.held), step.id, step.digest, step.now).0;
    if (step.id, step.digest) in w.stored && db != w.db {
      StoredIsBacked(s, w, (step.id, step.digest));
      OneRowTablesKeep(s, w, db, step.id);
    }
  }

  lemma RecordsAcknowledgedKeeps(s: Setting, w: World, step: Step)
    requires Inv(s, w) && step.RecordsAcknowledged?
    ensures Inv(s, Next(s, w, step))
  {
    hide Inv, Consistent, Forward, Doomed, MirrorKey, LeaseHolds, Hash, OpaqueHandle;
    InvTables(s, w);
    MarkAcknowledgedKeeps(s.cfg, w.db, Some(step.held), step.id, step.handle, step.now);
    var db := MarkAcknowledged(s.cfg, w.db, Some(step.held), step.id, step.handle, step.now).0;
    if (step.id, step.handle) in w.acknowledged && db != w.db {
      AcknowledgedIsBacked(s, w, (step.id, step.handle));
      OneRowTablesKeep(s, w, db, step.id);
    }
  }

  lemma RefusesKeeps(s: Setting, w: World, step: Step)
    requires Inv(s, w) && step.Refuses?
    ensures Inv(s, Next(s, w, step))
  {
    hide Inv, Consistent, Forward, Doomed, MirrorKey, LeaseHolds, OwnHandle;
    InvTables(s, w);
    RefuseKeeps(s.cfg, w.db, Some(step.held), step.id, step.now);
    var db := Refuse(s.cfg, w.db, Some(step.held), step.id, step.now).0;
    if db != w.db {
      OneRowTablesKeep(s, w, db, step.id);
    }
  }

  lemma ExpiresKeeps(s: Setting, w: World, step: Step)
    requires Inv(s, w) && step.Expires?
    ensures Inv(s, Next(s, w, step))
  {
    hide Inv, Consistent, Forward, Doomed, MirrorKey, LeaseHolds, OpaqueHandle, CancelPending;
    InvTables(s, w);
    ExpireUnactivatedKeeps(s.cfg, w.db, Some(step.held), step.id, step.proof, step.now);
    var db := ExpireUnactivated(s.cfg, w.db, Some(step.held), step.id, step.proof, step.now).0;
    if step.proof in w.proofs && db != w.db {
      RowID(s.cfg, w.db, step.id);
      ProofIsBacked(s, w, step.proof);
      OneRowTablesKeep(s, w, db, step.id);
    }
  }

  lemma RowID(cfg: Config, t: Tables, id: string)
    requires Consistent(cfg, t) && id in t.requests
    ensures t.requests[id].input.requestID == id && t.requests[id].inputHash == InputHash(cfg, t.requests[id].input)
  {
    hide Hash, Identifier, OpaqueHandle, RowsDistinct, NoOrphans;
    ConsistentRow(cfg, t, id);
  }

  // ---------- Claims ----------

  lemma GrantKeeps(s: Setting, w: World, token: string)
    requires Inv(s, w) && token !in w.granted
    ensures Inv(s, w.(granted := w.granted[token := w.clock]))
  {
    hide Consistent, L.Indexed, Remembered, EntryRemembered, OwnHandle, HandleBound, HandleJustified, MirrorKey;
    var w' := w.(granted := w.granted[token := w.clock]);
    forall h | h in w.signer.byID ensures RecordBacked(s, w', w.signer.byID[h]) {
      assert RecordBacked(s, w, w.signer.byID[h]);
    }
    forall p | p in w.proofs ensures ProofBacked(s, w', p) {
      assert ProofBacked(s, w, p);
    }
  }

  lemma SnapshotKeeps(s: Setting, w: World, r: Request)
    requires Inv(s, w) && Remembered(w.db, r)
    ensures Inv(s, w.(snapshots := w.snapshots + {r}))
  {
    hide Consistent, L.Indexed, Remembered, EntryRemembered, OwnHandle, HandleBound, HandleJustified, MirrorKey, Doomed;
  }

  lemma ExpiredClaimKeeps(s: Setting, w: World, r: Request)
    requires Inv(s, w) && Remembered(w.db, r) && Doomed(w.db, w.granted, w.clock, r.input.requestID)
    ensures Inv(s, w.(expiredClaims := w.expiredClaims + {r}))
  {
    hide Consistent, L.Indexed, Remembered, EntryRemembered, OwnHandle, HandleBound, HandleJustified, MirrorKey, Doomed;
  }

  lemma ClaimedKeeps(s: Setting, w: World, step: Step)
    requires Inv(s, w) && step.Claimed?
    ensures Inv(s, Next(s, w, step))
  {
    hide Inv, Consistent, Forward, Identifier, OwnHandle, MirrorKey;
    var (db, result) := Claim(w.db, step.id, step.worker, step.token, step.now, step.duration, step.expired);
    if step.now <= w.clock && step.token !in w.granted && result.Ok? {
      var w1 := w.(granted := w.granted[step.token := w.clock]);
      GrantKeeps(s, w, step.token);
      InvTables(s, w);
      ClaimKeeps(s.cfg, w.db, step.id, step.worker, step.token, step.now, step.duration, step.expired);
      OneRowTablesKeep(s, w1, db, step.id);
      RowID(s.cfg, db, step.id);
      ProgressReflexive(result.value);
      if step.expired {
        ExpiredClaimKeeps(s, w1.(db := db), result.value);
      } else {
        SnapshotKeeps(s, w1.(db := db), result.value);
      }
    }
  }

  // ---------- Reads, the clock and the mirror ----------

  lemma DoomedLater(db: Tables, granted: map<string, Time>, clock: Time, later: Time, id: string)
    requires Doomed(db, granted, clock, id) && clock <= later
    ensures Doomed(db, granted, later, id)
  {
  }

  lemma TickMessages(s: Setting, w: World, to: Clock)
    requires MessagesBacked(s, w) && w.clock <= to
    ensures MessagesBacked(s, w.(clock := to))
  {
    hide Remembered, EntryRemembered, OwnHandle, MirrorKey, Doomed, L.Activated;
    forall r | r in w.expiredClaims && s.cfg.leasesRequired ensures Doomed(w.db, w.granted, to, r.input.requestID) {
      DoomedLater(w.db, w.granted, w.clock, to, r.input.requestID);
    }
    forall p | p in w.proofs ensures ProofBacked(s, w.(clock := to), p) {
      if s.cfg.leasesRequired { DoomedLater(w.db, w.granted, w.clock, to, p.requestID); }
    }
  }

  lemma TickRecord(s: Setting, w: World, to: Clock, r: L.SignerRecord)
    requires RecordBacked(s, w, r) && w.clock <= to
    ensures RecordBacked(s, w.(clock := to), r)
  {
    hide HandleBound, HandleJustified, Doomed;
    if s.cfg.leasesRequired && r.handle.state == L.Expired {
      DoomedLater(w.db, w.granted, w.clock, to, r.handle.binding.requestID);
    }
  }

  lemma TickRow(w: World, to: Clock, id: string)
    requires id in w.db.requests && RowBacked(w, id) && w.clock <= to
    ensures RowBacked(w.(clock := to), id)
  {
    hide OwnHandle, MirrorKey;
  }

  lemma TickKeeps(s: Setting, w: World, step: Step)
    requires Inv(s, w) && step.Tick?
    ensures Inv(s, Next(s, w, step))
  {
    hide Consistent, L.Indexed, RowBacked, RecordBacked, MessagesBacked, MirrorKey;
    var w' := Next(s, w, step);
    if w' != w {
      TickMessages(s, w, step.to);
      forall id | id in w.db.requests ensures RowBacked(w', id) { TickRow(w, step.to, id); }
      forall h | h in w.signer.byID ensures RecordBacked(s, w', w.signer.byID[h]) {
        TickRecord(s, w, step.to, w.signer.byID[h]);
      }
    }
  }

  lemma ReadKeeps(s: Setting, w: World, step: Step)
    requires Inv(s, w) && step.Read?
    ensures Inv(s, Next(s, w, step))
  {
    hide Inv, Consistent;
    if step.id in w.db.requests {
      InvTables(s, w);
      RowID(s.cfg, w.db, step.id);
      ProgressReflexive(w.db.requests[step.id]);
      SnapshotKeeps(s, w, w.db.requests[step.id]);
    }
  }

  /** Registry entries are stored under their own digest. */
  lemma EntryDigest(cfg: Config, t: Tables, d: string)
    requires Consistent(cfg, t) && d in t.registry
    ensures t.registry[d].digest == d
  {
    hide Hash, Identifier, OpaqueHandle, RowsDistinct, MirrorDigest;
    var id :| HasDigest(t.requests, id, d);
    ConsistentRow(cfg, t, id);
  }

  lemma ReadEntryKeeps(s: Setting, w: World, step: Step)
    requires Inv(s, w) && step.ReadEntry?
    ensures Inv(s, Next(s, w, step))
  {
    hide Consistent, L.Indexed, Remembered, OwnHandle, HandleBound, HandleJustified, MirrorKey, Doomed;
    if step.digest in w.db.registry {
      EntryDigest(s.cfg, w.db, step.digest);
    }
  }

  lemma MirrorKeyInjective(a: string, b: string)
    requires MirrorKey(a) == MirrorKey(b)
    ensures a == b
  {
    assert MirrorKey(a)[16..|MirrorKey(a)| - 5] == a;
    assert MirrorKey(b)[16..|MirrorKey(b)| - 5] == b;
  }

  lemma MirrorsKeeps(s: Setting, w: World, step: Step)
    requires Inv(s, w) && step.Mirrors?
    ensures Inv(s, Next(s, w, step))
  {
    hide Consistent, L.Indexed, OwnHandle, HandleBound, HandleJustified, MirrorKey, Doomed, Remembered, MirrorBacked,
        MirrorObject, MirrorDigest;
    var w' := Next(s, w, step);
    if w' != w {
      MirrorPutKeeps(s, w, w', step.entry);
      RememberedInput(w.db, step.snapshot);
    }
  }

  lemma MirrorPutKeeps(s: Setting, w: World, w': World, e: RegistryEntry)
    requires MirrorBacked(s, w) && EntryRemembered(w.db, e) && w'.db == w.db
    requires w'.mirror == w.mirror[MirrorKey(e.digest) := Stored(MirrorObject(e), MirrorDigest(s.cfg, e))]
    ensures MirrorBacked(s, w')
  {
    hide MirrorKey;
    forall x: string | MirrorKey(x) in w'.mirror
      ensures x in w.db.registry && w'.mirror[MirrorKey(x)]
          == Stored(MirrorObject(w.db.registry[x]), MirrorDigest(s.cfg, w.db.registry[x]))
    {
      if MirrorKey(x) == MirrorKey(e.digest) { MirrorKeyInjective(x, e.digest); }
    }
  }

  lemma RememberedInput(db: Tables, r: Request)
    requires Remembered(db, r)
    ensures r.input.requestID in db.requests && db.requests[r.input.requestID].input == r.input
  {
  }

  // ---------- Signer operations ----------

  lemma CommitKeepsHandles(signer: L.SignerState, record: L.SignerRecord, id: string, handle: string)
    requires L.ValidTransition(signer.byID, record) && OwnHandle(signer, id, handle)
    ensures OwnHandle(L.Commit(signer, record), id, handle)
    ensures L.Activated(signer.byID[handle].handle.state)
        ==> L.Activated(L.Commit(signer, record).byID[handle].handle.state)
  {
    hide L.ValidRecord, L.KeyOf, L.SameAction;
  }

  lemma CommitKeepsMessages(s: Setting, w: World, record: L.SignerRecord)
    requires MessagesBacked(s, w) && L.ValidTransition(w.signer.byID, record)
    ensures MessagesBacked(s, w.(signer := L.Commit(w.signer, record)))
  {
    hide L.ValidTransition, L.Commit, Remembered, EntryRemembered, OwnHandle, MirrorKey, Doomed, L.Activated;
    var w' := w.(signer := L.Commit(w.signer, record));
    forall m | m in w.prepared ensures OwnHandle(w'.signer, m.0, m.1) {
      CommitKeepsHandles(w.signer, record, m.0, m.1);
    }
    forall m | m in w.acknowledged ensures OwnHandle(w'.signer, m.0, m.1) && m.1 in w'.signer.byID
        && L.Activated(w'.signer.byID[m.1].handle.state) {
      AcknowledgedStays(w.signer, record, m);
    }
    forall p | p in w.proofs ensures ProofBacked(s, w', p) {
      if p.handleID != "" {
        CommitKeepsHandles(w.signer, record, p.requestID, p.handleID);
      }
    }
  }

  lemma AcknowledgedStays(signer: L.SignerState, record: L.SignerRecord, m: (string, string))
    requires L.ValidTransition(signer.byID, record) && OwnHandle(signer, m.0, m.1)
        && L.Activated(signer.byID[m.1].handle.state)
    ensures var after := L.Commit(signer, record);
            OwnHandle(after, m.0, m.1) && m.1 in after.byID && L.Activated(after.byID[m.1].handle.state)
  {
    hide L.ValidTransition, L.Commit;
    CommitKeepsHandles(signer, record, m.0, m.1);
  }

  lemma CommitKeepsRow(w: World, record: L.SignerRecord, id: string)
    requires id in w.db.requests && RowBacked(w, id) && L.ValidTransition(w.signer.byID, record)
    ensures RowBacked(w.(signer := L.Commit(w.signer, record)), id)
  {
    hide L.ValidRecord, L.KeyOf, L.SameAction, MirrorKey;
  }

  /** A signer write that is accepted by its ledger and justified by the tables keeps the invariant. */
  lemma CommitKeeps(s: Setting, w: World, record: L.SignerRecord)
    requires Inv(s, w) && L.ValidTransition(w.signer.byID, record) && RecordBacked(s, w, record)
    ensures Inv(s, w.(signer := L.Commit(w.signer, record)))
  {
    hide Consistent, L.Indexed, RowBacked, MessagesBacked, L.ValidTransition, HandleBound, HandleJustified, MirrorKey,
        Doomed, L.KeyOf;
    var w' := w.(signer := L.Commit(w.signer, record));
    R.CommitKeepsIndex(w.signer, record);
    CommitKeepsMessages(s, w, record);
    forall id | id in w.db.requests ensures RowBacked(w', id) { CommitKeepsRow(w, record, id); }
    forall h | h in w'.signer.byID ensures RecordBacked(s, w', w'.signer.byID[h]) {
      assert h != record.handle.id ==> w'.signer.byID[h] == w.signer.byID[h] && RecordBacked(s, w, w.signer.byID[h]);
    }
  }

  lemma InvSigner(s: Setting, w: World)
    requires Inv(s, w)
    ensures L.Indexed(w.signer)
  {
    hide Consistent, L.Indexed, RowBacked, RecordBacked, MirrorBacked, MessagesBacked;
  }

  lemma SnapshotIsRemembered(s: Setting, w: World, r: Request)
    requires Inv(s, w) && (r in w.snapshots || r in w.expiredClaims)
    ensures Remembered(w.db, r)
    ensures r in w.expiredClaims && s.cfg.leasesRequired ==> Doomed(w.db, w.granted, w.clock, r.input.requestID)
  {
    hide Consistent, L.Indexed, RowBacked, RecordBacked, MirrorBacked, Remembered, Doomed;
  }

  lemma RecordIsBacked(s: Setting, w: World, h: string)
    requires Inv(s, w) && h in w.signer.byID
    ensures RecordBacked(s, w, w.signer.byID[h]) && w.signer.byID[h].handle.id == h && L.ValidRecord(w.signer.byID[h])
  {
    hide Consistent, RowBacked, RecordBacked, MirrorBacked, MessagesBacked, L.ValidRecord;
  }

  lemma PreparedMessageKeeps(s: Setting, w: World, m: (string, string))
    requires Inv(s, w) && OwnHandle(w.signer, m.0, m.1)
    ensures Inv(s, w.(prepared := w.prepared + {m}))
  {
    hide Consistent, L.Indexed, Remembered, EntryRemembered, OwnHandle, HandleBound, HandleJustified, MirrorKey, Doomed;
  }

  lemma AcknowledgedMessageKeeps(s: Setting, w: World, m: (string, string))
    requires Inv(s, w) && OwnHandle(w.signer, m.0, m.1) && L.Activated(w.signer.byID[m.1].handle.state)
    ensures Inv(s, w.(acknowledged := w.acknowledged + {m}))
  {
    hide Consistent, L.Indexed, Remembered, EntryRemembered, HandleBound, HandleJustified, MirrorKey, Doomed;
  }

  lemma ProofMessageKeeps(s: Setting, w: World, p: L.UnactivatedProof)
    requires Inv(s, w) && ProofBacked(s, w, p)
    ensures Inv(s, w.(proofs := w.proofs + {p}))
  {
    hide Consistent, L.Indexed, Remembered, EntryRemembered, OwnHandle, HandleBound, HandleJustified, MirrorKey, Doomed;
  }

  /** The signer's record for an operation belongs to the one request of that operation. */
  lemma SameOperationSameRequest(s: Setting, w: World, h: string, r: Request)
    requires Inv(s, w) && h in w.signer.byID && Remembered(w.db, r)
    requires w.signer.byID[h].handle.binding.operationID == r.input.operationID
    ensures w.signer.byID[h].handle.binding.requestID == r.input.requestID
  {
    hide Inv, Doomed, L.ValidRecord, HandleJustified;
    RecordIsBacked(s, w, h);
    RememberedInput(w.db, r);
    InvTables(s, w);
    OperationsDistinct(s.cfg, w.db, w.signer.byID[h].handle.binding.requestID, r.input.requestID);
  }

  lemma OperationsDistinct(cfg: Config, t: Tables, a: string, b: string)
    requires Consistent(cfg, t) && a in t.requests && b in t.requests
        && t.requests[a].input.operationID == t.requests[b].input.operationID
    ensures a == b
  {
    hide RowConsistent, NoOrphans, ViewOf;
  }

  lemma SignerReplaysKeeps(s: Setting, w: World, step: Step)
    requires Inv(s, w) && step.SignerReplays?
    ensures Inv(s, Next(s, w, step))
  {
    hide Inv, L.ValidRecord, Hash, Identifier, Remembered;
    var r := step.snapshot;
    var reply := L.PreparedFor(w.signer, step.now, r.input.operationID, r.input.actionID, InputHash(s.cfg, r.input));
    if r in w.snapshots && reply.Granted? {
      SnapshotIsRemembered(s, w, r);
      InvSigner(s, w);
      KeyedRecord(w.signer, r.input.operationID, r.input.actionID);
      SameOperationSameRequest(s, w, reply.handle.id, r);
      PreparedMessageKeeps(s, w, (r.input.requestID, reply.handle.id));
    }
  }

  /** The record indexed under an action key is about that operation. */
  lemma KeyedRecord(signer: L.SignerState, operationID: string, actionID: string)
    requires L.Indexed(signer) && L.ActionKey(operationID, actionID) in signer.byAction && Hash(operationID)
    ensures var h := signer.byAction[L.ActionKey(operationID, actionID)];
            h in signer.byID && signer.byID[h].handle.id == h
                && signer.byID[h].handle.binding.operationID == operationID
  {
    var key := L.ActionKey(operationID, actionID);
    var b := signer.byID[signer.byAction[key]].handle.binding;
    assert L.ActionKey(b.operationID, b.actionID) == key;
    assert key[..66] == operationID && L.ActionKey(b.operationID, b.actionID)[..66] == b.operationID;
  }

  lemma SignerPreparesKeeps(s: Setting, w: World, step: Step)
    requires L.CipherLaw(s.env) && Inv(s, w) && step.SignerPrepares?
    ensures Inv(s, Next(s, w, step))
  {
    hide Inv, L.CipherLaw, L.Indexed, L.ValidRecord, L.ValidTransition, ValidInput, R.Ordinary, L.ArtifactAAD,
        L.ActionKey, Hash, Identifier, L.PlanOf, L.Commit, OwnHandle, Remembered, RecordBacked, BindingOf, InputHash;
    var call := PrepareCall(s, step);
    var plan := L.PlanOf(s.env, w.signer, call);
    var r := step.snapshot;
    if r in w.snapshots && R.Ordinary(call) && plan.reply.Granted? {
      SnapshotIsRemembered(s, w, r);
      InvSigner(s, w);
      InvTables(s, w);
      RememberedInput(w.db, r);
      RowID(s.cfg, w.db, r.input.requestID);
      PrepareAnswer(s.env, w.signer, call);
      BindingRequest(r.input, InputHash(s.cfg, r.input));
      var w1 := w.(signer := After(w.signer, plan));
      if plan.Persist? {
        R.PlansAreAccepted(s.env, w.signer, call);
        FreshRecordIsBacked(s, w, plan.record, r.input);
        CommitKeeps(s, w, plan.record);
      }
      PreparedMessageKeeps(s, w1, (r.input.requestID, plan.reply.handle.id));
    }
  }

  lemma BindingRequest(i: ActivationInput, inputHash: string)
    ensures BindingOf(i, inputHash).requestID == i.requestID
  {
  }

  lemma FreshRecordIsBacked(s: Setting, w: World, record: L.SignerRecord, input: ActivationInput)
    requires input.requestID in w.db.requests && w.db.requests[input.requestID].input == input
    requires w.db.requests[input.requestID].inputHash == InputHash(s.cfg, input)
    requires record.handle.binding == BindingOf(input, InputHash(s.cfg, input)) && record.handle.state == L.Prepared
    ensures RecordBacked(s, w, record)
  {
  }

  /** A granted Prepare answers with the handle it wrote, or with the stored handle of exactly the same binding. */
  lemma PrepareAnswer(env: L.Env, signer: L.SignerState, call: L.Call)
    requires L.Indexed(signer) && call.Prepare? && L.PlanOf(env, signer, call).reply.Granted?
    ensures var plan := L.PlanOf(env, signer, call);
            && OwnHandle(After(signer, plan), call.input.binding.requestID, plan.reply.handle.id)
            && (plan.Persist? ==>
                plan.record.handle.binding == call.input.binding && plan.record.handle.state == L.Prepared)
  {
    hide L.ValidRecord, L.ValidPrepare, L.ArtifactAAD, L.ActionKey;
  }

  lemma AcknowledgesKeeps(s: Setting, w: World, step: Step)
    requires Inv(s, w) && step.Acknowledges?
    ensures Inv(s, Next(s, w, step))
  {
    hide Inv, L.ValidTransition, L.ValidBinding, OpaqueHandle, Hash, Doomed, L.KeyOf;
    var r := step.snapshot;
    var plan := L.PlanActivate(w.signer, step.now, r.handle, ProofFrom(r), step.verified);
    if r in w.snapshots && r.state == ActiveMirrored && plan.reply.Granted? {
      SnapshotIsRemembered(s, w, r);
      RecordIsBacked(s, w, r.handle);
      var w1 := w.(signer := After(w.signer, plan));
      if plan.Persist? {
        AcknowledgmentIsAccepted(w.signer, step.now, r.handle, ProofFrom(r));
        AcknowledgmentIsJustified(s, w, r);
        CommitKeeps(s, w, plan.record);
      }
      AcknowledgedMessageKeeps(s, w1, (r.input.requestID, r.handle));
    }
  }

  lemma AcknowledgmentIsAccepted(signer: L.SignerState, now: Time, h: string, proof: L.ActivationProof)
    requires h in signer.byID && L.ValidRecord(signer.byID[h]) && signer.byID[h].handle.id == h
        && L.PlanActivate(signer, now, h, proof, true).Persist?
    ensures L.ValidTransition(signer.byID, L.PlanActivate(signer, now, h, proof, true).record)
  {
    hide L.ValidBinding, OpaqueHandle, Hash;
  }

  lemma AcknowledgmentIsJustified(s: Setting, w: World, r: Request)
    requires Remembered(w.db, r) && r.state == ActiveMirrored
    requires r.handle in w.signer.byID && RecordBacked(s, w, w.signer.byID[r.handle])
        && w.signer.byID[r.handle].handle.id == r.handle
    requires L.ExactActivationProof(w.signer.byID[r.handle].handle, ProofFrom(r))
    ensures var record := w.signer.byID[r.handle];
            RecordBacked(s, w, record.(handle := record.handle.(state := L.Active), activation := Some(ProofFrom(r))))
  {
    hide Doomed, Hash;
  }

  lemma SignerProvesKeeps(s: Setting, w: World, step: Step)
    requires L.CipherLaw(s.env) && Inv(s, w) && step.SignerProves?
    ensures Inv(s, Next(s, w, step))
  {
    hide Inv, L.CipherLaw, L.Indexed, L.ValidRecord, L.ValidTransition, Hash, Identifier, L.ActionKey, Doomed,
        L.Commit, OwnHandle, Remembered;
    var r := step.snapshot;
    var call := ProveCall(step);
    var plan := L.PlanOf(s.env, w.signer, call);
    if r in w.expiredClaims && plan.reply.Unactivated? {
      SnapshotIsRemembered(s, w, r);
      InvSigner(s, w);
      ProveAnswer(s.env, w.signer, call);
      var w1 := w.(signer := After(w.signer, plan));
      if plan.Persist? {
        R.PlansAreAccepted(s.env, w.signer, call);
        RecordIsBacked(s, w, plan.record.handle.id);
        CommitKeeps(s, w, plan.record);
      }
      ProofMessageKeeps(s, w1, plan.reply.proof);
    }
  }

  lemma ProveAnswer(env: L.Env, signer: L.SignerState, call: L.Call)
    requires L.Indexed(signer) && call.Prove? && L.PlanOf(env, signer, call).reply.Unactivated?
    ensures var plan := L.PlanOf(env, signer, call);
            && plan.reply.proof.requestID == call.requestID
            && (plan.reply.proof.handleID != "" ==>
                OwnHandle(After(signer, plan), call.requestID, plan.reply.proof.handleID))
            && (plan.Persist? ==>
                plan.record.handle.id in signer.byID
                && plan.record == L.ExpiredRecord(signer.byID[plan.record.handle.id])
                                  && signer.byID[plan.record.handle.id].handle.state == L.Prepared
                                      && plan.record.handle.binding.requestID == call.requestID)
  {
    hide L.ValidRecord, Hash, Identifier, L.ActionKey;
  }

  lemma ReleasesKeeps(s: Setting, w: World, step: Step)
    requires L.CipherLaw(s.env) && Inv(s, w) && step.Releases?
    ensures Inv(s, Next(s, w, step))
  {
    hide Inv, L.CipherLaw, L.Indexed, L.ValidRecord, L.ValidTransition, L.Plaintext, L.Commit, Doomed;
    var call := L.Release(step.now, step.handle, step.keeperID);
    var plan := L.PlanOf(s.env, w.signer, call);
    if plan.Persist? {
      InvSigner(s, w);
      RecordIsBacked(s, w, step.handle);
      R.PlansAreAccepted(s.env, w.signer, call);
      CommitKeeps(s, w, plan.record);
    }
  }

  lemma FinalizesKeeps(s: Setting, w: World, step: Step)
    requires L.CipherLaw(s.env) && Inv(s, w) && step.Finalizes?
    ensures Inv(s, Next(s, w, step))
  {
    hide Inv, L.CipherLaw, L.Indexed, L.ValidRecord, L.ValidTransition, L.Commit, Doomed;
    var call := L.Finalize(step.now, step.handle, step.outcome);
    var plan := L.PlanOf(s.env, w.signer, call);
    if plan.Persist? {
      InvSigner(s, w);
      RecordIsBacked(s, w, step.handle);
      R.PlansAreAccepted(s.env, w.signer, call);
      CommitKeeps(s, w, plan.record);
    }
  }

  // ---------- Every run ----------

  lemma InitialInv(s: Setting, w: World)
    requires Blank(w)
    ensures Inv(s, w)
  {
    hide RowConsistent, MirrorKey;
  }

  lemma NextKeeps(s: Setting, w: World, step: Step)
    requires L.CipherLaw(s.env) && Inv(s, w)
    ensures Inv(s, Next(s, w, step))
  {
    hide Inv, Next, L.CipherLaw;
    match step
    case Tick(_) => TickKeeps(s, w, step);
    case Authorized(_, _, _) => AuthorizedKeeps(s, w, step);
    case Requested(_, _, _) => RequestedKeeps(s, w, step);
    case Claimed(_, _, _, _, _, _) => ClaimedKeeps(s, w, step);
    case Returned(_, _) => ReturnedKeeps(s, w, step);
    case Read(_) => ReadKeeps(s, w, step);
    case ReadEntry(_) => ReadEntryKeeps(s, w, step);
    case SignerReplays(_, _) => SignerReplaysKeeps(s, w, step);
    case SignerPrepares(_, _, _, _, _) => SignerPreparesKeeps(s, w, step);
    case RecordsPrepared(_, _, _, _) => RecordsPreparedKeeps(s, w, step);
    case Activates(_, _, _, _) => ActivatesKeeps(s, w, step);
    case Mirrors(_, _) => MirrorsKeeps(s, w, step);
    case RecordsMirrored(_, _, _, _) => RecordsMirroredKeeps(s, w, step);
    case Acknowledges(_, _, _) => AcknowledgesKeeps(s, w, step);
    case RecordsAcknowledged(_, _, _, _) => RecordsAcknowledgedKeeps(s, w, step);
    case Refuses(_, _, _) => RefusesKeeps(s, w, step);
    case SignerProves(_, _, _) => SignerProvesKeeps(s, w, step);
    case Expires(_, _, _, _) => ExpiresKeeps(s, w, step);
    case Releases(_, _, _) => ReleasesKeeps(s, w, step);
    case Finalizes(_, _, _) => FinalizesKeeps(s, w, step);
  }

  // ---------- Failed writes and restarts ----------

  lemma WriteIsAccepted(s: Setting, w: World, step: Step)
    requires L.CipherLaw(s.env) && Inv(s, w) && WriteOf(s, w, step).Some?
    ensures L.ValidTransition(w.signer.byID, WriteOf(s, w, step).value)
  {
    hide Inv, L.CipherLaw, L.ValidTransition, L.PlanOf, ValidInput, L.Indexed;
    InvSigner(s, w);
    if !step.SignerPrepares? { OrdinaryUnlessPrepare(CallOf(s, step)); }
    R.PlansAreAccepted(s.env, w.signer, CallOf(s, step));
  }

  /** An acknowledged write is what the step does to the signer, and all it does besides sending its answer. */
  lemma WriteIsTheStep(s: Setting, w: World, step: Step)
    requires WriteOf(s, w, step).Some?
    ensures IsSignerCall(step)
    ensures var (v, r) := (Next(s, w, step), WriteOf(s, w, step).value);
            v.signer == L.Commit(w.signer, r) && v.db == w.db && v.granted == w.granted && v.clock == w.clock
  {
    hide ValidInput, R.Ordinary, L.Commit, L.ValidPrepare, L.Plaintext, L.ArtifactAAD, L.ActionKey, Hash, Identifier;
  }

  lemma NoWriteNoChange(s: Setting, w: World, step: Step)
    requires WriteOf(s, w, step).None?
    ensures Next(s, w, step).signer == w.signer
    ensures IsSignerCall(step) ==>
        Next(s, w, step).db == w.db && Next(s, w, step).granted == w.granted && Next(s, w, step).clock == w.clock
  {
    hide TableStep, SignerStep, OtherStep, WriteOf, MirrorKey;
    if IsSignerCall(step) { AnswerOnly(s, w, step); } else { OutsideKeepsSigner(s, w, step); }
  }

  lemma AnswerOnly(s: Setting, w: World, step: Step)
    requires IsSignerCall(step) && WriteOf(s, w, step).None?
    ensures var v := SignerStep(s, w, step);
        v.signer == w.signer && v.db == w.db && v.granted == w.granted && v.clock == w.clock
  {
    hide ValidInput, R.Ordinary, L.PlanPrepare, L.PlanActivate, L.PlanProve, L.PlanRelease, L.PlanFinalize,
        L.PreparedFor;
  }

  lemma OutsideKeepsSigner(s: Setting, w: World, step: Step)
    requires !IsSignerCall(step)
    ensures TableStep(s, w, step).signer == w.signer && OtherStep(s, w, step).signer == w.signer
        && SignerStep(s, w, step).signer == w.signer
  {
    hide Authorize, Create, Claim, ReturnLease, RecordPrepared, Activate, MarkPrimaryMirrored, MarkAcknowledged, Refuse,
        ExpireUnactivated, L.PreparedFor, Timely, MirrorKey, MirrorDigest;
  }

  /** Steps outside the signer do not look at it. */
  lemma SignerIsNotRead(s: Setting, w: World, signer: L.SignerState, step: Step)
    requires !IsSignerCall(step)
    ensures var (v, u) := (Next(s, w, step), Next(s, w.(signer := signer), step));
            v.db == u.db && v.granted == u.granted && v.clock == u.clock
  {
    hide TableStep, OtherStep;
    TablesDoNotReadSigner(s, w, signer, step);
    OthersDoNotReadSigner(s, w, signer, step);
  }

  lemma TablesDoNotReadSigner(s: Setting, w: World, signer: L.SignerState, step: Step)
    ensures var (v, u) := (TableStep(s, w, step), TableStep(s, w.(signer := signer), step));
            v.db == u.db && v.granted == u.granted && v.clock == u.clock
  {
    hide Authorize, Create, Claim, ReturnLease, RecordPrepared, Activate, MarkPrimaryMirrored, MarkAcknowledged,
        Refuse, ExpireUnactivated;
  }

  lemma OthersDoNotReadSigner(s: Setting, w: World, signer: L.SignerState, step: Step)
    ensures var (v, u) := (OtherStep(s, w, step), OtherStep(s, w.(signer := signer), step));
            v.db == u.db && v.granted == u.granted && v.clock == u.clock
  {
    hide MirrorKey, MirrorDigest;
  }

  lemma BackedElsewhere(s: Setting, w: World, v: World, r: L.SignerRecord)
    requires RecordBacked(s, w, r) && v.db == w.db && v.granted == w.granted && v.clock == w.clock
    ensures RecordBacked(s, v, r)
  {
    hide HandleBound, HandleJustified, Doomed;
  }

  /** A justified record that only the file holds stays justified, whatever the others do. */
  lemma OrphanStays(s: Setting, w: World, step: Step, r: L.SignerRecord)
    requires L.CipherLaw(s.env) && Inv(s, w) && L.ValidTransition(w.signer.byID, r) && RecordBacked(s, w, r)
    requires WriteOf(s, w, step).None?
    ensures RecordBacked(s, Next(s, w, step), r)
  {
    hide Inv, L.CipherLaw, L.ValidTransition, RecordBacked, Next, WriteOf;
    if IsSignerCall(step) {
      NoWriteNoChange(s, w, step);
      BackedElsewhere(s, w, Next(s, w, step), r);
    } else {
      var u := w.(signer := L.Commit(w.signer, r));
      CommitKeeps(s, w, r);
      NextKeeps(s, u, step);
      NoWriteOutside(s, u, step);
      NoWriteNoChange(s, u, step);
      RecordIsBacked(s, Next(s, u, step), r.handle.id);
      SignerIsNotRead(s, w, u.signer, step);
      BackedElsewhere(s, Next(s, u, step), Next(s, w, step), r);
    }
  }

  lemma NoWriteOutside(s: Setting, w: World, step: Step)
    requires !IsSignerCall(step)
    ensures WriteOf(s, w, step).None?
  {
  }

  lemma FailedWrite(s: Setting, w: World, step: Step)
    requires L.CipherLaw(s.env) && Inv(s, w) && WriteOf(s, w, step).Some?
    ensures RecordBacked(s, w, WriteOf(s, w, step).value)
  {
    hide Inv, L.CipherLaw, RecordBacked, Next, WriteOf;
    var r := WriteOf(s, w, step).value;
    NextKeeps(s, w, step);
    WriteIsTheStep(s, w, step);
    RecordIsBacked(s, Next(s, w, step), r.handle.id);
    BackedElsewhere(s, Next(s, w, step), w, r);
  }

  /** What an attempted write leaves in the file beyond the signer's memory. */
  lemma OrphanAfter(env: L.Env, m: L.Signer, at: Clock, record: L.SignerRecord, disk: L.Disk)
    requires R.Refines(env, m) && L.ValidTransition(m.mem.byID, record)
    ensures var (journal, ok) := L.Append(env, m.journal, at, record, disk);
            var after := R.Orphan(env, journal);
            after == None || after == Some(record) || (after == R.Orphan(env, m.journal) && !ok)
    ensures L.Append(env, m.journal, at, record, disk).1
        ==> R.Orphan(env, L.Append(env, m.journal, at, record, disk).0).None?
  {
    hide L.ValidTransition;
    if disk != L.Cancelled && L.Appendable(env, m.journal, record) {
      R.AppendedEventReplays(env, m.journal, at, record);
    }
  }

  lemma AnswerKeeps(s: Setting, y: System, step: Step, disk: L.Disk)
    requires L.CipherLaw(s.env) && SystemInv(s, y) && WriteOf(s, y.w, step).None?
    ensures SystemInv(s, Perform(s, y, step, disk))
  {
    hide Inv, L.CipherLaw, RecordBacked, Next, WriteOf, R.Refines, R.Orphan, L.ValidTransition;
    NextKeeps(s, y.w, step);
    NoWriteNoChange(s, y.w, step);
    R.ReplayIsDurable(s.env, L.Signer(y.w.signer, y.journal));
    if R.Orphan(s.env, y.journal).Some? { OrphanStays(s, y.w, step, R.Orphan(s.env, y.journal).value); }
  }

  lemma WriteKeeps(s: Setting, y: System, step: Step, disk: L.Disk)
    requires L.CipherLaw(s.env) && SystemInv(s, y) && WriteOf(s, y.w, step).Some?
    ensures SystemInv(s, Perform(s, y, step, disk))
  {
    hide Inv, L.CipherLaw, RecordBacked, Next, WriteOf, R.Refines, R.Orphan, L.ValidTransition, L.Append, L.Commit;
    var m := L.Signer(y.w.signer, y.journal);
    var r := WriteOf(s, y.w, step).value;
    NextKeeps(s, y.w, step);
    WriteIsAccepted(s, y.w, step);
    WriteIsTheStep(s, y.w, step);
    FailedWrite(s, y.w, step);
    R.WriteRefines(s.env, m, step.now, r, L.NoRecord, disk);
    OrphanAfter(s.env, m, step.now, r, disk);
  }

  lemma PerformKeeps(s: Setting, y: System, step: Step, disk: L.Disk)
    requires L.CipherLaw(s.env) && SystemInv(s, y)
    ensures SystemInv(s, Perform(s, y, step, disk))
  {
    hide SystemInv, L.CipherLaw, Perform, WriteOf;
    if WriteOf(s, y.w, step).None? { AnswerKeeps(s, y, step, disk); } else { WriteKeeps(s, y, step, disk); }
  }

  lemma ReopenKeeps(s: Setting, y: System, now: Clock, revalidated: bool)
    requires L.CipherLaw(s.env) && SystemInv(s, y)
    ensures SystemInv(s, Do(s, y, Reopens(now, revalidated)))
  {
    hide Inv, L.CipherLaw, RecordBacked, L.ValidTransition, L.Replay, L.OneRecordPerAction, L.Revalidates, L.Commit;
    var m := L.Signer(y.w.signer, y.journal);
    R.ReplayIsDurable(s.env, m);
    R.StepRefines(s.env, m, R.Input(L.Reopen(now, revalidated), L.Synced));
    if R.Orphan(s.env, y.journal).Some? { CommitKeeps(s, y.w, R.Orphan(s.env, y.journal).value); }
  }

  lemma DoKeeps(s: Setting, y: System, act: Act)
    requires L.CipherLaw(s.env) && SystemInv(s, y)
    ensures SystemInv(s, Do(s, y, act))
  {
    hide SystemInv, L.CipherLaw, Perform;
    match act
    case Does(step, disk) => PerformKeeps(s, y, step, disk);
    case Reopens(now, revalidated) => ReopenKeeps(s, y, now, revalidated);
  }

  lemma {:induction false} RunKeeps(s: Setting, y: System, acts: seq<Act>)
    requires L.CipherLaw(s.env) && Initial(y)
    ensures SystemInv(s, Run(s, y, acts)) && Inv(s, Run(s, y, acts).w)
  {
    hide Inv, Do, L.CipherLaw, RecordBacked;
    if |acts| == 0 {
      InitialInv(s, y.w);
    } else {
      RunKeeps(s, y, acts[..|acts| - 1]);
      DoKeeps(s, Run(s, y, acts[..|acts| - 1]), acts[|acts| - 1]);
    }
  }

  /**
    Activation safety. In every interleaving of advance, crash, retry, refusal and expiry, a signer
    handle that is ACTIVE, RELEASED or TERMINAL belongs to a request that is mirrored or
    acknowledged and records exactly this handle, whose reservation is live, and whose registry entry
    is in the write-once mirror under the digest the signer was shown.
   */
  lemma ActivationSafety(s: Setting, y: System, acts: seq<Act>, h: string)
    requires L.CipherLaw(s.env) && Initial(y)
    requires h in Run(s, y, acts).w.signer.byID && L.Activated(Run(s, y, acts).w.signer.byID[h].handle.state)
    ensures var v := Run(s, y, acts).w;
            var b := v.signer.byID[h].handle.binding;
            && b.requestID in v.db.requests && Mirrored(v.db.requests[b.requestID].state)
                && v.db.requests[b.requestID].handle == h
            && b.reservationID in v.db.reservations && v.db.reservations[b.reservationID].state == AuthorizationLive
            && b.digest in v.db.registry && v.db.registry[b.digest].signatureRef == h
            && MirrorKey(b.digest) in v.mirror
            && v.mirror[MirrorKey(b.digest)].content == MirrorObject(v.db.registry[b.digest])
            && v.signer.byID[h].activation.Some?
            && v.mirror[MirrorKey(b.digest)].digest == v.signer.byID[h].activation.value.primaryMirrorDigest
  {
    hide Run, Inv, L.CipherLaw, Initial, Hash, Identifier, OpaqueHandle, MirrorKey, L.ValidRecord, Doomed;
    RunKeeps(s, y, acts);
    var v := Run(s, y, acts).w;
    RecordIsBacked(s, v, h);
    var id := v.signer.byID[h].handle.binding.requestID;
    InvTables(s, v);
    LiveRow(s.cfg, v.db, id);
    MirroredRow(s, v, id);
  }

  lemma LiveRow(cfg: Config, t: Tables, id: string)
    requires Consistent(cfg, t) && id in t.requests && Mirrored(t.requests[id].state)
    ensures var r := t.requests[id];
            && r.input.reservationID in t.reservations
                && t.reservations[r.input.reservationID].state == AuthorizationLive
            && r.input.digest in t.registry && t.registry[r.input.digest].signatureRef == r.handle
            && MirrorDigest(cfg, t.registry[r.input.digest]) == r.mirrorDigest
  {
    hide Hash, Identifier, OpaqueHandle, RowsDistinct, NoOrphans;
    ConsistentRow(cfg, t, id);
  }

  lemma MirroredRow(s: Setting, v: World, id: string)
    requires Inv(s, v) && id in v.db.requests && Mirrored(v.db.requests[id].state)
    ensures var d := v.db.requests[id].input.digest;
            MirrorKey(d) in v.mirror && d in v.db.registry
            && v.mirror[MirrorKey(d)] == Stored(MirrorObject(v.db.registry[d]), MirrorDigest(s.cfg, v.db.registry[d]))
  {
    hide Consistent, L.Indexed, RecordBacked, MessagesBacked, MirrorKey;
  }

  /** The control plane says ACTIVATION_ACKNOWLEDGED only when the signer has activated that very handle. */
  lemma AcknowledgedMeansActive(s: Setting, y: System, acts: seq<Act>, id: string)
    requires L.CipherLaw(s.env) && Initial(y)
    requires id in Run(s, y, acts).w.db.requests && Run(s, y, acts).w.db.requests[id].state == ActivationAcknowledged
    ensures var v := Run(s, y, acts).w;
            var h := v.db.requests[id].handle;
            h in v.signer.byID && v.signer.byID[h].handle.binding.requestID == id
                && L.Activated(v.signer.byID[h].handle.state)
  {
    hide Run, L.CipherLaw, Initial, Consistent, L.Indexed, RecordBacked, MessagesBacked, MirrorKey;
    RunKeeps(s, y, acts);
    AcknowledgedHasHandle(s.cfg, Run(s, y, acts).w.db, id);
  }

  lemma AcknowledgedHasHandle(cfg: Config, t: Tables, id: string)
    requires Consistent(cfg, t) && id in t.requests && t.requests[id].state == ActivationAcknowledged
    ensures t.requests[id].handle != ""
  {
    hide Hash, Identifier, RowsDistinct, NoOrphans;
    ConsistentRow(cfg, t, id);
  }

  /**
    Expiry and activation exclude each other. With runtime leases, a handle the signer has expired
    belongs to a request that is not active, and no worker still able to write to that request can
    activate it any more.
   */
  lemma ExpiredExcludesActive(s: Setting, y: System, acts: seq<Act>, h: string, held: Held, now: Clock, committed: bool)
    requires L.CipherLaw(s.env) && Initial(y) && s.cfg.leasesRequired
    requires h in Run(s, y, acts).w.signer.byID && Run(s, y, acts).w.signer.byID[h].handle.state == L.Expired
    ensures var v := Run(s, y, acts).w;
            var id := v.signer.byID[h].handle.binding.requestID;
            && id in v.db.requests && !ActiveState(v.db.requests[id].state)
            && (Timely(s, v, held, now) ==> Activate(s.cfg, v.db, Some(held), id, now, committed).0 == v.db)
  {
    hide Run, Inv, L.CipherLaw, Initial, L.ValidRecord, Activate, HandleBound, HandleJustified;
    RunKeeps(s, y, acts);
    var v := Run(s, y, acts).w;
    RecordIsBacked(s, v, h);
    if Timely(s, v, held, now) {
      ActivationIsNotDoomed(s, v, held, v.signer.byID[h].handle.binding.requestID, now, committed);
    }
  }

  // ---------- Idempotence ----------

  /** What a later world still says about an earlier one. */
  ghost predicate Extends(w: World, v: World) {
    && Forward(w.db, v.db)
    && (forall k | k in w.mirror :: k in v.mirror && v.mirror[k] == w.mirror[k])
    && R.Advances(w.signer.byID, v.signer.byID)
  }

  lemma TableStepExtends(s: Setting, w: World, step: Step)
    requires Inv(s, w)
    ensures Forward(w.db, TableStep(s, w, step).db)
    ensures TableStep(s, w, step).mirror == w.mirror && TableStep(s, w, step).signer == w.signer
  {
    hide Inv, Consistent, Forward, Timely, Authorize, Create, Claim, ReturnLease, RecordPrepared, Activate,
        MarkPrimaryMirrored, MarkAcknowledged, Refuse, ExpireUnactivated;
    InvTables(s, w);
    ForwardReflexive(w.db);
    match step
    case Authorized(a, b, c) => AuthorizeKeeps(s.cfg, w.db, a, b, c);
    case Requested(i, now, b) => CreateKeeps(s.cfg, w.db, i, now, b);
    case Claimed(id, worker, token, now, d, e) => ClaimKeeps(s.cfg, w.db, id, worker, token, now, d, e);
    case Returned(held, next) => ReturnLeaseKeeps(s.cfg, w.db, held, next);
    case RecordsPrepared(id, h, held, now) => RecordPreparedKeeps(s.cfg, w.db, Some(held), id, h, now);
    case Activates(id, held, now, c) => ActivateKeeps(s.cfg, w.db, Some(held), id, now, c);
    case RecordsMirrored(id, d, held, now) => MarkPrimaryMirroredKeeps(s.cfg, w.db, Some(held), id, d, now);
    case RecordsAcknowledged(id, h, held, now) => MarkAcknowledgedKeeps(s.cfg, w.db, Some(held), id, h, now);
    case Refuses(id, held, now) => RefuseKeeps(s.cfg, w.db, Some(held), id, now);
    case Expires(id, p, held, now) => ExpireUnactivatedKeeps(s.cfg, w.db, Some(held), id, p, now);
    case _ =>
  }

  lemma SignerAdvances(s: Setting, w: World, step: Step)
    requires L.CipherLaw(s.env) && Inv(s, w)
    ensures R.Advances(w.signer.byID, Next(s, w, step).signer.byID)
  {
    hide Inv, L.CipherLaw, L.ValidRecord, L.ValidTransition, WriteOf, Next, R.Advances, L.KeyOf;
    InvSigner(s, w);
    if WriteOf(s, w, step).Some? {
      WriteIsAccepted(s, w, step);
      WriteIsTheStep(s, w, step);
      R.TransitionAdvances(w.signer.byID, WriteOf(s, w, step).value);
    } else {
      NoWriteNoChange(s, w, step);
      AdvancesReflexive(w.signer.byID);
    }
  }

  lemma SignerStepFrame(s: Setting, w: World, step: Step)
    ensures SignerStep(s, w, step).db == w.db && SignerStep(s, w, step).mirror == w.mirror
  {
    hide After, L.PlanPrepare, L.PlanActivate, L.PlanProve, L.PlanRelease, L.PlanFinalize, L.PreparedFor, ValidInput,
        R.Ordinary;
  }

  lemma OrdinaryUnlessPrepare(call: L.Call)
    requires !call.Prepare?
    ensures R.Ordinary(call)
  {
  }

  lemma AdvancesReflexive(records: map<string, L.SignerRecord>)
    ensures R.Advances(records, records)
  {
  }

  lemma NextExtends(s: Setting, w: World, step: Step)
    requires L.CipherLaw(s.env) && Inv(s, w)
    ensures Extends(w, Next(s, w, step))
  {
    hide Inv, L.CipherLaw, TableStep, SignerStep, Forward, R.Advances, MirrorKey;
    ForwardReflexive(w.db);
    TableStepExtends(s, w, step);
    SignerStepFrame(s, w, step);
    SignerAdvances(s, w, step);
  }

  lemma DoExtends(s: Setting, y: System, act: Act)
    requires L.CipherLaw(s.env) && SystemInv(s, y)
    ensures Extends(y.w, Do(s, y, act).w)
  {
    hide Inv, L.CipherLaw, Next, Forward, R.Advances, WriteOf, L.Append, R.Refines, L.Replay, L.OneRecordPerAction,
        L.Revalidates,
        RecordBacked, R.Orphan;
    ForwardReflexive(y.w.db);
    AdvancesReflexive(y.w.signer.byID);
    match act
    case Does(step, disk) => NextExtends(s, y.w, step);
    case Reopens(_, _) =>
      var m := L.Signer(y.w.signer, y.journal);
      R.ReplayIsDurable(s.env, m);
      R.RestartAdvances(s.env, m);
  }

  lemma {:induction false} RunExtends(s: Setting, y: System, acts: seq<Act>, i: nat)
    requires L.CipherLaw(s.env) && Initial(y) && i <= |acts|
    ensures Extends(Run(s, y, acts[..i]).w, Run(s, y, acts).w)
    decreases |acts|
  {
    hide Inv, SystemInv, L.CipherLaw, Do, Initial, Forward, R.Advances;
    if i == |acts| {
      assert acts[..i] == acts;
      ForwardReflexive(Run(s, y, acts).w.db);
      AdvancesReflexive(Run(s, y, acts).w.signer.byID);
    } else {
      var prefix := acts[..|acts| - 1];
      assert prefix[..i] == acts[..i];
      RunExtends(s, y, prefix, i);
      RunKeeps(s, y, prefix);
      DoExtends(s, Run(s, y, prefix), acts[|acts| - 1]);
      var a, b, c := Run(s, y, acts[..i]).w, Run(s, y, prefix).w, Run(s, y, acts).w;
      ForwardTransitive(a.db, b.db, c.db);
      R.AdvancesTransitive(a.signer.byID, b.signer.byID, c.signer.byID);
    }
  }

  /**
    Once a reservation is released, it stays released, and from then on no handle bound to it is ever activated and
    its signature is never handed out, whoever asks and whenever.
   */
  lemma ReleasedReservationStaysUnsigned(s: Setting, y: System, acts: seq<Act>, i: nat, id: string, h: string,
        keeperID: string, now: Clock)
    requires L.CipherLaw(s.env) && Initial(y) && i <= |acts|
    requires var t := Run(s, y, acts[..i]).w.db; id in t.reservations && t.reservations[id].state == Released
    ensures var v := Run(s, y, acts).w;
            && id in v.db.reservations && v.db.reservations[id].state == Released
            && (h in v.signer.byID && v.signer.byID[h].handle.binding.reservationID == id ==>
                  && !L.Activated(v.signer.byID[h].handle.state)
                  && L.PlanRelease(s.env, v.signer, now, h, keeperID) in
                       {L.Answer(L.Failed(L.WrongKeeper)), L.Answer(L.Failed(L.BadTransition))})
  {
    hide Run, L.CipherLaw, Initial, L.ValidRecord, Progress, R.Advances;
    RunExtends(s, y, acts, i);
    var v := Run(s, y, acts).w;
    if h in v.signer.byID && v.signer.byID[h].handle.binding.reservationID == id
        && L.Activated(v.signer.byID[h].handle.state) {
      ActivationSafety(s, y, acts, h);
    }
  }

  /**
    Advance is crash-idempotent. However often any workers repeat any step, a request that has a
    handle keeps it, it is the signer's one handle for the request's operation and action, its
    registry entry keeps its mirrored content, and its mirror object keeps its bytes and digest.
   */
  lemma AdvanceIsIdempotent(s: Setting, y: System, acts: seq<Act>, i: nat, id: string)
    requires L.CipherLaw(s.env) && Initial(y) && i <= |acts|
    requires id in Run(s, y, acts[..i]).w.db.requests && Run(s, y, acts[..i]).w.db.requests[id].handle != ""
    ensures var (then', now') := (Run(s, y, acts[..i]).w, Run(s, y, acts).w);
            var input := then'.db.requests[id].input;
            var key := L.ActionKey(input.operationID, input.actionID);
            && id in now'.db.requests && now'.db.requests[id].input == input
                && now'.db.requests[id].handle == then'.db.requests[id].handle
            && key in now'.signer.byAction && now'.signer.byAction[key] == then'.db.requests[id].handle
            && (input.digest in then'.db.registry ==>
                  input.digest in now'.db.registry && MirrorObject(now'.db.registry[input.digest])
                      == MirrorObject(then'.db.registry[input.digest]))
            && (MirrorKey(input.digest) in then'.mirror ==>
                  MirrorKey(input.digest) in now'.mirror && now'.mirror[MirrorKey(input.digest)]
                      == then'.mirror[MirrorKey(input.digest)])
  {
    hide Run, Inv, L.CipherLaw, Initial, R.Advances, MirrorKey, L.ActionKey, MirrorObject, ReservationMoves;
    RunExtends(s, y, acts, i);
    RunKeeps(s, y, acts);
    var then', now' := Run(s, y, acts[..i]).w, Run(s, y, acts).w;
    assert Progress(then'.db.requests[id], now'.db.requests[id]);
    RowHandleIsSigners(s, now', id);
  }

  lemma RowHandleIsSigners(s: Setting, v: World, id: string)
    requires Inv(s, v) && id in v.db.requests && v.db.requests[id].handle != ""
    ensures var r := v.db.requests[id];
            var key := L.ActionKey(r.input.operationID, r.input.actionID);
            key in v.signer.byAction && v.signer.byAction[key] == r.handle
  {
    hide Consistent, MirrorBacked, MessagesBacked, L.ValidRecord, MirrorKey, Doomed, HandleJustified, L.ActionKey;
    var h := v.db.requests[id].handle;
    assert RowBacked(v, id) && RecordBacked(s, v, v.signer.byID[h]);
  }

  /** In every reachable state each outbox message is pending in exactly one stage of its request. */
  lemma OutboxFollowsProgress(s: Setting, y: System, acts: seq<Act>, id: string)
    requires L.CipherLaw(s.env) && Initial(y) && id in Run(s, y, acts).w.db.requests
    ensures var t := Run(s, y, acts).w.db;
            var r := t.requests[id];
            && (IsPending(t, id, SignPrepare) <==> r.state == SignRequested)
            && (IsPending(t, id, Mirror) <==> r.state == ActivePendingMirror)
            && (IsPending(t, id, Ack) <==> r.state == ActiveMirrored)
            && (IsPending(t, id, SecondaryMirror) <==> Mirrored(r.state))
            && (r.input.digest in t.registry <==> ActiveState(r.state))
            && (r.input.operationID in t.payments <==> ActiveState(r.state))
            && (r.handle in t.handles <==> ActiveState(r.state))
            && r.input.reservationID in t.reservations
                && t.reservations[r.input.reservationID].state == ReservationFor(r.state)
  {
    hide Run, Inv, L.CipherLaw, Initial, Consistent, IsPending, Mirrored, ActiveState, ReservationFor;
    RunKeeps(s, y, acts);
    InvTables(s, Run(s, y, acts).w);
    PendingFollows(s.cfg, Run(s, y, acts).w.db, id);
    DerivedRowsFollow(s.cfg, Run(s, y, acts).w.db, id);
  }

  lemma PendingFollows(cfg: Config, t: Tables, id: string)
    requires Consistent(cfg, t) && id in t.requests
    ensures IsPending(t, id, SignPrepare) <==> t.requests[id].state == SignRequested
    ensures IsPending(t, id, Mirror) <==> t.requests[id].state == ActivePendingMirror
    ensures IsPending(t, id, Ack) <==> t.requests[id].state == ActiveMirrored
    ensures IsPending(t, id, SecondaryMirror) <==> Mirrored(t.requests[id].state)
  {
    hide Consistent, HandleFollows, MirrorFollows, ShapeFollows, DerivedFollow;
    ConsistentRow(cfg, t, id);
  }

  lemma DerivedRowsFollow(cfg: Config, t: Tables, id: string)
    requires Consistent(cfg, t) && id in t.requests
    ensures var r := t.requests[id];
            && (r.input.digest in t.registry <==> ActiveState(r.state))
            && (r.input.operationID in t.payments <==> ActiveState(r.state))
            && (r.handle in t.handles <==> ActiveState(r.state))
            && r.input.reservationID in t.reservations
                && t.reservations[r.input.reservationID].state == ReservationFor(r.state)
  {
    hide Consistent, OutboxFollows, MirrorFollows, ShapeFollows, OpaqueHandle;
    ConsistentRow(cfg, t, id);
    NoEmptyHandle(cfg, t);
    if ActiveState(t.requests[id].state) { ActiveHasHandle(cfg, t, id); }
  }

  lemma NoEmptyHandle(cfg: Config, t: Tables)
    requires Consistent(cfg, t)
    ensures "" !in t.handles
  {
    hide RowConsistent, RowsDistinct;
  }

  lemma ActiveHasHandle(cfg: Config, t: Tables, id: string)
    requires Consistent(cfg, t) && id in t.requests && ActiveState(t.requests[id].state)
    ensures t.requests[id].handle != ""
  {
    hide Hash, Identifier, RowsDistinct, NoOrphans;
    ConsistentRow(cfg, t, id);
  }

  // ---------- When a table transaction succeeds in a reachable state ----------

  lemma {:induction false} SystemRunKeeps(s: Setting, y: System, acts: seq<Act>)
    requires L.CipherLaw(s.env) && SystemInv(s, y)
    ensures SystemInv(s, Run(s, y, acts))
  {
    hide SystemInv, Do, L.CipherLaw;
    if |acts| > 0 {
      SystemRunKeeps(s, y, acts[..|acts| - 1]);
      DoKeeps(s, Run(s, y, acts[..|acts| - 1]), acts[|acts| - 1]);
    }
  }

  /** A handle the signer gave for this request is recorded in no other row. */
  lemma HandleIsNobodyElses(s: Setting, w: World, id: string, handle: string)
    requires Inv(s, w) && (id, handle) in w.prepared && id in w.db.requests && w.db.requests[id].state == SignRequested
    ensures OpaqueHandle(handle) && forall o | o in w.db.requests :: w.db.requests[o].handle != handle
  {
    hide Inv, OpaqueHandle, RowBacked, L.ValidBinding;
    PreparedIsBacked(s, w, (id, handle));
    RecordIsBacked(s, w, handle);
    InvTables(s, w);
    OpaqueHandlesAreNamed(handle);
    forall o | o in w.db.requests ensures w.db.requests[o].handle != handle {
      if o == id { NoHandleYet(s.cfg, w.db, id); } else if w.db.requests[o].handle == handle { RowOwnsHandle(s, w, o); }
    }
  }

  lemma OpaqueHandlesAreNamed(handle: string)
    requires OpaqueHandle(handle)
    ensures handle != ""
  {
  }

  lemma NoHandleYet(cfg: Config, t: Tables, id: string)
    requires Consistent(cfg, t) && id in t.requests && t.requests[id].state == SignRequested
    ensures t.requests[id].handle == ""
  {
    hide Hash, Identifier, RowsDistinct, NoOrphans;
    ConsistentRow(cfg, t, id);
  }

  lemma RowOwnsHandle(s: Setting, w: World, id: string)
    requires Inv(s, w) && id in w.db.requests && w.db.requests[id].handle != ""
    ensures OwnHandle(w.signer, id, w.db.requests[id].handle)
  {
    hide Consistent, L.Indexed, RecordBacked, MirrorBacked, MessagesBacked, MirrorKey;
    assert RowBacked(w, id);
  }

  lemma RecordPreparedSucceeds(s: Setting, w: World, held: Held, id: string, handle: string, now: Time)
    requires Inv(s, w) && (id, handle) in w.prepared && id in w.db.requests && w.db.requests[id].state == SignRequested
    ensures RecordPrepared(s.cfg, w.db, Some(held), id, handle, now).1.Ok? <==>
              LeaseHolds(s.cfg, w.db, Some(held), id, now) && now < w.db.requests[id].input.validUntil
  {
    hide Inv, Hash, OpaqueHandle, LeaseHolds, Consistent;
    HandleIsNobodyElses(s, w, id, handle);
    InvTables(s, w);
    PendingFollows(s.cfg, w.db, id);
    RowHash(s.cfg, w.db, id);
    NoHandleYet(s.cfg, w.db, id);
    OpaqueHandlesAreNamed(handle);
  }

  lemma RowHash(cfg: Config, t: Tables, id: string)
    requires Consistent(cfg, t) && id in t.requests
    ensures Hash(id) && t.requests[id].input.requestID == id
  {
    hide Hash, Identifier, OpaqueHandle, RowsDistinct, NoOrphans;
    ConsistentRow(cfg, t, id);
  }

  /** The registry entry of another request differs from this request's in every unique column. */
  lemma OtherEntry(cfg: Config, t: Tables, id: string, now: Time, d: string)
    requires Consistent(cfg, t) && id in t.requests && t.requests[id].state == HandlePrepared && d in t.registry
    ensures var e := EntryFor(t.requests[id], now);
            && e.digest != d && t.registry[d].signatureRef != e.signatureRef
                && t.registry[d].operationID != e.operationID
            && t.registry[d].authorizationID != e.authorizationID && t.registry[d].reservationID != e.reservationID
  {
    hide Hash, Identifier, OpaqueHandle, MirrorDigest, OutboxFollows;
    var o :| HasDigest(t.requests, o, d);
    ConsistentRow(cfg, t, o);
    ConsistentRow(cfg, t, id);
    PreparedHasHandle(cfg, t, id);
  }

  lemma PreparedHasHandle(cfg: Config, t: Tables, id: string)
    requires Consistent(cfg, t) && id in t.requests && t.requests[id].state == HandlePrepared
    ensures t.requests[id].handle != ""
  {
    hide Hash, Identifier, RowsDistinct, NoOrphans;
    ConsistentRow(cfg, t, id);
  }

  /** The execution authorization of the request names its operation and reservation. */
  predicate Authorizes(t: Tables, i: ActivationInput) {
    && i.authorizationID in t.authorizations && t.authorizations[i.authorizationID].intentID == i.operationID
    && t.authorizations[i.authorizationID].reservationID == i.reservationID
  }

  predicate Unexpired(t: Tables, reservationID: string, now: Time) {
    reservationID in t.reservations && now < t.reservations[reservationID].expiresAt
  }

  lemma ActivateSucceeds(cfg: Config, t: Tables, held: Held, id: string, now: Time, committed: bool)
    requires Consistent(cfg, t) && id in t.requests && t.requests[id].state == HandlePrepared
    ensures var i := t.requests[id].input;
            Activate(cfg, t, Some(held), id, now, committed).1.Ok? <==>
              && LeaseHolds(cfg, t, Some(held), id, now) && i.validAfter <= now < i.validUntil
              && Authorizes(t, i) && Unexpired(t, i.reservationID, now) && committed
  {
    hide Hash, LeaseHolds, Consistent, InsertOutbox;
    var r := t.requests[id];
    RowHash(cfg, t, id);
    PreparedHasHandle(cfg, t, id);
    DerivedRowsFollow(cfg, t, id);
    forall d | d in t.registry ensures t.registry[d].signatureRef != r.handle
        && t.registry[d].operationID != r.input.operationID
        && t.registry[d].authorizationID != r.input.authorizationID
        && t.registry[d].reservationID != r.input.reservationID {
      OtherEntry(cfg, t, id, now, d);
    }
  }

  lemma MirrorSucceeds(s: Setting, w: World, id: string)
    requires Inv(s, w) && id in w.db.requests && w.db.requests[id].state == ActivePendingMirror
    ensures var d := w.db.requests[id].input.digest;
            && d in w.db.registry && w.db.registry[d].digest == d
            && PutSucceeds(w.mirror, MirrorKey(d), Stored(MirrorObject(w.db.registry[d]), MirrorDigest(s.cfg,
                w.db.registry[d])))
  {
    hide Consistent, L.Indexed, RowBacked, RecordBacked, MessagesBacked, MirrorKey, MirrorObject, MirrorDigest;
    DerivedRowsFollow(s.cfg, w.db, id);
    EntryDigest(s.cfg, w.db, w.db.requests[id].input.digest);
  }

  lemma MarkMirroredSucceeds(cfg: Config, t: Tables, held: Held, id: string, now: Time)
    requires Consistent(cfg, t) && id in t.requests && t.requests[id].state == ActivePendingMirror
    requires t.requests[id].input.digest in t.registry
    ensures var digest := MirrorDigest(cfg, t.registry[t.requests[id].input.digest]);
            MarkPrimaryMirrored(cfg, t, Some(held), id, digest, now).1.Ok? <==>
              LeaseHolds(cfg, t, Some(held), id, now) && Hash(digest)
  {
    hide Hash, LeaseHolds, Consistent, MirrorDigest, InsertOutbox;
    RowHash(cfg, t, id);
    PendingFollows(cfg, t, id);
  }

  lemma MarkAcknowledgedSucceeds(cfg: Config, t: Tables, held: Held, id: string, now: Time)
    requires Consistent(cfg, t) && id in t.requests && t.requests[id].state == ActiveMirrored
    ensures MarkAcknowledged(cfg, t, Some(held), id, t.requests[id].handle, now).1.Ok? <==>
              LeaseHolds(cfg, t, Some(held), id, now)
  {
    hide Hash, OpaqueHandle, LeaseHolds, Consistent;
    RowHash(cfg, t, id);
    PendingFollows(cfg, t, id);
    MirroredHandle(cfg, t, id);
  }

  lemma MirroredHandle(cfg: Config, t: Tables, id: string)
    requires Consistent(cfg, t) && id in t.requests && t.requests[id].state == ActiveMirrored
    ensures OpaqueHandle(t.requests[id].handle)
  {
    hide Hash, Identifier, OpaqueHandle, RowsDistinct, NoOrphans;
    ConsistentRow(cfg, t, id);
  }

  // ---------- A record after a "no record" proof ----------

  /**
    A "no record" expiry proof does not stop a Prepare: it persists exactly when its own clock reading, taken before
    it waited for the lock, is inside the window and an unused ID and the cipher answer. When the proof was given
    plays no part.
   */
  lemma PreparedAfterNoRecordProof(env: L.Env, signer: L.SignerState, prove: L.Call, call: L.Call)
    requires L.Indexed(signer) && prove.Prove? && call.Prepare?
    requires call.input.binding.operationID == prove.operationID && call.input.binding.actionID == prove.actionID
    requires var plan := L.PlanOf(env, signer, prove); plan.reply.Unactivated? && plan.reply.proof.handleID == ""
    ensures L.PlanOf(env, signer, prove).Answer?
    ensures L.PlanOf(env, signer, call).Persist? <==>
              && L.ValidPrepare(call.now, call.input) && call.nonce.Some?
              && var id := L.PickID(signer.byID, call.candidates, 3); id.Some? && id.value != ""
  {
    hide Hash, Identifier, L.ArtifactAAD, L.ActionKey, L.ValidPrepare, L.ValidBinding;
  }

  /**
    Why such a record is harmless. With runtime leases, once the signer has given an expiry proof for a request, in
    every later state the request is not active, none of its handles is ACTIVE, RELEASED or TERMINAL, and no worker
    that can still write to it can activate it.
   */
  lemma ExpiryProofIsFinal(s: Setting, y: System, acts: seq<Act>, i: nat, p: L.UnactivatedProof, held: Held,
        now: Clock, committed: bool)
    requires L.CipherLaw(s.env) && Initial(y) && s.cfg.leasesRequired && i <= |acts|
        && p in Run(s, y, acts[..i]).w.proofs
    ensures var v := Run(s, y, acts).w;
            && p.requestID in v.db.requests && !ActiveState(v.db.requests[p.requestID].state)
            && (forall h | h in v.signer.byID && v.signer.byID[h].handle.binding.requestID == p.requestID ::
                  !L.Activated(v.signer.byID[h].handle.state))
            && (Timely(s, v, held, now) ==> Activate(s.cfg, v.db, Some(held), p.requestID, now, committed).0 == v.db)
  {
    hide Run, Inv, L.CipherLaw, Initial, L.ValidRecord, Activate, OwnHandle, HandleBound;
    RunKeeps(s, y, acts);
    ProofsGrow(s, y, acts, i);
    var v := Run(s, y, acts).w;
    ProofIsBacked(s, v, p);
    forall h | h in v.signer.byID && v.signer.byID[h].handle.binding.requestID == p.requestID
      ensures !L.Activated(v.signer.byID[h].handle.state)
    {
      RecordIsBacked(s, v, h);
    }
    if Timely(s, v, held, now) { ActivationIsNotDoomed(s, v, held, p.requestID, now, committed); }
  }

  lemma NextKeepsProofs(s: Setting, w: World, step: Step)
    ensures w.proofs <= Next(s, w, step).proofs
  {
    hide Authorize, Create, Claim, ReturnLease, RecordPrepared, Activate, MarkPrimaryMirrored, MarkAcknowledged, Refuse,
        ExpireUnactivated, L.PreparedFor, Timely, MirrorKey, MirrorDigest, L.PlanPrepare, L.PlanActivate, L.PlanProve,
            L.PlanRelease,
        L.PlanFinalize, ValidInput, R.Ordinary, After;
  }

  lemma {:induction false} ProofsGrow(s: Setting, y: System, acts: seq<Act>, i: nat)
    requires i <= |acts|
    ensures Run(s, y, acts[..i]).w.proofs <= Run(s, y, acts).w.proofs
    decreases |acts|
  {
    hide Next, WriteOf, L.Append, R.Restart;
    if i == |acts| {
      assert acts[..i] == acts;
    } else {
      var prefix := acts[..|acts| - 1];
      assert prefix[..i] == acts[..i];
      ProofsGrow(s, y, prefix, i);
      var last := acts[|acts| - 1];
      if last.Does? { NextKeepsProofs(s, Run(s, y, prefix).w, last.step); }
    }
  }
}
