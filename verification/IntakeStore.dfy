/** The intake store: two maps and a grant table changed in place, proved to be the steps of Intake. */
module IntakeStore {
  import opened Text
  import opened Ordering
  import opened Intake

  /** The tombstones of every entry, each once, in some order. */
  ghost predicate Lists(s: Store, ts: seq<Tombstone>) {
    exists order :: Enumerates(s, order) && HaveTombstones(s, order) && ts == Snapshot(s, order)
  }

  ghost predicate HaveTombstones(s: Store, order: seq<string>) {
    forall k | 0 <= k < |order| :: order[k] in s.byScope && TombstoneOf(order[k], s.byScope[order[k]]).Some?
  }

  class MemoryStore {
    var byScope: map<string, Record>
    var byNonce: map<string, string>
    var grants: map<string, Grant>
    var byOriginalIntent: map<string, string>

    function Value(): Store
      reads this
    {
      Store(byScope, byNonce, grants, byOriginalIntent)
    }

    constructor ()
      ensures Value() == EMPTY
    {
      byScope, byNonce, grants, byOriginalIntent := map[], map[], map[], map[];
    }

    method Create(i: Input) returns (r: Result<(Operation, bool)>)
      requires Inverse(Value())
      modifies this
      ensures (Value(), r) == Intake.Create(old(Value()), i) && Inverse(Value())
    {
      hide Scope, Inverse;
      CreateKeepsInverse(Value(), i);
      var scope := Scope(i.operation.organizationID, i.operation.actorID, i.idempotencyKey);
      if scope in byScope {
        if byScope[scope].hash != i.inputHash { return Err(IdempotencyConflict); }
        return Ok((byScope[scope].operation, true));
      }
      if i.operation.quoteNonce in byNonce { return Err(QuoteNonceConsumed); }
      if i.grantID != "" {
        if i.grantID !in grants || grants[i.grantID].digest != i.grantDigest { return Err(InvalidGrant); }
        if grants[i.grantID].consumedBy != "" { return Err(GrantConsumed); }
        grants := grants[i.grantID := grants[i.grantID].(consumedBy := i.operation.operationID)];
      }
      byScope := byScope[scope := Record(i.inputHash, i.operation)];
      byNonce := byNonce[i.operation.quoteNonce := i.operation.operationID];
      return Ok((i.operation, false));
    }

    method Issue(id: string, g: Grant, valid: bool) returns (r: Result<(Grant, bool)>)
      modifies this`grants, this`byOriginalIntent
      ensures (Value(), r) == Intake.Issue(old(Value()), id, g, valid)
    {
      if !valid { return Err(InvalidGrant); }
      if g.originalIntentID in byOriginalIntent {
        var known := byOriginalIntent[g.originalIntentID];
        if known !in grants { return Err(IssueConflict); }
        if grants[known].requestHash != g.requestHash
            || grants[known].reasonClass != g.reasonClass { return Err(IssueConflict); }
        return Ok((grants[known], true));
      }
      grants := grants[id := g];
      byOriginalIntent := byOriginalIntent[g.originalIntentID := id];
      return Ok((g, false));
    }

    method Lookup(organizationID: string, actorID: string, key: string) returns (r: Option<(Operation, string)>)
      ensures r.Some? <==> Scope(organizationID, actorID, key) in byScope
      ensures r.Some? ==> r.value == (byScope[Scope(organizationID, actorID, key)].operation,
          byScope[Scope(organizationID, actorID, key)].hash)
    {
      hide Scope;
      var scope := Scope(organizationID, actorID, key);
      if scope !in byScope { return None; }
      return Some((byScope[scope].operation, byScope[scope].hash));
    }

    /** Every entry once, in the order the map happens to be iterated. */
    method SnapshotTombstones() returns (ts: seq<Tombstone>)
      requires Inverse(Value())
      ensures Lists(Value(), ts)
    {
      hide Inverse, TombstoneOf;
      ts := [];
      ghost var order: seq<string> := [];
      var left := byScope.Keys;
      while left != {}
        invariant left <= byScope.Keys && NoDuplicates(order)
            && (forall scope :: scope in order <==> scope in byScope && scope !in left)
        invariant forall k | 0 <= k < |order| :: order[k] in byScope && TombstoneOf(order[k], byScope[order[k]]).Some?
        invariant ts == Snapshot(Value(), order)
        decreases |left|
      {
        var scope :| scope in left;
        left := left - {scope};
        HasTombstone(Value(), scope);
        assert scope !in order;
        ts := ts + [TombstoneOf(scope, byScope[scope]).value];
        order := order + [scope];
      }
      assert Enumerates(Value(), order) && HaveTombstones(Value(), order);
    }
  }

  lemma HasTombstone(s: Store, scope: string)
    requires Inverse(s) && scope in s.byScope
    ensures TombstoneOf(scope, s.byScope[scope]).Some?
  {
    hide TombstoneOf, Owned;
    TombstoneRebuilds(scope, s.byScope[scope]);
  }

  /** NewMemoryStoreFromTombstones. */
  method FromTombstones(ts: seq<Tombstone>) returns (r: Result<MemoryStore>)
    ensures r.Ok? <==> Restore(ts).Ok?
    ensures r.Ok? ==> fresh(r.value) && r.value.Value() == Restore(ts).value
    ensures r.Err? ==> r.error == Restore(ts).error
  {
    hide Scope;
    var store := new MemoryStore();
    for k := 0 to |ts|
      invariant fresh(store) && Restore(ts[..k]) == Ok(store.Value())
    {
      var t := ts[k];
      assert ts[..k + 1][..k] == ts[..k];
      var scope := Scope(t.organizationID, t.actorID, t.idempotencyKey);
      if t.operation.organizationID != t.organizationID || t.operation.actorID != t.actorID || t.inputHash == ""
          || t.idempotencyKey == "" {
        FailureStays(ts, k + 1);
        return Err(InvalidSnapshot);
      }
      if scope in store.byScope {
        FailureStays(ts, k + 1);
        return Err(IdempotencyConflict);
      }
      if t.operation.quoteNonce in store.byNonce {
        FailureStays(ts, k + 1);
        return Err(QuoteNonceConsumed);
      }
      store.byScope := store.byScope[scope := Record(t.inputHash, t.operation)];
      store.byNonce := store.byNonce[t.operation.quoteNonce := t.operation.operationID];
    }
    assert ts[..|ts|] == ts;
    return Ok(store);
  }

  lemma {:induction false} FailureStays(ts: seq<Tombstone>, n: nat)
    requires n <= |ts| && Restore(ts[..n]).Err?
    ensures Restore(ts) == Restore(ts[..n])
    decreases |ts|
  {
    hide RestoreOne;
    if n == |ts| {
      assert ts[..n] == ts;
    } else {
      assert ts[..|ts| - 1][..n] == ts[..n];
      FailureStays(ts[..|ts| - 1], n);
    }
  }
}
