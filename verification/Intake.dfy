/** Intake: one operation per idempotency scope and per quote nonce, and a snapshot that restores both indexes. */
module Intake {
  import opened Text
  import opened Ordering

  const ENDPOINT: string := "ascp.intent.create"
  const NUL: char := '\0'

  datatype Operation = Operation(
    operationID: string, organizationID: string, actorID: string, quoteHash: string, purchaseSpecHash: string,
        quoteNonce: string,
    directoryVersion: nat, directoryContract: string, sellerSigner: string, adaptationGrantID: string, createdAt: int)

  datatype Record = Record(hash: string, operation: Operation)

  /** An adaptation grant; `consumedBy` is empty until an operation consumes it. */
  datatype Grant = Grant(originalIntentID: string, reasonClass: string, digest: string, requestHash: string,
        consumedBy: string)

  datatype Store = Store(
    byScope: map<string, Record>, byNonce: map<string, string>, grants: map<string, Grant>,
        byOriginalIntent: map<string, string>)

  const EMPTY: Store := Store(map[], map[], map[], map[])

  datatype Input = Input(operation: Operation, idempotencyKey: string, inputHash: string, grantID: string,
        grantDigest: string)

  datatype Tombstone = Tombstone(organizationID: string, actorID: string, idempotencyKey: string, inputHash: string,
        operation: Operation)

  datatype Error = IdempotencyConflict | QuoteNonceConsumed | InvalidGrant | GrantConsumed | IssueConflict
      | InvalidSnapshot

  datatype Result<+T> = Ok(value: T) | Err(error: Error)

  function Scope(organizationID: string, actorID: string, key: string): string {
    Join([organizationID, actorID, ENDPOINT, key], NUL)
  }

  /** `Ok((operation, replayed))`. */
  function Create(s: Store, i: Input): (Store, Result<(Operation, bool)>) {
    var scope := Scope(i.operation.organizationID, i.operation.actorID, i.idempotencyKey);
    if scope in s.byScope then
      (s, if s.byScope[scope].hash != i.inputHash then Err(IdempotencyConflict)
          else Ok((s.byScope[scope].operation, true)))
    else if i.operation.quoteNonce in s.byNonce then (s, Err(QuoteNonceConsumed))
    else if i.grantID != "" && (i.grantID !in s.grants || s.grants[i.grantID].digest != i.grantDigest)
        then (s, Err(InvalidGrant))
    else if i.grantID != "" && s.grants[i.grantID].consumedBy != "" then (s, Err(GrantConsumed))
    else
      (s.(byScope := s.byScope[scope := Record(i.inputHash, i.operation)],
          byNonce := s.byNonce[i.operation.quoteNonce := i.operation.operationID],
          grants := if i.grantID == "" then s.grants
                    else s.grants[i.grantID := s.grants[i.grantID].(consumedBy := i.operation.operationID)]),
       Ok((i.operation, false)))
  }

  /**
    One grant per original intent; `valid` is the verdict of ValidateRecord. A grant ID is not checked for
    being new.
   */
  function Issue(s: Store, id: string, g: Grant, valid: bool): (Store, Result<(Grant, bool)>) {
    if !valid then (s, Err(InvalidGrant))
    else if g.originalIntentID in s.byOriginalIntent then
      var known := s.byOriginalIntent[g.originalIntentID];
      if known !in s.grants || s.grants[known].requestHash != g.requestHash
          || s.grants[known].reasonClass != g.reasonClass
      then (s, Err(IssueConflict)) else (s, Ok((s.grants[known], true)))
    else
      (s.(grants := s.grants[id := g], byOriginalIntent := s.byOriginalIntent[g.originalIntentID := id]),
          Ok((g, false)))
  }

  datatype Step = Created(input: Input) | Issued(grantID: string, grant: Grant, valid: bool)

  function Next(s: Store, step: Step): Store {
    match step
    case Created(i) => Create(s, i).0
    case Issued(id, g, valid) => Issue(s, id, g, valid).0
  }

  function Run(steps: seq<Step>): Store {
    if |steps| == 0 then EMPTY else Next(Run(steps[..|steps| - 1]), steps[|steps| - 1])
  }

  // ---------- The nonce index ----------

  predicate Claims(s: Store, scope: string, nonce: string) {
    scope in s.byScope && s.byScope[scope].operation.quoteNonce == nonce
  }

  predicate IsScopeOf(scope: string, o: Operation, key: string) {
    scope == Scope(o.organizationID, o.actorID, key)
  }

  /** The scope names the owner of its operation. */
  ghost predicate Owned(scope: string, o: Operation) {
    exists key :: IsScopeOf(scope, o, key)
  }

  /** byNonce is the exact inverse of the nonces in byScope, and every scope names the owner of its operation. */
  ghost predicate Inverse(s: Store) {
    && (forall scope | scope in s.byScope :: var o := s.byScope[scope].operation;
        o.quoteNonce in s.byNonce && s.byNonce[o.quoteNonce] == o.operationID)
    && (forall nonce | nonce in s.byNonce :: exists scope :: Claims(s, scope, nonce))
    && (forall a, b, nonce | Claims(s, a, nonce) && Claims(s, b, nonce) :: a == b)
    && (forall scope | scope in s.byScope :: Owned(scope, s.byScope[scope].operation))
  }

  lemma CreateKeepsInverse(s: Store, i: Input)
    requires Inverse(s)
    ensures Inverse(Create(s, i).0)
  {
    hide Scope;
    var v := Create(s, i).0;
    if v != s {
      var scope := Scope(i.operation.organizationID, i.operation.actorID, i.idempotencyKey);
      assert IsScopeOf(scope, i.operation, i.idempotencyKey) && Claims(v, scope, i.operation.quoteNonce);
      forall nonce | nonce in v.byNonce ensures exists x :: Claims(v, x, nonce) {
        if nonce in s.byNonce {
          var x :| Claims(s, x, nonce);
          assert Claims(v, x, nonce);
        }
      }
      assert Owned(scope, i.operation);
      forall a, b, nonce | Claims(v, a, nonce) && Claims(v, b, nonce) ensures a == b {
        if a != scope && b != scope { assert Claims(s, a, nonce) && Claims(s, b, nonce); }
      }
    }
  }

  lemma {:induction false} RunKeepsInverse(steps: seq<Step>)
    ensures Inverse(Run(steps))
  {
    hide Create, Inverse;
    if |steps| == 0 {
      EmptyIsInverse();
    } else {
      RunKeepsInverse(steps[..|steps| - 1]);
      match steps[|steps| - 1]
      case Created(i) => CreateKeepsInverse(Run(steps[..|steps| - 1]), i);
      case Issued(_, _, _) => GrantsDoNotMatter(Run(steps[..|steps| - 1]), Run(steps));
    }
  }

  lemma EmptyIsInverse()
    ensures Inverse(EMPTY)
  {
  }

  lemma GrantsDoNotMatter(s: Store, v: Store)
    requires Inverse(s) && v.byScope == s.byScope && v.byNonce == s.byNonce
    ensures Inverse(v)
  {
    forall nonce | nonce in v.byNonce ensures exists scope :: Claims(v, scope, nonce) {
      var scope :| Claims(s, scope, nonce);
      assert Claims(v, scope, nonce);
    }
    forall a, b, nonce | Claims(v, a, nonce)
        && Claims(v, b, nonce) ensures a == b { assert Claims(s, a, nonce) && Claims(s, b, nonce); }
  }

  /** Over every run a nonce belongs to exactly the one operation that claimed it. */
  lemma OneOperationPerNonce(steps: seq<Step>, nonce: string, a: string, b: string)
    requires Claims(Run(steps), a, nonce) && Claims(Run(steps), b, nonce)
    ensures a == b && nonce in Run(steps).byNonce
        && Run(steps).byNonce[nonce] == Run(steps).byScope[a].operation.operationID
  {
    hide Run;
    RunKeepsInverse(steps);
  }

  lemma StepKeepsRecords(s: Store, step: Step, scope: string)
    requires scope in s.byScope
    ensures scope in Next(s, step).byScope && Next(s, step).byScope[scope] == s.byScope[scope]
  {
    hide Scope;
  }

  lemma {:induction false} RecordsAreFinal(steps: seq<Step>, i: nat, scope: string)
    requires i <= |steps| && scope in Run(steps[..i]).byScope
    ensures scope in Run(steps).byScope && Run(steps).byScope[scope] == Run(steps[..i]).byScope[scope]
    decreases |steps|
  {
    hide Next;
    if i == |steps| {
      assert steps[..i] == steps;
    } else {
      var before := steps[..|steps| - 1];
      assert before[..i] == steps[..i];
      RecordsAreFinal(before, i, scope);
      StepKeepsRecords(Run(before), steps[|steps| - 1], scope);
    }
  }

  /**
    A retry at any later time returns the first operation when the input is the same, and changes nothing
    either way.
   */
  lemma RetryReturnsFirst(steps: seq<Step>, i: nat, first: Input, retry: Input)
    requires i < |steps| && steps[i] == Created(first)
        && Create(Run(steps[..i]), first).1 == Ok((first.operation, false))
    requires retry.operation.organizationID == first.operation.organizationID
        && retry.operation.actorID == first.operation.actorID
    requires retry.idempotencyKey == first.idempotencyKey
    ensures Create(Run(steps), retry) ==
              (Run(steps), if retry.inputHash == first.inputHash then Ok((first.operation, true))
                  else Err(IdempotencyConflict))
  {
    hide Scope, Run;
    var scope := Scope(first.operation.organizationID, first.operation.actorID, first.idempotencyKey);
    assert steps[..i + 1][..i] == steps[..i] && steps[..i + 1][i] == steps[i];
    RunStep(steps[..i + 1]);
    RecordsAreFinal(steps, i + 1, scope);
  }

  lemma RunStep(steps: seq<Step>)
    requires |steps| > 0
    ensures Run(steps) == Next(Run(steps[..|steps| - 1]), steps[|steps| - 1])
  {
  }

  // ---------- Grants ----------

  /** Every grant's original intent is known. */
  ghost predicate IntentsKnown(s: Store) {
    forall id | id in s.grants :: s.grants[id].originalIntentID in s.byOriginalIntent
  }

  lemma {:induction false} RunKnowsIntents(steps: seq<Step>)
    ensures IntentsKnown(Run(steps))
  {
    hide Scope;
    if |steps| > 0 { RunKnowsIntents(steps[..|steps| - 1]); }
  }

  /** The step issues a grant for a new intent under the ID of an existing grant. */
  predicate Reissues(s: Store, step: Step, id: string) {
    step.Issued? && step.valid && step.grantID == id && step.grant.originalIntentID !in s.byOriginalIntent
  }

  predicate Holds(s: Store, id: string, g: Grant) {
    id in s.grants && s.grants[id] == g
  }

  /** One step leaves a consumed grant as it is exactly when it does not reissue its ID. */
  lemma StepKeepsConsumption(s: Store, step: Step, id: string, g: Grant)
    requires IntentsKnown(s) && Holds(s, id, g) && g.consumedBy != ""
    ensures Holds(Next(s, step), id, g) <==> !Reissues(s, step, id)
  {
    hide Scope;
  }

  ghost predicate HoldsFrom(steps: seq<Step>, i: nat, id: string, g: Grant) {
    forall k | i <= k <= |steps| :: Holds(Run(steps[..k]), id, g)
  }

  ghost predicate NeverReissued(steps: seq<Step>, i: nat, id: string) {
    forall k | i <= k < |steps| :: !Reissues(Run(steps[..k]), steps[k], id)
  }

  lemma HoldsOneMore(steps: seq<Step>, i: nat, id: string, g: Grant)
    requires i < |steps|
    ensures var before := steps[..|steps| - 1];
            && (HoldsFrom(steps, i, id, g) <==> HoldsFrom(before, i, id, g) && Holds(Run(steps), id, g))
            && (HoldsFrom(before, i, id, g) ==> Holds(Run(before), id, g))
  {
    hide Run, Holds;
    var before := steps[..|steps| - 1];
    assert steps[..|steps|] == steps && before[..|before|] == before;
    forall k | i <= k <= |before| ensures before[..k] == steps[..k] {}
  }

  lemma ReissuedOneMore(steps: seq<Step>, i: nat, id: string)
    requires i < |steps|
    ensures var before := steps[..|steps| - 1];
            NeverReissued(steps, i, id) <==>
              NeverReissued(before, i, id) && !Reissues(Run(before), steps[|steps| - 1], id)
  {
    hide Run, Reissues;
    var before := steps[..|steps| - 1];
    forall k | i <= k < |before| ensures before[..k] == steps[..k] && before[k] == steps[k] {}
  }

  /**
    A consumed grant stays consumed by the same operation through the whole run if and only if no later step issues a
    grant for another intent under its ID.
   */
  lemma {:induction false} GrantsAreConsumedOnce(steps: seq<Step>, i: nat, id: string, g: Grant)
    requires i <= |steps| && Holds(Run(steps[..i]), id, g) && g.consumedBy != ""
    ensures HoldsFrom(steps, i, id, g) <==> NeverReissued(steps, i, id)
    decreases |steps|
  {
    if i < |steps| {
      hide HoldsFrom, NeverReissued, Next, Holds, Reissues;
      var n := |steps| - 1;
      assert steps[..n][..i] == steps[..i];
      HoldsOneMore(steps, i, id, g);
      ReissuedOneMore(steps, i, id);
      GrantsAreConsumedOnce(steps[..n], i, id, g);
      RunKnowsIntents(steps[..n]);
      if Holds(Run(steps[..n]), id, g) { StepKeepsConsumption(Run(steps[..n]), steps[n], id, g); }
    }
  }

  function SampleOperation(id: string, nonce: string): Operation {
    Operation(id, "org", "actor", "", "", nonce, 0, "", "", "g", 0)
  }

  function SampleInput(id: string, key: string, digest: string): Input {
    Input(SampleOperation(id, id), key, "h", "g", digest)
  }

  /** Two different grants under one ID, each with its own digest and request hash. */
  function SampleRun(): seq<Step> {
    [Issued("g", Grant("i1", "r", "d1", "h1", ""), true), Created(SampleInput("o1", "a", "d1")),
     Issued("g", Grant("i2", "r", "d2", "h2", ""), true), Created(SampleInput("o2", "b", "d2"))]
  }

  /** It happens: reissued for another intent, one grant ID is consumed by two operations. */
  lemma ReissuedGrantWitness()
    ensures Holds(Run(SampleRun()[..2]), "g", Grant("i1", "r", "d1", "h1", "o1"))
    ensures Holds(Run(SampleRun()), "g", Grant("i2", "r", "d2", "h2", "o2"))
  {
    hide Scope, Run, Next;
    var s := SampleRun();
    DifferentScopes("org", "actor", "a", "b");
    EmptyRun();
    RunStep(s[..1]);
    RunStep(s[..2]);
    RunStep(s[..3]);
    RunStep(s);
    assert s[..1][..0] == [] && s[..2][..1] == s[..1] && s[..3][..2] == s[..2];
    var s2 := Consumed("i1", "d1", "h1", "o1", "a", EMPTY);
    var s4 := Consumed("i2", "d2", "h2", "o2", "b", s2);
  }

  lemma EmptyRun()
    ensures Run([]) == EMPTY
  {
  }

  /** A grant for a new intent is issued under the ID "g" and consumed by a new operation. */
  lemma Consumed(intent: string, digest: string, hash: string, id: string, key: string, s: Store) returns (v: Store)
    requires intent !in s.byOriginalIntent && id !in s.byNonce && Scope("org", "actor", key) !in s.byScope
    ensures v == Next(Next(s, Issued("g", Grant(intent, "r", digest, hash, ""), true)), Created(SampleInput(id, key,
        digest)))
    ensures Holds(v, "g", Grant(intent, "r", digest, hash, id))
    ensures v.byScope.Keys == s.byScope.Keys + {Scope("org", "actor", key)} && v.byNonce.Keys == s.byNonce.Keys + {id}
    ensures v.byOriginalIntent.Keys == s.byOriginalIntent.Keys + {intent}
  {
    hide Scope;
    v := Next(Next(s, Issued("g", Grant(intent, "r", digest, hash, ""), true)), Created(SampleInput(id, key, digest)));
  }

  lemma DifferentScopes(organizationID: string, actorID: string, a: string, b: string)
    requires a != b && Free(organizationID, NUL) && Free(actorID, NUL) && Free(a, NUL) && Free(b, NUL)
    ensures Scope(organizationID, actorID, a) != Scope(organizationID, actorID, b)
  {
    hide Scope, Split;
    ScopeSplits(organizationID, actorID, a);
    ScopeSplits(organizationID, actorID, b);
  }

  // ---------- Snapshot and restore ----------

  /** What SnapshotTombstones makes of one entry; parts 0, 1 and 3 of the split scope. */
  function TombstoneOf(scope: string, r: Record): Option<Tombstone> {
    var parts := Split(scope, NUL);
    if |parts| < 4 then None else Some(Tombstone(parts[0], parts[1], parts[3], r.hash, r.operation))
  }

  function RestoreOne(s: Store, t: Tombstone): Result<Store> {
    var scope := Scope(t.organizationID, t.actorID, t.idempotencyKey);
    if t.operation.organizationID != t.organizationID || t.operation.actorID != t.actorID || t.inputHash == ""
        || t.idempotencyKey == "" then Err(InvalidSnapshot)
    else if scope in s.byScope then Err(IdempotencyConflict)
    else if t.operation.quoteNonce in s.byNonce then Err(QuoteNonceConsumed)
    else Ok(s.(byScope := s.byScope[scope := Record(t.inputHash, t.operation)], byNonce :=
        s.byNonce[t.operation.quoteNonce := t.operation.operationID]))
  }

  function Restore(ts: seq<Tombstone>): Result<Store> {
    if ts == [] then Ok(EMPTY)
    else
      var before := Restore(ts[..|ts| - 1]);
      if before.Err? then before else RestoreOne(before.value, ts[|ts| - 1])
  }

  function Count(s: string, c: char): nat {
    if s == "" then 0 else (if s[0] == c then 1 else 0) + Count(s[1..], c)
  }

  lemma {:induction false} CountConcat(a: string, b: string, c: char)
    ensures Count(a + b, c) == Count(a, c) + Count(b, c)
  {
    if a == "" {
      assert a + b == b;
    } else {
      CountConcat(a[1..], b, c);
      assert (a + b)[1..] == a[1..] + b;
    }
  }

  lemma {:induction false} CountFree(s: string, c: char)
    ensures Count(s, c) == 0 <==> Free(s, c)
  {
    if s != "" {
      CountFree(s[1..], c);
      assert Free(s, c) <==> s[0] != c && Free(s[1..], c);
    }
  }

  lemma {:induction false} SplitCounts(s: string, c: char)
    ensures |Split(s, c)| == 1 + Count(s, c)
    decreases |s|
  {
    var n := Span(s, c);
    CountFree(s[..n], c);
    if n == |s| {
      assert s[..n] == s;
    } else {
      SplitCounts(s[n + 1..], c);
      assert s == s[..n] + ([c] + s[n + 1..]);
      CountConcat(s[..n], [c] + s[n + 1..], c);
      assert ([c] + s[n + 1..])[1..] == s[n + 1..];
    }
  }

  /** A scope splits into its four parts exactly when no identifier contains NUL. */
  lemma ScopeSplits(organizationID: string, actorID: string, key: string)
    ensures |Split(Scope(organizationID, actorID, key), NUL)| == 4
        <==> Free(organizationID, NUL) && Free(actorID, NUL) && Free(key, NUL)
    ensures |Split(Scope(organizationID, actorID, key), NUL)| == 4 ==>
        Split(Scope(organizationID, actorID, key), NUL) == [organizationID, actorID, ENDPOINT, key]
    ensures |Split(Scope(organizationID, actorID, key), NUL)| >= 4
  {
    var s := Scope(organizationID, actorID, key);
    ScopeText(organizationID, actorID, key);
    SplitCounts(s, NUL);
    CountFree(organizationID, NUL);
    CountFree(actorID, NUL);
    CountFree(key, NUL);
    if Free(organizationID, NUL) && Free(actorID, NUL)
        && Free(key, NUL) { SplitJoin([organizationID, actorID, ENDPOINT, key], NUL); }
  }

  function CountAll(parts: seq<string>, c: char): nat {
    if parts == [] then 0 else Count(parts[0], c) + CountAll(parts[1..], c)
  }

  lemma {:induction false} CountJoin(parts: seq<string>, c: char)
    requires parts != []
    ensures Count(Join(parts, c), c) == CountAll(parts, c) + |parts| - 1
  {
    if |parts| == 1 {
      assert parts[1..] == [];
    } else {
      CountJoin(parts[1..], c);
      assert Join(parts, c) == parts[0] + ([c] + Join(parts[1..], c));
      CountConcat(parts[0], [c] + Join(parts[1..], c), c);
      assert ([c] + Join(parts[1..], c))[1..] == Join(parts[1..], c);
    }
  }

  lemma ScopeText(organizationID: string, actorID: string, key: string)
    ensures Count(Scope(organizationID, actorID, key), NUL) == Count(organizationID, NUL) + Count(actorID, NUL)
        + Count(key, NUL) + 3
  {
    hide Join, Count;
    var parts := [organizationID, actorID, ENDPOINT, key];
    CountJoin(parts, NUL);
    assert parts[1..] == [actorID, ENDPOINT, key] && [actorID, ENDPOINT, key][1..] == [ENDPOINT, key]
        && [ENDPOINT, key][1..] == [key];
    assert CountAll([key], NUL) == Count(key, NUL)
        && CountAll([ENDPOINT, key], NUL) == Count(ENDPOINT, NUL) + CountAll([key], NUL);
    CountFree(ENDPOINT, NUL);
  }

  /** The scope can be taken apart again and its tombstone is accepted: four parts, a key and a hash. */
  predicate Portable(scope: string, r: Record) {
    var parts := Split(scope, NUL);
    |parts| == 4 && parts[3] != "" && r.hash != ""
  }

  /** A tombstone rebuilds the entry it was made of exactly when the entry is portable. */
  lemma TombstoneRebuilds(scope: string, r: Record)
    requires Owned(scope, r.operation)
    ensures TombstoneOf(scope, r).Some?
    ensures var t := TombstoneOf(scope, r).value;
            && (Portable(scope, r) ==> Scope(t.organizationID, t.actorID, t.idempotencyKey) == scope
                                       && t.organizationID == r.operation.organizationID
                                           && t.actorID == r.operation.actorID
                                       && t.inputHash == r.hash != "" && t.idempotencyKey != ""
                                           && t.operation == r.operation)
            && |Split(Scope(t.organizationID, t.actorID, t.idempotencyKey), NUL)| == 4
            && (&& Scope(t.organizationID, t.actorID, t.idempotencyKey) == scope
                && t.inputHash != "" && t.idempotencyKey != ""
                ==> Portable(scope, r))
  {
    hide Scope, Split;
    var key :| IsScopeOf(scope, r.operation, key);
    ScopeSplits(r.operation.organizationID, r.operation.actorID, key);
    var parts := Split(scope, NUL);
    PartsAreFree(scope);
    ScopeSplits(parts[0], parts[1], parts[3]);
  }

  lemma PartsAreFree(scope: string)
    ensures AllFree(Split(scope, NUL), NUL)
  {
  }

  /** The entries listed in `order`, as SnapshotTombstones would emit them. */
  function Snapshot(s: Store, order: seq<string>): seq<Tombstone>
    requires forall k | 0 <= k < |order| :: order[k] in s.byScope && TombstoneOf(order[k], s.byScope[order[k]]).Some?
  {
    seq(|order|, k requires 0 <= k < |order| => TombstoneOf(order[k], s.byScope[order[k]]).value)
  }

  /** `r` holds exactly the entries of `s` listed in `order`, with their nonces. */
  ghost predicate IsPart(r: Store, s: Store, order: seq<string>) {
    && (forall scope :: scope in r.byScope <==> scope in order)
    && (forall scope | scope in r.byScope :: scope in s.byScope && r.byScope[scope] == s.byScope[scope])
    && (forall nonce | nonce in r.byNonce :: nonce in s.byNonce && r.byNonce[nonce] == s.byNonce[nonce])
    && (forall nonce :: nonce in r.byNonce <==> exists scope :: scope in order && Claims(s, scope, nonce))
    && r.grants == map[] && r.byOriginalIntent == map[]
  }

  ghost predicate Enumerates(s: Store, order: seq<string>) {
    NoDuplicates(order) && forall scope :: scope in order <==> scope in s.byScope
  }

  lemma RestoreNext(s: Store, order: seq<string>, r: Store, scope: string)
    requires Inverse(s) && IsPart(r, s, order) && scope in s.byScope && scope !in order
        && Portable(scope, s.byScope[scope])
    ensures TombstoneOf(scope, s.byScope[scope]).Some?
    ensures var next := RestoreOne(r, TombstoneOf(scope, s.byScope[scope]).value);
        next.Ok? && IsPart(next.value, s, order + [scope])
  {
    hide Scope, Portable, TombstoneOf, Owned;
    var record := s.byScope[scope];
    TombstoneRebuilds(scope, record);
    var nonce := record.operation.quoteNonce;
    assert Claims(s, scope, nonce);
    var next := RestoreOne(r, TombstoneOf(scope, record).value).value;
    forall n ensures n in next.byNonce <==> exists x :: x in order + [scope] && Claims(s, x, n) {
      if n in r.byNonce {
        var x :| x in order && Claims(s, x, n);
        assert x in order + [scope];
      }
    }
  }

  lemma {:induction false} PortableRestores(s: Store, order: seq<string>)
    requires Inverse(s) && NoDuplicates(order) && forall k | 0 <= k < |order| ::
        order[k] in s.byScope && Portable(order[k], s.byScope[order[k]])
    ensures forall k | 0 <= k < |order| :: TombstoneOf(order[k], s.byScope[order[k]]).Some?
    ensures Restore(Snapshot(s, order)).Ok? && IsPart(Restore(Snapshot(s, order)).value, s, order)
  {
    hide Inverse, Portable, TombstoneOf, RestoreOne, IsPart;
    if order == [] {
      EmptyPart(s);
      assert Snapshot(s, order) == [];
    } else {
      var before, scope := order[..|order| - 1], order[|order| - 1];
      PortableRestores(s, before);
      RestoreNext(s, before, Restore(Snapshot(s, before)).value, scope);
      assert order == before + [scope];
      assert Snapshot(s, order)[..|order| - 1] == Snapshot(s, before);
    }
  }

  lemma EmptyPart(s: Store)
    ensures IsPart(EMPTY, s, [])
  {
  }

  lemma WholePart(r: Store, s: Store, order: seq<string>)
    requires Inverse(s) && Enumerates(s, order) && IsPart(r, s, order)
    ensures r.byScope == s.byScope && r.byNonce == s.byNonce
  {
    hide Owned;
    forall nonce | nonce in s.byNonce ensures nonce in r.byNonce {
      var scope :| Claims(s, scope, nonce);
      assert scope in order;
    }
  }

  /** Whatever a restored store holds could be taken apart again. */
  ghost predicate AllPortable(s: Store) {
    forall scope | scope in s.byScope :: Portable(scope, s.byScope[scope])
  }

  lemma {:induction false} RestoredIsPortable(s: Store, order: seq<string>)
    requires forall k | 0 <= k < |order| :: order[k] in s.byScope && Owned(order[k], s.byScope[order[k]].operation)
    requires forall k | 0 <= k < |order| :: TombstoneOf(order[k], s.byScope[order[k]]).Some?
    requires Restore(Snapshot(s, order)).Ok?
    ensures AllPortable(Restore(Snapshot(s, order)).value)
  {
    hide Scope, TombstoneOf;
    if order == [] {
      assert Snapshot(s, order) == [];
    } else {
      var before, scope := order[..|order| - 1], order[|order| - 1];
      assert Snapshot(s, order)[..|order| - 1] == Snapshot(s, before);
      RestoredIsPortable(s, before);
      TombstoneRebuilds(scope, s.byScope[scope]);
      var t := TombstoneOf(scope, s.byScope[scope]).value;
      ScopeSplits(t.organizationID, t.actorID, t.idempotencyKey);
    }
  }

  lemma AllHaveTombstones(s: Store, order: seq<string>)
    requires Inverse(s) && Enumerates(s, order)
    ensures forall k | 0 <= k < |order| :: order[k] in s.byScope && TombstoneOf(order[k], s.byScope[order[k]]).Some?
    ensures forall k | 0 <= k < |order| :: Owned(order[k], s.byScope[order[k]].operation)
  {
    hide TombstoneOf, Owned;
    forall k | 0 <= k < |order| ensures order[k] in s.byScope && Owned(order[k], s.byScope[order[k]].operation)
        && TombstoneOf(order[k], s.byScope[order[k]]).Some? {
      assert order[k] in order;
      TombstoneRebuilds(order[k], s.byScope[order[k]]);
    }
  }

  /**
    In whatever order the map is iterated, restoring a snapshot of a reachable store rebuilds both indexes
    exactly when every entry is portable: no identifier contains NUL, and key and hash are not empty.
   */
  lemma RestoreIsExact(steps: seq<Step>, order: seq<string>)
    requires Enumerates(Run(steps), order)
    ensures forall k | 0 <= k < |order| ::
        order[k] in Run(steps).byScope && TombstoneOf(order[k], Run(steps).byScope[order[k]]).Some?
    ensures var s := Run(steps);
            var r := Restore(Snapshot(s, order));
            (r.Ok? && r.value.byScope == s.byScope && r.value.byNonce == s.byNonce) <==> AllPortable(s)
  {
    hide Run, Inverse, Portable, TombstoneOf, Restore, IsPart;
    RunKeepsInverse(steps);
    var s := Run(steps);
    AllHaveTombstones(s, order);
    var r := Restore(Snapshot(s, order));
    if AllPortable(s) {
      PortableRestores(s, order);
      WholePart(r.value, s, order);
    }
    if r.Ok? { RestoredIsPortable(s, order); }
  }

  /** For a scope, portable means exactly that its three identifiers are free of NUL and that key and hash are there. */
  lemma PortableMeaning(o: Operation, key: string, hash: string)
    ensures Portable(Scope(o.organizationID, o.actorID, key), Record(hash, o)) <==>
              Free(o.organizationID, NUL) && Free(o.actorID, NUL) && Free(key, NUL) && key != "" && hash != ""
  {
    hide Scope, Split;
    ScopeSplits(o.organizationID, o.actorID, key);
  }
}
