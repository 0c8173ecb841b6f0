/** The organization-wide event chain: building, verifying and appending hash-linked events. */
module EventChain {
  import opened Text
  import opened Utf
  import opened CanonicalJson

  /** A Go string or byte slice. */
  type Octets = seq<Byte>

  const SCHEMA_VERSION: nat := 1
  const MAX_PAYLOAD: nat := 1_048_576

  function Ascii(s: string): Octets {
    seq(|s|, i requires 0 <= i < |s| => if s[i] < 128 as char then s[i] as Byte else 0)
  }

  const ZERO_HASH: Octets := Ascii("0000000000000000000000000000000000000000000000000000000000000000")
  const EVENT_TAG: Octets := Ascii("ASCP_EVENT_V1") + [0]

  /** Schema version is the constant 1 in every event, so it is not a field. */
  datatype Event = Event(
    sequence: nat, eventID: Octets, organizationID: Octets, occurredAt: int, kind: Octets, actor: Octets,
        causationID: Octets,
    correlationID: Octets, entityRefs: map<Octets, Octets>, payload: Octets, supersedesEventID: Octets,
        previousHash: Octets,
    eventHash: Octets, writerKeyID: Octets, writerMAC: Octets)

  /** `entityRefs` is None for a nil map, which ranges like an empty one but prints as null. */
  datatype Input = Input(
    eventID: Octets, organizationID: Octets, occurredAt: int, kind: Octets, actor: Octets, causationID: Octets,
    correlationID: Octets, entityRefs: Option<map<Octets, Octets>>, payload: Json, supersedesEventID: Octets)

  datatype Writer = Writer(keyID: Octets, key: Octets)

  datatype Head = Head(sequence: nat, eventHash: Octets)

  /** SHA-256 in hexadecimal, HMAC-SHA-256 of an event hash, and the JSON decoder for stored payloads. */
  datatype Env = Env(sha: Octets -> Octets, mac: (Octets, Octets) -> Octets, decode: Octets -> Option<Json>)

  // ---------- Shapes ----------

  predicate HexHash(s: Octets) {
    |s| == 64 && forall i | 0 <= i < 64 :: 0x30 <= s[i] <= 0x39 || 0x61 <= s[i] <= 0x66
  }

  predicate Name(s: Octets, least: nat, most: nat) {
    && least <= |s| <= most && Valid(s)
    && var runes := Decode(s).value;
       && (forall i | 0 <= i < |runes| :: runes[i] >= 0x21 && runes[i] != 0x7F)
       && (runes != [] ==> !Space(runes[0]) && !Space(runes[|runes| - 1]))
  }

  /** cloneRefs, and what ranging over the refs meets. */
  function ClonedRefs(i: Input): map<Octets, Octets> {
    if i.entityRefs.None? then map[] else i.entityRefs.value
  }

  predicate ValidInput(i: Input) {
    && Name(i.eventID, 8, 200) && Name(i.organizationID, 3, 200) && Name(i.kind, 3, 200) && Name(i.actor, 3, 200)
    && Name(i.correlationID, 8, 200) && i.occurredAt > 0 && |ClonedRefs(i)| <= 32
    && (forall k | k in ClonedRefs(i) :: Name(k, 1, 100) && Name(ClonedRefs(i)[k], 1, 300))
    && (i.causationID == [] || Name(i.causationID, 8, 200))
        && (i.supersedesEventID == [] || Name(i.supersedesEventID, 8, 200))
  }

  function InputOf(e: Event): Input {
    Input(e.eventID, e.organizationID, e.occurredAt, e.kind, e.actor, e.causationID, e.correlationID,
        Some(e.entityRefs),
        Null, e.supersedesEventID)
  }

  predicate ValidStored(e: Event) {
    ValidInput(InputOf(e)) && HexHash(e.eventHash) && HexHash(e.previousHash) && HexHash(e.writerMAC)
        && Name(e.writerKeyID, 8, 128) && e.payload != []
  }

  // ---------- Hash input ----------

  function Integer(n: int): Json {
    Num(if n >= 0 then DecimalBytes(n) else [0x2D] + DecimalBytes(-n))
  }

  function Refs(refs: map<Octets, Octets>): Json {
    Obj(map k | k in refs :: Str(refs[k]))
  }

  /** An omitempty field. */
  function Optional(name: string, text: Octets): map<Octets, Json> {
    if text == [] then map[] else map[Ascii(name) := Str(text)]
  }

  function HashFields(e: Event, payload: Json): map<Octets, Json> {
    map[Ascii("schemaVersion") := Integer(SCHEMA_VERSION),
        Ascii("seq") := Integer(e.sequence),
        Ascii("eventId") := Str(e.eventID),
        Ascii("orgId") := Str(e.organizationID),
        Ascii("timestampUnixMicros") := Integer(e.occurredAt),
        Ascii("type") := Str(e.kind),
        Ascii("actor") := Str(e.actor),
        Ascii("correlationId") := Str(e.correlationID),
        Ascii("entityRefs") := Refs(e.entityRefs),
        Ascii("payload") := payload,
        Ascii("previousHash") := Str(e.previousHash),
        Ascii("writerKeyId") := Str(e.writerKeyID)]
    + Optional("causationId", e.causationID) + Optional("supersedesEventId", e.supersedesEventID)
  }

  /** The text that is hashed. */
  ghost function HashInput(env: Env, e: Event): Option<Octets> {
    var payload := env.decode(e.payload);
    if payload.None? then None
    else
      var bytes := Print(Obj(HashFields(e, payload.value)), 0);
      if bytes.None? then None else Some(EVENT_TAG + bytes.value)
  }

  ghost function EventHash(env: Env, e: Event): Option<Octets> {
    var input := HashInput(env, e);
    if input.None? then None else Some(env.sha(input.value))
  }

  /** What the hash of an event fixes: every field, and the payload as a JSON value. */
  predicate SameContent(env: Env, a: Event, b: Event) {
    && a.(payload := [], eventHash := [], writerMAC := []) == b.(payload := [], eventHash := [], writerMAC := [])
    && env.decode(a.payload) == env.decode(b.payload)
  }

  /** The fourteen field names are different. */
  lemma FieldNames()
    ensures |Ascii("schemaVersion")| == 13 && Ascii("schemaVersion")[0] == 0x73
    ensures |Ascii("correlationId")| == 13 && Ascii("correlationId")[0] == 0x63
    ensures |Ascii("seq")| == 3 && |Ascii("timestampUnixMicros")| == 19 && |Ascii("type")| == 4
        && |Ascii("entityRefs")| == 10
    ensures |Ascii("eventId")| == 7 && Ascii("eventId")[0] == 0x65 && |Ascii("payload")| == 7
        && Ascii("payload")[0] == 0x70
    ensures |Ascii("orgId")| == 5 && Ascii("orgId")[0] == 0x6F && |Ascii("actor")| == 5 && Ascii("actor")[0] == 0x61
    ensures |Ascii("causationId")| == 11 && Ascii("causationId")[0] == 0x63 && |Ascii("writerKeyId")| == 11
        && Ascii("writerKeyId")[0] == 0x77
    ensures |Ascii("previousHash")| == 12 && |Ascii("supersedesEventId")| == 17
  {
  }

  lemma IntegerInjective(m: int, n: int)
    requires Integer(m) == Integer(n)
    ensures m == n
  {
    var a, b := Integer(m).literal, Integer(n).literal;
    assert m >= 0 ==> Digit(a[0]);
    assert n >= 0 ==> Digit(b[0]);
    assert m < 0 ==> a[1..] == DecimalBytes(-m);
    assert n < 0 ==> b[1..] == DecimalBytes(-n);
    var (x, y) := (if m >= 0 then m else -m, if n >= 0 then n else -n);
    assert DecimalBytes(x) == DecimalBytes(y);
    assert AsText(DecimalBytes(x)) == Decimal(x) && AsText(DecimalBytes(y)) == Decimal(y);
    DecimalInjective(x, y);
  }

  lemma RefsInjective(a: map<Octets, Octets>, b: map<Octets, Octets>)
    requires Refs(a) == Refs(b)
    ensures a == b
  {
    var m, n := Refs(a).members, Refs(b).members;
    assert m.Keys == a.Keys && n.Keys == b.Keys;
    forall k | k in a ensures k in b && a[k] == b[k] { assert m[k] == n[k]; }
  }

  /** Reading the fields back out of the hash input. */
  lemma FieldValues(e: Event, payload: Json)
    ensures var m := HashFields(e, payload);
            && Ascii("seq") in m && m[Ascii("seq")] == Integer(e.sequence)
            && Ascii("eventId") in m && m[Ascii("eventId")] == Str(e.eventID)
            && Ascii("orgId") in m && m[Ascii("orgId")] == Str(e.organizationID)
            && Ascii("timestampUnixMicros") in m && m[Ascii("timestampUnixMicros")] == Integer(e.occurredAt)
  {
    hide Ascii, Integer, Refs;
    FieldNames();
  }

  lemma NameFieldValues(e: Event, payload: Json)
    ensures var m := HashFields(e, payload);
            && Ascii("type") in m && m[Ascii("type")] == Str(e.kind)
            && Ascii("actor") in m && m[Ascii("actor")] == Str(e.actor)
            && Ascii("correlationId") in m && m[Ascii("correlationId")] == Str(e.correlationID)
  {
    hide Ascii, Integer, Refs;
    FieldNames();
  }

  lemma MoreFieldValues(e: Event, payload: Json)
    ensures var m := HashFields(e, payload);
            && Ascii("entityRefs") in m && m[Ascii("entityRefs")] == Refs(e.entityRefs)
            && Ascii("payload") in m && m[Ascii("payload")] == payload
            && Ascii("previousHash") in m && m[Ascii("previousHash")] == Str(e.previousHash)
            && Ascii("writerKeyId") in m && m[Ascii("writerKeyId")] == Str(e.writerKeyID)
            && (if Ascii("causationId") in m then m[Ascii("causationId")] == Str(e.causationID)
                else e.causationID == [])
            && (if Ascii("supersedesEventId") in m then m[Ascii("supersedesEventId")] == Str(e.supersedesEventID)
                else e.supersedesEventID == [])
  {
    hide Ascii, Integer, Refs;
    FieldNames();
  }

  lemma OptionalPresence(e: Event, payload: Json)
    ensures Ascii("causationId") in HashFields(e, payload) <==> e.causationID != []
    ensures Ascii("supersedesEventId") in HashFields(e, payload) <==> e.supersedesEventID != []
  {
    hide Ascii, Integer, Refs;
    FieldNames();
  }

  lemma HashFieldsInjective(env: Env, a: Event, b: Event)
    requires env.decode(a.payload).Some? && env.decode(b.payload).Some?
    requires HashFields(a, env.decode(a.payload).value) == HashFields(b, env.decode(b.payload).value)
    ensures SameContent(env, a, b)
  {
    hide Ascii, Integer, Refs, HashFields;
    var p, q := env.decode(a.payload).value, env.decode(b.payload).value;
    FieldValues(a, p);
    FieldValues(b, q);
    NameFieldValues(a, p);
    NameFieldValues(b, q);
    MoreFieldValues(a, p);
    MoreFieldValues(b, q);
    OptionalPresence(a, p);
    OptionalPresence(b, q);
    IntegerInjective(a.sequence, b.sequence);
    IntegerInjective(a.occurredAt, b.occurredAt);
    RefsInjective(a.entityRefs, b.entityRefs);
  }

  // ---------- Verification ----------

  ghost predicate VerifyEvent(env: Env, e: Event, sequence: nat, previousHash: Octets, keys: map<Octets, Octets>) {
    && e.sequence == sequence && e.previousHash == previousHash && ValidStored(e)
    && EventHash(env, e) == Some(e.eventHash)
    && e.writerKeyID in keys && |keys[e.writerKeyID]| == 32
    && env.mac(keys[e.writerKeyID], e.eventHash) == e.writerMAC
  }

  ghost function Verify(env: Env, events: seq<Event>, keys: map<Octets, Octets>): Option<Head> {
    if events == [] then Some(Head(0, ZERO_HASH))
    else
      var before := Verify(env, events[..|events| - 1], keys);
      var last := events[|events| - 1];
      if before.None? || !VerifyEvent(env, last, |events|, before.value.eventHash, keys) then None
      else Some(Head(|events|, last.eventHash))
  }

  /** These two texts are different and have the same digest. */
  predicate Collide(sha: Octets -> Octets, x: Octets, y: Octets) {
    x != y && sha(x) == sha(y)
  }

  /** The hash inputs of these two events are a SHA-256 collision. */
  ghost predicate EventsCollide(env: Env, a: Event, b: Event) {
    var x, y := HashInput(env, a), HashInput(env, b);
    x.Some? && y.Some? && Collide(env.sha, x.value, y.value)
  }

  lemma SameHashSameContent(env: Env, a: Event, b: Event)
    requires EventHash(env, a).Some? && EventHash(env, a) == EventHash(env, b)
    ensures SameContent(env, a, b) || EventsCollide(env, a, b)
  {
    hide Print, HashFields, SameContent;
    var p, q := env.decode(a.payload).value, env.decode(b.payload).value;
    var x, y := Print(Obj(HashFields(a, p)), 0).value, Print(Obj(HashFields(b, q)), 0).value;
    if EVENT_TAG + x == EVENT_TAG + y {
      assert x == (EVENT_TAG + x)[|EVENT_TAG|..] && y == (EVENT_TAG + y)[|EVENT_TAG|..];
      PrintInjective(Obj(HashFields(a, p)), 0, Obj(HashFields(b, q)), 0);
      HashFieldsInjective(env, a, b);
    }
  }

  /** The same event, with the payload compared as the JSON value that the hash covers. */
  predicate SameEvent(env: Env, a: Event, b: Event) {
    SameContent(env, a, b) && a.eventHash == b.eventHash && a.writerMAC == b.writerMAC
  }

  ghost predicate SameHistory(env: Env, a: seq<Event>, b: seq<Event>) {
    |a| == |b| && forall i | 0 <= i < |a| :: SameEvent(env, a[i], b[i])
  }

  /** Events at one position collide, and everything after that position is the same. */
  ghost predicate CollideAt(env: Env, a: seq<Event>, b: seq<Event>, i: nat) {
    && i < |a| == |b| && EventsCollide(env, a[i], b[i])
    && forall j | i < j < |a| :: SameEvent(env, a[j], b[j])
  }

  /**
    The head determines the history: two chains that verify under the same keys and end in the same
    head are equal at every position, or the hash inputs of two of their own events, at one position,
    are a SHA-256 collision.
   */
  lemma {:induction false} HeadDeterminesHistory(env: Env, a: seq<Event>, b: seq<Event>, keys: map<Octets, Octets>)
    requires Verify(env, a, keys).Some? && Verify(env, a, keys) == Verify(env, b, keys)
    ensures SameHistory(env, a, b) || exists i :: CollideAt(env, a, b, i)
  {
    hide EventHash, ValidStored, EventsCollide, SameContent, VerifyEvent;
    VerifyCounts(env, a, keys);
    VerifyCounts(env, b, keys);
    assert |a| == Verify(env, a, keys).value.sequence == |b|;
    if a != [] {
      var n := |a| - 1;
      var x, y := a[n], b[n];
      LastLink(env, a, keys);
      LastLink(env, b, keys);
      SameHashSameContent(env, x, y);
      if SameContent(env, x, y) {
        LinkFields(env, x, y);
        HeadDeterminesHistory(env, a[..n], b[..n], keys);
        assert SameEvent(env, x, y);
        HistoryExtends(env, a, b);
      } else {
        assert CollideAt(env, a, b, n);
      }
    }
  }

  lemma HistoryExtends(env: Env, a: seq<Event>, b: seq<Event>)
    requires |a| == |b| > 0
    requires var n := |a| - 1;
             && SameEvent(env, a[n], b[n])
             && (SameHistory(env, a[..n], b[..n]) || exists i :: CollideAt(env, a[..n], b[..n], i))
    ensures SameHistory(env, a, b) || exists i :: CollideAt(env, a, b, i)
  {
    hide EventsCollide, SameEvent;
    var n := |a| - 1;
    assert forall i | 0 <= i < n :: a[i] == a[..n][i] && b[i] == b[..n][i];
    if i :| CollideAt(env, a[..n], b[..n], i) { assert CollideAt(env, a, b, i); }
  }

  lemma LinkFields(env: Env, a: Event, b: Event)
    requires SameContent(env, a, b)
    ensures a.previousHash == b.previousHash && a.writerKeyID == b.writerKeyID
  {
  }

  /** What the last event says about the chain before it, and about its own authentication. */
  lemma LastLink(env: Env, events: seq<Event>, keys: map<Octets, Octets>)
    requires Verify(env, events, keys).Some? && events != []
    ensures var last := events[|events| - 1];
            && Verify(env, events[..|events| - 1], keys) == Some(Head(|events| - 1, last.previousHash))
            && Verify(env, events, keys).value.eventHash == last.eventHash
                && EventHash(env, last) == Some(last.eventHash)
            && last.writerKeyID in keys && last.writerMAC == env.mac(keys[last.writerKeyID], last.eventHash)
  {
    hide EventHash, ValidStored, HeadHash;
    VerifyCounts(env, events[..|events| - 1], keys);
  }

  lemma VerifyCounts(env: Env, events: seq<Event>, keys: map<Octets, Octets>)
    requires Verify(env, events, keys).Some?
    ensures Verify(env, events, keys).value.sequence == |events|
    ensures Verify(env, events, keys).value.eventHash == HeadHash(events)
  {
    hide VerifyEvent;
  }

  function HeadHash(events: seq<Event>): Octets {
    if events == [] then ZERO_HASH else events[|events| - 1].eventHash
  }

  /** Every prefix of a verified chain verifies, and its head is the event it ends in. */
  lemma {:induction false} VerifyPrefix(env: Env, events: seq<Event>, keys: map<Octets, Octets>, n: nat)
    requires Verify(env, events, keys).Some? && n <= |events|
    ensures Verify(env, events[..n], keys) == Some(Head(n, HeadHash(events[..n])))
    decreases |events|
  {
    hide VerifyEvent, HeadHash;
    VerifyCounts(env, events, keys);
    if n == |events| {
      assert events[..n] == events;
    } else {
      var shorter := events[..|events| - 1];
      assert shorter[..n] == events[..n];
      VerifyPrefix(env, shorter, keys, n);
    }
  }

  // ---------- Appending ----------

  datatype Error = InvalidEvent | EventConflict
  datatype Result<+T> = Ok(value: T) | Err(error: Error)

  /** buildEvent. */
  ghost function Build(env: Env, i: Input, sequence: nat, previousHash: Octets, w: Writer): Result<Event> {
    var payload := Print(i.payload, 0);
    if payload.None? || payload.value == [] || |payload.value| > MAX_PAYLOAD || !ValidInput(i) || sequence == 0
        || !HexHash(previousHash)
       || |w.key| != 32 || !Name(w.keyID, 8, 128) then Err(InvalidEvent)
    else
      var e := Event(sequence, i.eventID, i.organizationID, i.occurredAt, i.kind, i.actor, i.causationID,
                     i.correlationID, ClonedRefs(i), payload.value, i.supersedesEventID, previousHash, [], w.keyID, []);
      var digest := EventHash(env, e);
      if digest.None? then Err(InvalidEvent) else Ok(e.(eventHash := digest.value, writerMAC :=
          env.mac(w.key, digest.value)))
  }

  function InputRefs(i: Input): Json {
    if i.entityRefs.None? then Null else Refs(i.entityRefs.value)
  }

  /** eventMatchesInput: refs are compared by their canonical text. */
  ghost predicate Matches(e: Event, i: Input) {
    && ValidInput(i) && InputOf(e) == i.(payload := Null, entityRefs := Some(e.entityRefs))
    && Print(i.payload, 0) == Some(e.payload)
    && Print(InputRefs(i), 0).Some? && Print(InputRefs(i), 0) == Print(Refs(e.entityRefs), 0)
  }

  /** The event says what the input says. */
  ghost predicate Carries(e: Event, i: Input) {
    && ValidInput(i) && InputOf(e) == i.(payload := Null, entityRefs := Some(ClonedRefs(i)))
    && Print(i.payload, 0) == Some(e.payload)
  }

  lemma {:induction false} MembersPrint(v: Json, i: nat)
    requires v.Obj? && AllValid(v.members.Keys) && i <= |KeysOf(v)|
    requires forall k | k in v.members :: v.members[k].Str? && Valid(v.members[k].text)
    ensures PrintMembers(v, i, 1).Some?
    decreases |KeysOf(v)| - i
  {
    if i < |KeysOf(v)| {
      assert KeysOf(v)[i] in v.members;
      MembersPrint(v, i + 1);
    }
  }

  lemma RefsPrint(refs: map<Octets, Octets>)
    requires forall k | k in refs :: Valid(k) && Valid(refs[k])
    ensures Print(Refs(refs), 0).Some?
  {
    var v := Refs(refs);
    assert v.members.Keys == refs.Keys;
    MembersPrint(v, 0);
  }

  lemma NamesAreValid(i: Input)
    requires ValidInput(i)
    ensures forall k | k in ClonedRefs(i) :: Valid(k) && Valid(ClonedRefs(i)[k])
  {
    hide Valid, Decode;
  }

  /** An input matches an event exactly when the event says what it says and its refs are not a nil map. */
  lemma MatchesExactly(e: Event, i: Input)
    ensures Matches(e, i) <==> Carries(e, i) && i.entityRefs.Some?
  {
    hide Print, ValidInput, Refs;
    if Matches(e, i) {
      PrintInjective(InputRefs(i), 0, Refs(e.entityRefs), 0);
      RefsAreObjects(e.entityRefs);
      if i.entityRefs.Some? { RefsInjective(i.entityRefs.value, e.entityRefs); }
    } else if Carries(e, i) && i.entityRefs.Some? {
      NamesAreValid(i);
      RefsPrint(i.entityRefs.value);
    }
  }

  lemma RefsAreObjects(refs: map<Octets, Octets>)
    ensures Refs(refs).Obj?
  {
  }

  predicate HasID(events: seq<Event>, k: int, eventID: Octets) {
    0 <= k < |events| && events[k].eventID == eventID
  }

  ghost function Replay(e: Event, i: Input): Result<(Event, bool)> {
    if Matches(e, i) then Ok((e, true)) else Err(EventConflict)
  }

  /** One append transaction: `Ok((event, replayed))`. */
  ghost predicate Appends(env: Env, events: seq<Event>, i: Input, w: Writer, events': seq<Event>,
        r: Result<(Event, bool)>) {
    if exists k :: HasID(events, k, i.eventID) then
      && events' == events
      && exists k :: HasID(events, k, i.eventID) && r == Replay(events[k], i)
    else
      var e := Build(env, i, |events| + 1, HeadHash(events), w);
      if e.Err? then events' == events && r == Err(e.error)
      else events' == events + [e.value] && r == Ok((e.value, false))
  }

  /** Digests look like digests, and the decoder reads back what was printed. */
  ghost predicate EnvLaw(env: Env) {
    && (forall b :: HexHash(env.sha(b))) && (forall k, h :: HexHash(env.mac(k, h)))
    && ReadsBack(env.decode)
  }

  predicate DistinctIDs(events: seq<Event>) {
    forall j, k | 0 <= j < k < |events| :: events[j].eventID != events[k].eventID
  }

  /** Registered writers keep the chain verifiable, event IDs unique, and history untouched. */
  lemma AppendKeepsChain(env: Env, events: seq<Event>, i: Input, w: Writer, events': seq<Event>,
                         r: Result<(Event, bool)>, keys: map<Octets, Octets>)
    requires EnvLaw(env) && Verify(env, events, keys).Some? && DistinctIDs(events)
        && Appends(env, events, i, w, events', r)
    requires w.keyID in keys && keys[w.keyID] == w.key
    ensures Verify(env, events', keys).Some? && DistinctIDs(events') && events <= events'
    ensures r.Ok? ==> Carries(r.value.0, i) && r.value.0 in events' && (r.value.1 <==> events' == events)
  {
    hide EventHash, ValidInput, HexHash, Name, Print, Matches, Carries;
    VerifyCounts(env, events, keys);
    if k :| HasID(events, k, i.eventID) && r == Replay(events[k], i) { MatchesExactly(events[k], i); }
    if forall k :: !HasID(events, k, i.eventID) {
      if events' != events {
        var e := events'[|events|];
        assert events'[..|events|] == events;
        BuildVerifies(env, i, |events| + 1, HeadHash(events), w, keys);
        assert forall k | 0 <= k < |events| :: !HasID(events, k, i.eventID);
      }
    }
  }

  /**
    A retry of an appended input, at any later time and by any writer, returns the stored event if and only if the refs
    of the input are not a nil map; otherwise it is refused as a conflict. Nothing changes either way.
   */
  lemma RetryReturnsStored(env: Env, events: seq<Event>, i: Input, w: Writer, events': seq<Event>, e: Event,
                           later: seq<Event>, w': Writer, later': seq<Event>, r: Result<(Event, bool)>)
    requires Appends(env, events, i, w, events', Ok((e, false))) && events' <= later && DistinctIDs(later)
    requires Appends(env, later, i, w', later', r)
    ensures later' == later && r == if i.entityRefs.Some? then Ok((e, true)) else Err(EventConflict)
  {
    hide Print, ValidInput, Name, HexHash, EventHash, Matches, HeadHash;
    if k :| HasID(events, k, i.eventID) && Ok((e, false)) == Replay(events[k], i) { assert false; }
    assert later[|events|] == e;
    BuildCarries(env, i, |events| + 1, HeadHash(events), w);
    MatchesExactly(e, i);
    assert HasID(later, |events|, i.eventID);
    var k :| HasID(later, k, i.eventID) && r == Replay(later[k], i);
    assert k == |events|;
  }

  lemma BuildCarries(env: Env, i: Input, sequence: nat, previousHash: Octets, w: Writer)
    requires Build(env, i, sequence, previousHash, w).Ok?
    ensures var e := Build(env, i, sequence, previousHash, w).value; Carries(e, i) && e.eventID == i.eventID
  {
    hide HexHash, Name, Print, ValidInput, EventHash;
    var e := Build(env, i, sequence, previousHash, w).value;
    assert InputOf(e) == i.(payload := Null, entityRefs := Some(ClonedRefs(i)));
  }

  lemma BuildVerifies(env: Env, i: Input, sequence: nat, previousHash: Octets, w: Writer, keys: map<Octets, Octets>)
    requires EnvLaw(env) && w.keyID in keys && keys[w.keyID] == w.key && Build(env, i, sequence, previousHash, w).Ok?
    ensures var e := Build(env, i, sequence, previousHash, w).value;
            VerifyEvent(env, e, sequence, previousHash, keys) && Carries(e, i) && e.eventID == i.eventID
  {
    hide HexHash, Name, Print, ValidInput, EventHash;
    var e := Build(env, i, sequence, previousHash, w).value;
    HashIgnoresItself(env, e.(eventHash := [], writerMAC := []), e.eventHash, e.writerMAC);
    DigestsLookRight(env, e.(eventHash := [], writerMAC := []));
    PayloadIsNotChecked(i);
    assert InputOf(e) == i.(payload := Null, entityRefs := Some(ClonedRefs(i)));
  }

  lemma HashIgnoresItself(env: Env, e: Event, eventHash: Octets, writerMAC: Octets)
    ensures EventHash(env, e.(eventHash := eventHash, writerMAC := writerMAC)) == EventHash(env, e)
  {
    hide Print, Ascii, Integer, Refs;
  }

  lemma DigestsLookRight(env: Env, e: Event)
    requires EnvLaw(env) && EventHash(env, e).Some?
    ensures HexHash(EventHash(env, e).value)
  {
    hide Print, HashFields, HexHash;
  }

  lemma PayloadIsNotChecked(i: Input)
    requires ValidInput(i)
    ensures ValidInput(i.(payload := Null, entityRefs := Some(ClonedRefs(i))))
  {
    hide Name;
  }
}
