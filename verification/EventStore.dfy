/** The event table: append transactions and the verification loop, proved against EventChain. */
module EventStores {
  import opened Text
  import opened CanonicalJson
  import opened EventChain
  import JsonWriter

  /** calculateEventHash: canonicalise into a buffer, then digest. */
  method CalculateEventHash(env: Env, e: Event) returns (r: Option<Octets>)
    ensures r == EventHash(env, e)
  {
    hide Print, HashFields;
    var payload := env.decode(e.payload);
    if payload.None? { return None; }
    var encoded := Canonical(Obj(HashFields(e, payload.value)));
    if encoded.None? { return None; }
    return Some(env.sha(EVENT_TAG + encoded.value));
  }

  method Canonical(v: Json) returns (r: Option<Octets>)
    ensures r == Print(v, 0)
  {
    hide Print;
    var buffer := new JsonWriter.Buffer();
    var ok := buffer.WriteCanonical(v, 0);
    assert ok ==> [] + Print(v, 0).value == Print(v, 0).value;
    return if ok then Some(buffer.data) else None;
  }

  method CheckEvent(env: Env, e: Event, sequence: nat, previousHash: Octets,
        keys: map<Octets, Octets>) returns (ok: bool)
    ensures ok == VerifyEvent(env, e, sequence, previousHash, keys)
  {
    hide EventHash, ValidStored;
    if e.sequence != sequence || e.previousHash != previousHash || !ValidStored(e) { return false; }
    var want := CalculateEventHash(env, e);
    if want != Some(e.eventHash) { return false; }
    if e.writerKeyID !in keys || |keys[e.writerKeyID]| != 32 { return false; }
    return env.mac(keys[e.writerKeyID], e.eventHash) == e.writerMAC;
  }

  method BuildEvent(env: Env, i: Input, sequence: nat, previousHash: Octets, w: Writer) returns (r: Result<Event>)
    ensures r == Build(env, i, sequence, previousHash, w)
  {
    hide EventHash, ValidInput, HexHash, Name, Print;
    var payload := Canonical(i.payload);
    if payload.None? || payload.value == [] || |payload.value| > MAX_PAYLOAD || !ValidInput(i) || sequence == 0
        || !HexHash(previousHash)
       || |w.key| != 32 || !Name(w.keyID, 8, 128) { return Err(InvalidEvent); }
    var refs := ClonedRefs(i);
    var e := Event(sequence, i.eventID, i.organizationID, i.occurredAt, i.kind, i.actor, i.causationID,
                   i.correlationID, refs, payload.value, i.supersedesEventID, previousHash, [], w.keyID, []);
    var digest := CalculateEventHash(env, e);
    if digest.None? { return Err(InvalidEvent); }
    e := e.(eventHash := digest.value);
    e := e.(writerMAC := env.mac(w.key, e.eventHash));
    return Ok(e);
  }

  class EventStore {
    const env: Env
    var events: seq<Event>

    constructor (env: Env)
      ensures this.env == env && events == []
    {
      this.env, events := env, [];
    }

    method Verify(keys: map<Octets, Octets>) returns (r: Option<Head>)
      ensures r == EventChain.Verify(env, events, keys)
    {
      hide VerifyEvent;
      var previous := ZERO_HASH;
      var sequence := 0;
      while sequence < |events|
        invariant sequence <= |events| && EventChain.Verify(env, events[..sequence], keys)
            == Some(Head(sequence, previous))
      {
        var event := events[sequence];
        sequence := sequence + 1;
        assert events[..sequence][..sequence - 1] == events[..sequence - 1];
        var ok := CheckEvent(env, event, sequence, previous, keys);
        if !ok {
          FailsFromHere(env, events, keys, sequence);
          return None;
        }
        previous := event.eventHash;
      }
      assert events[..sequence] == events;
      return Some(Head(sequence, previous));
    }

    method Append(input: Input, writer: Writer) returns (r: Result<(Event, bool)>)
      modifies this
      ensures Appends(env, old(events), input, writer, events, r)
    {
      hide Build, Print, ValidInput;
      for k := 0 to |events|
        invariant events == old(events) && forall j | 0 <= j < k :: !HasID(events, j, input.eventID)
      {
        if events[k].eventID == input.eventID {
          var stored := events[k];
          var payload := Canonical(input.payload);
          var refs := Canonical(InputRefs(input));
          var storedRefs := Canonical(Refs(stored.entityRefs));
          assert HasID(events, k, input.eventID);
          if payload.Some? && refs.Some? && storedRefs.Some? && ValidInput(input)
             && InputOf(stored) == input.(payload := Null, entityRefs := Some(stored.entityRefs))
             && stored.payload == payload.value && storedRefs == refs { return Ok((stored, true)); }
          return Err(EventConflict);
        }
      }
      assert forall k :: !HasID(events, k, input.eventID);
      var head := if events == [] then ZERO_HASH else events[|events| - 1].eventHash;
      var e := BuildEvent(env, input, |events| + 1, head, writer);
      if e.Err? { return Err(e.error); }
      events := events + [e.value];
      return Ok((e.value, false));
    }
  }

  lemma FailsFromHere(env: Env, events: seq<Event>, keys: map<Octets, Octets>, n: nat)
    requires n <= |events| && EventChain.Verify(env, events[..n], keys).None?
    ensures EventChain.Verify(env, events, keys).None?
  {
    if EventChain.Verify(env, events, keys).Some? { VerifyPrefix(env, events, keys, n); }
  }
}
