/** writeCanonical as it is written: it appends to a buffer and visits a map in whatever order it comes. */
module JsonWriter {
  import opened Text
  import opened Ordering
  import opened Utf
  import opened CanonicalJson

  class Buffer {
    var data: seq<Byte>

    constructor ()
      ensures data == []
    {
      data := [];
    }

    method Write(s: seq<Byte>)
      modifies this
      ensures data == old(data) + s
    {
      data := data + s;
    }

    method WriteString(value: seq<Byte>)
      modifies this
      ensures data == old(data) + PrintString(value)
    {
      hide Escape, EscapeAll;
      Write([QUOTE]);
      assert value[0..] == value;
      for i := 0 to |value|
        invariant old(data) + [QUOTE] + EscapeAll(value) == data + EscapeAll(value[i..])
      {
        EscapeStep(value, i, data);
        Write(Escape(value[i]));
      }
      NothingToEscape(value, data);
      Write([QUOTE]);
    }

    /** The buffer receives exactly the printed value; when a part of it has none, only failure is promised. */
    method WriteCanonical(value: Json, depth: nat) returns (ok: bool)
      modifies this
      ensures ok <==> Print(value, depth).Some?
      ensures ok ==> data == old(data) + Print(value, depth).value
      decreases value
    {
      hide ValidNumber, PrintString, Valid, PrintItems, PrintMembers;
      if depth > MAX_DEPTH { return false; }
      match value {
        case Null => Write(NULL); return true;
        case Bool(b) => Write(if b then TRUE else FALSE); return true;
        case Str(text) =>
          if !Valid(text) { return false; }
          WriteString(text);
          return true;
        case Num(literal) =>
          if !ValidNumber(literal) { return false; }
          Write(literal);
          return true;
        case Arr(items) =>
          ok := WriteArray(value, depth);
        case Obj(members) =>
          ok := WriteObject(value, depth);
      }
    }

    method WriteArray(value: Json, depth: nat) returns (ok: bool)
      requires value.Arr? && depth <= MAX_DEPTH
      modifies this
      ensures ok <==> Print(value, depth).Some?
      ensures ok ==> data == old(data) + Print(value, depth).value
      decreases value, 1
    {
      hide PrintItems;
      Write([LBRACKET]);
      ok := WriteItems(value, depth + 1);
      if ok { Write([RBRACKET]); }
    }

    method WriteItems(value: Json, depth: nat) returns (ok: bool)
      requires value.Arr?
      modifies this
      ensures ok <==> PrintItems(value, 0, depth).Some?
      ensures ok ==> data == old(data) + PrintItems(value, 0, depth).value
      decreases value, 0
    {
      hide Print, PrintItems, Remaining;
      var n := |value.items|;
      ghost var total := PrintItems(value, 0, depth);
      NoComma(total);
      for index := 0 to n
        invariant total.Some? <==> PrintItems(value, index, depth).Some?
        invariant total.Some? ==>
            old(data) + total.value == data + Remaining(0 < index < n, PrintItems(value, index, depth).value)
        invariant index == 0 ==> data == old(data)
      {
        ghost var before := data;
        if index > 0 { Write([COMMA]); } else { assert data + [] == data; }
        var written := WriteCanonical(value.items[index], depth);
        ItemStep(value, index, depth, before);
        if !written { return false; }
      }
      NothingRemains(value, depth, data);
      return true;
    }

    method WriteObject(value: Json, depth: nat) returns (ok: bool)
      requires value.Obj? && depth <= MAX_DEPTH
      modifies this
      ensures ok <==> Print(value, depth).Some?
      ensures ok ==> data == old(data) + Print(value, depth).value
      decreases value, 1
    {
      hide PrintMembers;
      var found, order := CollectKeys(value);
      if !found { return false; }
      var keys := Sort(Utf16Less, order);
      KeysForgetIteration(value.members.Keys, order);
      Write([LBRACE]);
      ok := WriteMembers(value, keys, depth + 1);
      if ok { Write([RBRACE]); }
    }

    method WriteMembers(value: Json, keys: seq<seq<Byte>>, depth: nat) returns (ok: bool)
      requires value.Obj? && AllValid(value.members.Keys) && keys == KeysOf(value)
      modifies this
      ensures ok <==> PrintMembers(value, 0, depth).Some?
      ensures ok ==> data == old(data) + PrintMembers(value, 0, depth).value
      decreases value, 0
    {
      hide Print, KeysOf, PrintString, PrintMembers, Remaining;
      ghost var total := PrintMembers(value, 0, depth);
      NoComma(total);
      for index := 0 to |keys|
        invariant total.Some? <==> PrintMembers(value, index, depth).Some?
        invariant total.Some? ==>
            old(data) + total.value == data + Remaining(0 < index < |keys|, PrintMembers(value, index, depth).value)
      {
        assert keys[index] in value.members;
        ghost var before := data;
        if index > 0 { Write([COMMA]); } else { assert data + [] == data; }
        WriteString(keys[index]);
        Write([COLON]);
        var written := WriteCanonical(value.members[keys[index]], depth);
        MemberStep(value, index, depth, before);
        if !written { return false; }
      }
      NoMoreMembers(value, depth, data);
      return true;
    }
  }

  /** What is still to come after some members, with the comma that is written first. */
  ghost function Remaining(comma: bool, rest: seq<Byte>): seq<Byte> {
    if comma then [COMMA] + rest else rest
  }

  ghost function Comma(write: bool): seq<Byte> {
    if write then [COMMA] else []
  }

  lemma EscapeStep(value: seq<Byte>, i: nat, before: seq<Byte>)
    requires i < |value|
    ensures before + EscapeAll(value[i..]) == before + Escape(value[i]) + EscapeAll(value[i + 1..])
  {
    hide Escape;
    assert value[i..][1..] == value[i + 1..];
  }

  lemma NothingToEscape(value: seq<Byte>, data: seq<Byte>)
    ensures data + EscapeAll(value[|value|..]) == data
  {
  }

  lemma NoComma(total: Option<seq<Byte>>)
    ensures total.Some? ==> Remaining(false, total.value) == total.value
  {
  }

  lemma NothingRemains(v: Json, depth: nat, data: seq<Byte>)
    requires v.Arr?
    ensures PrintItems(v, |v.items|, depth) == Some([]) && data + Remaining(false, []) == data
  {
  }

  /** Writing one item, after its comma, moves it from what remains to what is written. */
  lemma ItemStep(v: Json, i: nat, depth: nat, before: seq<Byte>)
    requires v.Arr? && i < |v.items|
    ensures PrintItems(v, i, depth).Some? <==> Print(v.items[i], depth).Some? && PrintItems(v, i + 1, depth).Some?
    ensures PrintItems(v, i, depth).Some? ==>
              before + Remaining(0 < i < |v.items|, PrintItems(v, i, depth).value)
              == before + Comma(i > 0) + Print(v.items[i], depth).value + Remaining(0 < i + 1 < |v.items|,
                  PrintItems(v, i + 1, depth).value)
  {
    hide Print;
  }

  lemma NoMoreMembers(v: Json, depth: nat, data: seq<Byte>)
    requires v.Obj? && AllValid(v.members.Keys)
    ensures PrintMembers(v, |KeysOf(v)|, depth) == Some([]) && data + Remaining(false, []) == data
  {
  }

  lemma MemberStep(v: Json, i: nat, depth: nat, before: seq<Byte>)
    requires v.Obj? && AllValid(v.members.Keys) && i < |KeysOf(v)| && KeysOf(v)[i] in v.members
    ensures var (key, n) := (KeysOf(v)[i], |KeysOf(v)|);
            && (PrintMembers(v, i, depth).Some? <==>
                Print(v.members[key], depth).Some? && PrintMembers(v, i + 1, depth).Some?)
            && (PrintMembers(v, i, depth).Some? ==>
                  before + Remaining(0 < i < n, PrintMembers(v, i, depth).value)
                  == before + Comma(i > 0) + PrintString(key) + [COLON] + Print(v.members[key], depth).value
                     + Remaining(0 < i + 1 < n, PrintMembers(v, i + 1, depth).value))
  {
    hide Print, KeysOf, PrintString;
    if PrintMembers(v, i, depth).Some? {
      var (key, n) := (KeysOf(v)[i], |KeysOf(v)|);
      var head := PrintString(key) + [COLON] + Print(v.members[key], depth).value;
      assert PrintMembers(v, i, depth).value == head + Remaining(0 < i + 1 < n, PrintMembers(v, i + 1, depth).value);
    }
  }

  /** Ranging over the map: every key once, in no particular order, unless one is not valid UTF-8. */
  method CollectKeys(value: Json) returns (ok: bool, order: seq<Utf8>)
    requires value.Obj?
    ensures ok <==> AllValid(value.members.Keys)
    ensures ok ==> NoDuplicates(order) && forall k :: k in order <==> k in value.members
  {
    hide Valid;
    var left := value.members.Keys;
    order := [];
    while left != {}
      invariant left <= value.members.Keys && NoDuplicates(order)
          && (forall k :: k in order <==> k in value.members.Keys - left)
      invariant forall k | k in value.members.Keys - left :: Valid(k)
      decreases |left|
    {
      var key :| key in left;
      if !Valid(key) { return false, order; }
      var valid: Utf8 := key;
      left := left - {key};
      assert valid !in order;
      order := order + [valid];
    }
    return true, order;
  }
}
