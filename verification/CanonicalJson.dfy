/**
  The restricted RFC 8785 profile: null, booleans, strings, non-negative safe integers, arrays and
  objects. Print is what writeCanonical writes, Parse an independent reader; each undoes the other.
 */
module CanonicalJson {
  import opened Text
  import opened Ordering
  import opened Utf

  const MAX_DEPTH: nat := 128
  const MAX_SAFE_INTEGER: nat := 9_007_199_254_740_991

  const QUOTE: Byte := 0x22
  const BACKSLASH: Byte := 0x5C
  const COMMA: Byte := 0x2C
  const COLON: Byte := 0x3A
  const LBRACKET: Byte := 0x5B
  const RBRACKET: Byte := 0x5D
  const LBRACE: Byte := 0x7B
  const RBRACE: Byte := 0x7D
  const ZERO: Byte := 0x30

  const NULL: seq<Byte> := [0x6E, 0x75, 0x6C, 0x6C]
  const TRUE: seq<Byte> := [0x74, 0x72, 0x75, 0x65]
  const FALSE: seq<Byte> := [0x66, 0x61, 0x6C, 0x73, 0x65]

  /**
    A decoded document. Strings and keys are raw bytes, so that invalid UTF-8 can occur; numbers keep their
    literal.
   */
  datatype Json = Null | Bool(b: bool) | Str(text: seq<Byte>) | Num(literal: seq<Byte>) | Arr(items: seq<Json>)
      | Obj(members: map<seq<Byte>, Json>)

  // ---------- Strings ----------

  function HexByte(n: int): Byte
    requires 0 <= n < 16
  {
    if n < 10 then (0x30 + n) as Byte else (0x57 + n) as Byte
  }

  function HexValue(b: Byte): int {
    if 0x30 <= b <= 0x39 then b as int - 0x30 else if 0x61 <= b <= 0x66 then b as int - 0x57 else -1
  }

  function Escape(c: Byte): seq<Byte> {
    if c == QUOTE || c == BACKSLASH then [BACKSLASH, c]
    else if c == 8 then [BACKSLASH, 0x62]
    else if c == 9 then [BACKSLASH, 0x74]
    else if c == 10 then [BACKSLASH, 0x6E]
    else if c == 12 then [BACKSLASH, 0x66]
    else if c == 13 then [BACKSLASH, 0x72]
    else if c < 0x20 then [BACKSLASH, 0x75, 0x30, 0x30, HexByte(c as int / 16), HexByte(c as int % 16)]
    else [c]
  }

  function EscapeAll(s: seq<Byte>): seq<Byte> {
    if s == [] then [] else Escape(s[0]) + EscapeAll(s[1..])
  }

  function PrintString(s: seq<Byte>): seq<Byte> {
    [QUOTE] + EscapeAll(s) + [QUOTE]
  }

  /** One character of a string body and how many bytes it took. */
  function ReadChar(s: seq<Byte>): Option<(Byte, nat)> {
    if |s| == 0 || s[0] < 0x20 || s[0] == QUOTE then None
    else if s[0] != BACKSLASH then Some((s[0], 1))
    else if |s| < 2 then None
    else if s[1] == QUOTE || s[1] == BACKSLASH then Some((s[1], 2))
    else if s[1] == 0x62 then Some((8, 2))
    else if s[1] == 0x74 then Some((9, 2))
    else if s[1] == 0x6E then Some((10, 2))
    else if s[1] == 0x66 then Some((12, 2))
    else if s[1] == 0x72 then Some((13, 2))
    else if |s| >= 6 && s[1] == 0x75 && s[2] == s[3] == 0x30 && 0 <= HexValue(s[4]) < 2 && 0 <= HexValue(s[5]) then
      Some(((HexValue(s[4]) * 16 + HexValue(s[5])) as Byte, 6))
    else None
  }

  /** A string body up to and including its closing quote. */
  function ReadString(s: seq<Byte>): (r: Option<(seq<Byte>, seq<Byte>)>)
    ensures r.Some? ==> |r.value.1| < |s|
    decreases |s|
  {
    if |s| == 0 then None
    else if s[0] == QUOTE then Some(([], s[1..]))
    else
      var c := ReadChar(s);
      if c.None? then None
      else
        var tail := ReadString(s[c.value.1..]);
        if tail.None? then None else Some(([c.value.0] + tail.value.0, tail.value.1))
  }

  lemma ReadEscaped(c: Byte, rest: seq<Byte>)
    ensures ReadChar(Escape(c) + rest) == Some((c, |Escape(c)|))
    ensures (Escape(c) + rest)[0] != QUOTE
  {
    var s := Escape(c) + rest;
    assert forall i | 0 <= i < |Escape(c)| :: s[i] == Escape(c)[i];
  }

  lemma {:induction false} StringRoundTrip(s: seq<Byte>, rest: seq<Byte>)
    ensures ReadString(EscapeAll(s) + [QUOTE] + rest) == Some((s, rest))
  {
    hide Escape, ReadChar;
    var whole := EscapeAll(s) + [QUOTE] + rest;
    if s == [] {
      assert whole == [QUOTE] + rest;
    } else {
      var tail := EscapeAll(s[1..]) + [QUOTE] + rest;
      assert whole == Escape(s[0]) + tail;
      ReadEscaped(s[0], tail);
      assert whole[|Escape(s[0])|..] == tail;
      StringRoundTrip(s[1..], rest);
      assert s == [s[0]] + s[1..];
    }
  }

  // ---------- Numbers ----------

  predicate Digit(b: Byte) {
    0x30 <= b <= 0x39
  }

  function DecimalBytes(n: nat): (s: seq<Byte>)
    ensures |s| > 0 && forall i | 0 <= i < |s| :: Digit(s[i])
    ensures s[0] == ZERO <==> n == 0
    ensures n == 0 <==> s == [ZERO]
  {
    seq(|Decimal(n)|, i requires 0 <= i < |Decimal(n)| => Decimal(n)[i] as Byte)
  }

  function AsText(s: seq<Byte>): string {
    seq(|s|, i requires 0 <= i < |s| => s[i] as char)
  }

  /** big.Int.SetString in base ten: an optional sign and at least one digit. */
  function ParseInteger(s: seq<Byte>): Option<int> {
    var signed := |s| > 0 && (s[0] == 0x2B || s[0] == 0x2D);
    var digits := if signed then s[1..] else s;
    if |digits| == 0 || exists i | 0 <= i < |digits| :: !Digit(digits[i]) then None
    else
      var n: int := DecimalValue(AsText(digits));
      Some(if signed && s[0] == 0x2D then -n else n)
  }

  /** What writeCanonical demands of a number literal. */
  predicate ValidNumber(literal: seq<Byte>) {
    var n := ParseInteger(literal);
    n.Some? && 0 <= n.value <= MAX_SAFE_INTEGER && DecimalBytes(n.value) == literal
  }

  /** The accepted literals are exactly the plain decimal forms of 0 to 2^53 - 1. */
  lemma NumberMeaning(literal: seq<Byte>)
    ensures ValidNumber(literal) <==> exists n: nat :: n <= MAX_SAFE_INTEGER && literal == DecimalBytes(n)
  {
    if n: nat :| n <= MAX_SAFE_INTEGER && literal == DecimalBytes(n) {
      DecimalRoundTrip(n);
      assert AsText(literal) == Decimal(n);
      assert Digit(literal[0]);
      assert ParseInteger(literal) == Some(n);
    }
  }

  function DigitSpan(s: seq<Byte>): (n: nat)
    ensures n <= |s| && forall i | 0 <= i < n :: Digit(s[i])
    ensures n < |s| ==> !Digit(s[n])
  {
    if |s| == 0 || !Digit(s[0]) then 0 else 1 + DigitSpan(s[1..])
  }

  function NumberSpan(s: seq<Byte>): (n: nat)
    ensures n <= |s|
  {
    if |s| > 0 && s[0] == ZERO then 1 else DigitSpan(s)
  }

  /** A number would swallow a digit that follows it, unless it is a lone zero. */
  predicate Separated(v: Json, rest: seq<Byte>) {
    v.Num? && v.literal != [ZERO] ==> rest == [] || !Digit(rest[0])
  }

  lemma NumberRoundTrip(literal: seq<Byte>, rest: seq<Byte>)
    requires ValidNumber(literal)
    ensures literal != [] && Digit(literal[0])
    ensures NumberSpan(literal + rest) == |literal| <==> Separated(Num(literal), rest)
  {
    var s := literal + rest;
    assert forall i | 0 <= i < |literal| :: s[i] == literal[i] && Digit(s[i]);
    assert rest != [] ==> s[|literal|] == rest[0];
  }

  // ---------- Object keys ----------

  ghost function AnyOrder(keys: set<Utf8>): (s: seq<Utf8>)
    ensures NoDuplicates(s) && (forall k :: k in s <==> k in keys)
    decreases |keys|
  {
    if keys == {} then [] else var k :| k in keys; [k] + AnyOrder(keys - {k})
  }

  ghost function SortedKeys(keys: set<Utf8>): seq<Utf8> {
    Sort(Utf16Less, AnyOrder(keys))
  }

  /** Whatever order a map is iterated in, the sorted keys are the same. */
  lemma KeysForgetIteration(keys: set<Utf8>, order: seq<Utf8>)
    requires NoDuplicates(order) && forall k :: k in order <==> k in keys
    ensures Sort(Utf16Less, order) == SortedKeys(keys)
  {
    SameMultiset(order, AnyOrder(keys));
    Utf16LessIsTotal();
    SortForgetsOrder(Utf16Less, order, AnyOrder(keys));
  }

  lemma SameMultiset<T>(a: seq<T>, b: seq<T>)
    requires NoDuplicates(a) && NoDuplicates(b) && forall x :: x in a <==> x in b
    ensures multiset(a) == multiset(b)
  {
    forall x ensures multiset(a)[x] == multiset(b)[x] {
      CountsAtMostOnce(a, x);
      CountsAtMostOnce(b, x);
      assert x in multiset(a) <==> x in a;
      assert x in multiset(b) <==> x in b;
    }
  }

  lemma SortedKeysContain(keys: set<Utf8>)
    ensures NoDuplicates(SortedKeys(keys)) && forall k :: k in SortedKeys(keys) <==> k in keys
  {
    var a := AnyOrder(keys);
    SortPermutes(Utf16Less, a);
    DuplicatesSurvivePermutation(a, SortedKeys(keys));
    forall k ensures k in SortedKeys(keys) <==>
        k in keys { assert k in multiset(SortedKeys(keys)) <==> k in multiset(a); }
  }

  // ---------- Printing ----------

  predicate AllValid(keys: set<seq<Byte>>) {
    forall k | k in keys :: Valid(k)
  }

  ghost function KeysOf(v: Json): (keys: seq<seq<Byte>>)
    requires v.Obj? && AllValid(v.members.Keys)
    ensures NoDuplicates(keys) && forall k :: k in keys <==> k in v.members
  {
    SortedKeysContain(v.members.Keys);
    SortedKeys(v.members.Keys)
  }

  ghost function Print(v: Json, depth: nat): Option<seq<Byte>>
    decreases v
  {
    if depth > MAX_DEPTH then None
    else
      match v
      case Null => Some(NULL)
      case Bool(b) => Some(if b then TRUE else FALSE)
      case Str(text) => if Valid(text) then Some(PrintString(text)) else None
      case Num(literal) => if ValidNumber(literal) then Some(literal) else None
      case Arr(items) => var body := PrintItems(v, 0, depth + 1); if body.None? then None
          else Some([LBRACKET] + body.value + [RBRACKET])
      case Obj(members) =>
        if !AllValid(members.Keys) then None
        else var body := PrintMembers(v, 0, depth + 1); if body.None? then None
            else Some([LBRACE] + body.value + [RBRACE])
  }

  /** The items from index `i` on, separated by commas. */
  ghost function PrintItems(v: Json, i: nat, depth: nat): Option<seq<Byte>>
    requires v.Arr? && i <= |v.items|
    decreases v, |v.items| - i
  {
    if i == |v.items| then Some([])
    else
      var first := Print(v.items[i], depth);
      var rest := PrintItems(v, i + 1, depth);
      if first.None? || rest.None? then None
      else Some(first.value + (if i + 1 < |v.items| then [COMMA] else []) + rest.value)
  }

  /** The members from the i-th key on, separated by commas. */
  ghost function PrintMembers(v: Json, i: nat, depth: nat): Option<seq<Byte>>
    requires v.Obj? && AllValid(v.members.Keys) && i <= |KeysOf(v)|
    decreases v, |KeysOf(v)| - i
  {
    var keys := KeysOf(v);
    if i == |keys| then Some([])
    else
      assert keys[i] in v.members;
      var first := Print(v.members[keys[i]], depth);
      var rest := PrintMembers(v, i + 1, depth);
      if first.None? || rest.None? then None
      else Some(PrintString(keys[i]) + [COLON] + first.value + (if i + 1 < |keys| then [COMMA] else []) + rest.value)
  }

  // ---------- Reading ----------

  predicate StartsWith(s: seq<Byte>, prefix: seq<Byte>) {
    |prefix| <= |s| && s[..|prefix|] == prefix
  }

  function Parse(s: seq<Byte>): (r: Option<(Json, seq<Byte>)>)
    ensures r.Some? ==> |r.value.1| < |s|
    decreases |s|, 1
  {
    if |s| == 0 then None
    else if StartsWith(s, NULL) then Some((Null, s[4..]))
    else if StartsWith(s, TRUE) then Some((Bool(true), s[4..]))
    else if StartsWith(s, FALSE) then Some((Bool(false), s[5..]))
    else if s[0] == QUOTE then
      var text := ReadString(s[1..]);
      if text.None? then None else Some((Str(text.value.0), text.value.1))
    else if Digit(s[0]) then Some((Num(s[..NumberSpan(s)]), s[NumberSpan(s)..]))
    else if s[0] == LBRACKET then
      if |s| > 1 && s[1] == RBRACKET then Some((Arr([]), s[2..]))
      else var items := ParseItems(s[1..]); if items.None? then None else Some((Arr(items.value.0), items.value.1))
    else if s[0] == LBRACE then
      if |s| > 1 && s[1] == RBRACE then Some((Obj(map[]), s[2..]))
      else var members := ParseMembers(s[1..]); if members.None? then None
          else Some((Obj(members.value.0), members.value.1))
    else None
  }

  function ParseItems(s: seq<Byte>): (r: Option<(seq<Json>, seq<Byte>)>)
    ensures r.Some? ==> |r.value.1| < |s|
    decreases |s|, 2
  {
    var first := Parse(s);
    if first.None? || |first.value.1| == 0 then None
    else
      var (v, after) := first.value;
      if after[0] == RBRACKET then Some(([v], after[1..]))
      else if after[0] != COMMA then None
      else var rest := ParseItems(after[1..]); if rest.None? then None else Some(([v] + rest.value.0, rest.value.1))
  }

  /** As in encoding/json, a repeated key takes its last value. */
  function ParseMembers(s: seq<Byte>): (r: Option<(map<seq<Byte>, Json>, seq<Byte>)>)
    ensures r.Some? ==> |r.value.1| < |s|
    decreases |s|, 2
  {
    if |s| == 0 || s[0] != QUOTE then None
    else
      var key := ReadString(s[1..]);
      if key.None? || |key.value.1| == 0 || key.value.1[0] != COLON then None
      else
        var first := Parse(key.value.1[1..]);
        if first.None? || |first.value.1| == 0 then None
        else
          var (v, after) := first.value;
          if after[0] == RBRACE then Some((map[key.value.0 := v], after[1..]))
          else if after[0] != COMMA then None
          else var rest := ParseMembers(after[1..]); if rest.None? then None
              else Some((map[key.value.0 := v] + rest.value.0, rest.value.1))
  }

  // ---------- Reading undoes printing ----------

  /** A printed value starts with a byte that decides how it is read. */
  lemma FirstByte(v: Json, depth: nat)
    requires Print(v, depth).Some?
    ensures var b := Print(v, depth).value; b != [] && b[0] != RBRACKET && b[0] != RBRACE
  {
    if v.Num? { NumberRoundTrip(v.literal, []); }
  }

  lemma ParseArray(s: seq<Byte>, items: seq<Json>, rest: seq<Byte>)
    requires |s| > 1 && s[0] == LBRACKET && s[1] != RBRACKET && ParseItems(s[1..]) == Some((items, rest))
    ensures Parse(s) == Some((Arr(items), rest))
  {
    hide ParseItems;
  }

  lemma ParseObject(s: seq<Byte>, members: map<seq<Byte>, Json>, rest: seq<Byte>)
    requires |s| > 1 && s[0] == LBRACE && s[1] != RBRACE && ParseMembers(s[1..]) == Some((members, rest))
    ensures Parse(s) == Some((Obj(members), rest))
  {
    hide ParseMembers;
  }

  lemma ScalarRoundTrip(v: Json, depth: nat, rest: seq<Byte>)
    requires Print(v, depth).Some? && Separated(v, rest) && !v.Arr? && !v.Obj?
    ensures Parse(Print(v, depth).value + rest) == Some((v, rest))
  {
    hide Parse, Separated, ValidNumber, PrintString;
    match v
    case Null => WordRoundTrip(rest);
    case Bool(x) => WordRoundTrip(rest);
    case Str(text) => TextRoundTrip(text, rest);
    case Num(literal) => LiteralRoundTrip(literal, rest);
  }

  /** None of the three words starts like `s`. */
  lemma NotAWord(s: seq<Byte>)
    requires |s| > 0 && s[0] != NULL[0] && s[0] != TRUE[0] && s[0] != FALSE[0]
    ensures !StartsWith(s, NULL) && !StartsWith(s, TRUE) && !StartsWith(s, FALSE)
  {
    assert |s| >= 4 ==> s[..4][0] == s[0];
    assert |s| >= 5 ==> s[..5][0] == s[0];
  }

  lemma TextRoundTrip(text: seq<Byte>, rest: seq<Byte>)
    ensures Parse(PrintString(text) + rest) == Some((Str(text), rest))
  {
    hide ParseItems, ParseMembers, ReadString, EscapeAll, StartsWith;
    var s := PrintString(text) + rest;
    assert s[0] == QUOTE && s[1..] == EscapeAll(text) + [QUOTE] + rest;
    NotAWord(s);
    StringRoundTrip(text, rest);
  }

  lemma LiteralRoundTrip(literal: seq<Byte>, rest: seq<Byte>)
    requires ValidNumber(literal) && Separated(Num(literal), rest)
    ensures Parse(literal + rest) == Some((Num(literal), rest))
  {
    hide ParseItems, ParseMembers, ReadString, StartsWith, ValidNumber, NumberSpan, Separated;
    NumberRoundTrip(literal, rest);
    var s := literal + rest;
    assert s[0] == literal[0];
    NotAWord(s);
    assert s[..|literal|] == literal && s[|literal|..] == rest;
  }

  lemma WordRoundTrip(rest: seq<Byte>)
    ensures Parse(NULL + rest) == Some((Null, rest)) && Parse(TRUE + rest) == Some((Bool(true), rest))
        && Parse(FALSE + rest) == Some((Bool(false), rest))
  {
    hide ParseItems, ParseMembers;
    var n, t, f := NULL + rest, TRUE + rest, FALSE + rest;
    assert n[..4] == NULL && n[4..] == rest;
    assert t[..4] == TRUE && t[4..] == rest && t[..4][0] == 0x74;
    assert f[..5] == FALSE && f[5..] == rest && f[..4][0] == 0x66;
  }

  lemma {:induction false} RoundTrip(v: Json, depth: nat, rest: seq<Byte>)
    requires Print(v, depth).Some? && Separated(v, rest)
    ensures Parse(Print(v, depth).value + rest) == Some((v, rest))
    decreases v
  {
    hide Parse, Print, Separated;
    match v
    case Arr(_) => ArrayRoundTrip(v, depth, rest);
    case Obj(_) =>
      KeysAreValid(v, depth);
      ObjectRoundTrip(v, depth, rest);
    case _ => ScalarRoundTrip(v, depth, rest);
  }

  lemma KeysAreValid(v: Json, depth: nat)
    requires v.Obj? && Print(v, depth).Some?
    ensures AllValid(v.members.Keys)
  {
  }

  lemma {:induction false} ArrayRoundTrip(v: Json, depth: nat, rest: seq<Byte>)
    requires v.Arr? && Print(v, depth).Some?
    ensures Parse(Print(v, depth).value + rest) == Some((v, rest))
    decreases v, |v.items| + 1
  {
    hide Parse, ParseItems, PrintItems;
    var s := Print(v, depth).value + rest;
    if v.items == [] {
      NoItems(v, depth + 1);
      assert s == [LBRACKET, RBRACKET] + rest;
      ParseEmptyArray(rest);
    } else {
      assert s[1..] == PrintItems(v, 0, depth + 1).value + [RBRACKET] + rest;
      ItemsStart(v, 0, depth + 1);
      ItemsRoundTrip(v, 0, depth + 1, rest);
      assert v.items[0..] == v.items;
      ParseArray(s, v.items, rest);
    }
  }

  lemma NoItems(v: Json, depth: nat)
    requires v.Arr? && v.items == []
    ensures PrintItems(v, 0, depth) == Some([])
  {
  }

  lemma {:induction false} ObjectRoundTrip(v: Json, depth: nat, rest: seq<Byte>)
    requires v.Obj? && AllValid(v.members.Keys) && Print(v, depth).Some?
    ensures Parse(Print(v, depth).value + rest) == Some((v, rest))
    decreases v, |KeysOf(v)| + 1
  {
    hide Parse, ParseMembers, PrintString, KeysOf, PrintMembers, MembersFrom;
    var s := Print(v, depth).value + rest;
    AllMembers(v, depth);
    if KeysOf(v) == [] {
      assert s == [LBRACE, RBRACE] + rest;
      ParseEmptyObject(rest);
    } else {
      assert s[1..] == PrintMembers(v, 0, depth + 1).value + [RBRACE] + rest;
      MembersStart(v, 0, depth + 1);
      MembersRoundTrip(v, 0, depth + 1, rest);
      ParseObject(s, v.members, rest);
    }
  }

  lemma ParseEmptyArray(rest: seq<Byte>)
    ensures Parse([LBRACKET, RBRACKET] + rest) == Some((Arr([]), rest))
  {
    hide ParseMembers, ParseItems;
    var s := [LBRACKET, RBRACKET] + rest;
    assert s[0] == LBRACKET && s[1] == RBRACKET && s[2..] == rest;
  }

  lemma ParseEmptyObject(rest: seq<Byte>)
    ensures Parse([LBRACE, RBRACE] + rest) == Some((Obj(map[]), rest))
  {
    hide ParseMembers, ParseItems;
    var s := [LBRACE, RBRACE] + rest;
    assert s[0] == LBRACE && s[1] == RBRACE && s[2..] == rest;
  }

  lemma AllMembers(v: Json, depth: nat)
    requires v.Obj? && AllValid(v.members.Keys)
    ensures MembersFrom(v, 0) == v.members
    ensures KeysOf(v) == [] ==> v.members == map[] && PrintMembers(v, 0, depth + 1) == Some([])
  {
    hide SortedKeys, Print;
    assert KeysOf(v)[0..] == KeysOf(v);
  }

  lemma MembersStart(v: Json, i: nat, depth: nat)
    requires v.Obj? && AllValid(v.members.Keys) && i < |KeysOf(v)| && PrintMembers(v, i, depth).Some?
    ensures PrintMembers(v, i, depth).value != [] && PrintMembers(v, i, depth).value[0] == QUOTE
  {
  }

  lemma ItemsStart(v: Json, i: nat, depth: nat)
    requires v.Arr? && i < |v.items| && PrintItems(v, i, depth).Some?
    ensures PrintItems(v, i, depth).value != [] && PrintItems(v, i, depth).value[0] != RBRACKET
  {
    FirstByte(v.items[i], depth);
  }

  lemma {:induction false} ItemsRoundTrip(v: Json, i: nat, depth: nat, rest: seq<Byte>)
    requires v.Arr? && i < |v.items| && PrintItems(v, i, depth).Some?
    ensures ParseItems(PrintItems(v, i, depth).value + [RBRACKET] + rest) == Some((v.items[i..], rest))
    decreases v, |v.items| - i
  {
    var s := PrintItems(v, i, depth).value + [RBRACKET] + rest;
    var first := Print(v.items[i], depth).value;
    if i + 1 == |v.items| {
      assert s == first + ([RBRACKET] + rest);
      RoundTrip(v.items[i], depth, [RBRACKET] + rest);
      assert v.items[i..] == [v.items[i]];
    } else {
      var tail := PrintItems(v, i + 1, depth).value + [RBRACKET] + rest;
      assert s == first + ([COMMA] + tail);
      RoundTrip(v.items[i], depth, [COMMA] + tail);
      ItemsRoundTrip(v, i + 1, depth, rest);
      assert ([COMMA] + tail)[1..] == tail;
      assert v.items[i..] == [v.items[i]] + v.items[i + 1..];
    }
  }

  ghost function MembersFrom(v: Json, i: nat): map<seq<Byte>, Json>
    requires v.Obj? && AllValid(v.members.Keys) && i <= |KeysOf(v)|
  {
    map k | k in KeysOf(v)[i..] :: v.members[k]
  }

  /** Reading one member and what follows it. */
  lemma ParseMember(key: seq<Byte>, v: Json, printed: seq<Byte>, after: seq<Byte>)
    requires after != [] && Parse(printed + after) == Some((v, after))
    ensures var s := PrintString(key) + [COLON] + printed + after;
            && (after[0] == RBRACE ==> ParseMembers(s) == Some((map[key := v], after[1..])))
            && (after[0] == COMMA && ParseMembers(after[1..]).Some? ==>
                  ParseMembers(s) == Some((map[key := v] + ParseMembers(after[1..]).value.0,
                      ParseMembers(after[1..]).value.1)))
  {
    hide Parse, ReadString;
    var s := PrintString(key) + [COLON] + printed + after;
    assert s[1..] == EscapeAll(key) + [QUOTE] + ([COLON] + printed + after);
    StringRoundTrip(key, [COLON] + printed + after);
    assert ([COLON] + printed + after)[1..] == printed + after;
  }

  lemma {:induction false} MembersRoundTrip(v: Json, i: nat, depth: nat, rest: seq<Byte>)
    requires v.Obj? && AllValid(v.members.Keys) && i < |KeysOf(v)| && PrintMembers(v, i, depth).Some?
    ensures ParseMembers(PrintMembers(v, i, depth).value + [RBRACE] + rest) == Some((MembersFrom(v, i), rest))
    decreases v, |KeysOf(v)| - i
  {
    hide Parse, ParseMembers, PrintString, KeysOf;
    var s := PrintMembers(v, i, depth).value + [RBRACE] + rest;
    var keys := KeysOf(v);
    assert keys[i] in v.members;
    var first := Print(v.members[keys[i]], depth).value;
    assert keys[i..] == [keys[i]] + keys[i + 1..];
    if i + 1 == |keys| {
      var after := [RBRACE] + rest;
      assert PrintMembers(v, i + 1, depth).value == [];
      assert s == PrintString(keys[i]) + [COLON] + first + after;
      RoundTrip(v.members[keys[i]], depth, after);
      ParseMember(keys[i], v.members[keys[i]], first, after);
      assert MembersFrom(v, i) == map[keys[i] := v.members[keys[i]]];
    } else {
      var tail := PrintMembers(v, i + 1, depth).value + [RBRACE] + rest;
      var after := [COMMA] + tail;
      assert s == PrintString(keys[i]) + [COLON] + first + after;
      RoundTrip(v.members[keys[i]], depth, after);
      MembersRoundTrip(v, i + 1, depth, rest);
      assert after[1..] == tail;
      ParseMember(keys[i], v.members[keys[i]], first, after);
      FromSplits(v, i);
    }
  }

  lemma FromSplits(v: Json, i: nat)
    requires v.Obj? && AllValid(v.members.Keys) && i < |KeysOf(v)|
    ensures KeysOf(v)[i] in v.members && MembersFrom(v, i) == map[KeysOf(v)[i] := v.members[KeysOf(v)[i]]]
        + MembersFrom(v, i + 1)
  {
    hide SortedKeys;
    var keys := KeysOf(v);
    assert keys[i] in keys;
    assert keys[i..] == [keys[i]] + keys[i + 1..];
  }

  // ---------- What follows ----------

  /**
    Reading a printed value out of a longer text gives it back exactly when the text does not continue a number
    with a digit.
   */
  lemma RoundTripExactly(v: Json, depth: nat, rest: seq<Byte>)
    requires Print(v, depth).Some?
    ensures Parse(Print(v, depth).value + rest) == Some((v, rest)) <==> Separated(v, rest)
  {
    hide ParseItems, ParseMembers, ValidNumber;
    if Separated(v, rest) {
      RoundTrip(v, depth, rest);
    } else {
      NumberRoundTrip(v.literal, rest);
      var s := v.literal + rest;
      assert s[0] == v.literal[0];
      assert NumberSpan(s) != |v.literal| ==> |s[..NumberSpan(s)]| != |v.literal|;
    }
  }

  /** Two values print alike only if they are the same value. */
  lemma PrintInjective(v: Json, d: nat, w: Json, e: nat)
    requires Print(v, d).Some? && Print(w, e) == Print(v, d)
    ensures v == w
  {
    hide Print, Parse;
    RoundTrip(v, d, []);
    RoundTrip(w, e, []);
  }

  /** No printed value is a proper prefix of another, numbers before further digits excepted. */
  lemma PrefixFree(v: Json, d: nat, w: Json, e: nat, rest: seq<Byte>)
    requires Print(v, d).Some? && Print(w, e) == Some(Print(v, d).value + rest)
    ensures (v == w && rest == []) || (v.Num? && v.literal != [ZERO] && rest != [] && Digit(rest[0]))
  {
    hide Print, Parse;
    RoundTrip(w, e, []);
    assert Print(w, e).value + [] == Print(v, d).value + rest;
    if Separated(v, rest) { RoundTrip(v, d, rest); }
  }

  /** The exception is real: 1 is a prefix of 10, and reading 10 does not give 1 back. */
  lemma NumbersAreNotPrefixFree()
    ensures Print(Num([0x31]), 0) == Some([0x31]) && Print(Num([0x31, 0x30]), 0) == Some([0x31] + [0x30])
    ensures Parse([0x31] + [0x30]) != Some((Num([0x31]), [0x30]))
  {
    assert DecimalBytes(1) == [0x31] && DecimalBytes(10)
        == [0x31, 0x30] by { assert Decimal(1) == "1" && Decimal(10) == "10"; }
    NumberMeaning([0x31]);
    NumberMeaning([0x31, 0x30]);
    assert [0x31 as Byte] + [0x30] == [0x31, 0x30];
    RoundTripExactly(Num([0x31]), 0, [0x30]);
  }

  /** A decoder that reads canonical text back; nothing is asked of it on other text. */
  ghost predicate ReadsBack(decode: seq<Byte> -> Option<Json>) {
    forall v, b :: Print(v, 0) == Some(b) ==> decode(b) == Some(v)
  }

  /** canonicalJSON on a raw message: what it decodes to must print as the very same bytes. */
  ghost predicate AcceptsRaw(decode: seq<Byte> -> Option<Json>, raw: seq<Byte>) {
    decode(raw).Some? && Print(decode(raw).value, 0) == Some(raw)
  }

  /** Whatever the decoder makes of other text, exactly the canonical texts are accepted. */
  lemma RawIsCanonical(decode: seq<Byte> -> Option<Json>, raw: seq<Byte>)
    requires ReadsBack(decode)
    ensures AcceptsRaw(decode, raw) <==> exists v :: Print(v, 0) == Some(raw)
  {
    hide Print;
    if AcceptsRaw(decode, raw) {
      var v := decode(raw).value;
      assert Print(v, 0) == Some(raw);
    }
    if v :| Print(v, 0) == Some(raw) { assert decode(raw) == Some(v); }
  }

  /** The reader of this module, on whole texts. */
  function ParseAll(b: seq<Byte>): Option<Json> {
    var r := Parse(b);
    if r.Some? && r.value.1 == [] then Some(r.value.0) else None
  }

  /** It is such a decoder. */
  lemma ParseReadsBack()
    ensures ReadsBack(ParseAll)
  {
    hide Print, Parse;
    forall v, b | Print(v, 0) == Some(b) ensures ParseAll(b) == Some(v) {
      RoundTrip(v, 0, []);
      assert b + [] == b;
    }
  }
}
