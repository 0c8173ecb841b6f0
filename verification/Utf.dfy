/** UTF-8 strings, their UTF-16 code units, and the key order of section 3.2.3 of RFC 8785. */
module Utf {
  import opened Text
  import opened Ordering

  newtype Byte = x: int | 0 <= x < 256

  /** A Unicode scalar value. */
  type Rune = x: int | 0 <= x <= 0x10FFFF && !(0xD800 <= x <= 0xDFFF)

  function EncodeRune(r: Rune): (s: seq<Byte>)
    ensures 1 <= |s| <= 4
  {
    if r < 0x80 then [r as Byte]
    else if r < 0x800 then [(0xC0 + r / 64) as Byte, (0x80 + r % 64) as Byte]
    else if r < 0x10000 then [(0xE0 + r / 4096) as Byte, (0x80 + r / 64 % 64) as Byte, (0x80 + r % 64) as Byte]
    else [(0xF0 + r / 262144) as Byte, (0x80 + r / 4096 % 64) as Byte, (0x80 + r / 64 % 64) as Byte,
        (0x80 + r % 64) as Byte]
  }

  predicate Continues(b: Byte) {
    0x80 <= b < 0xC0
  }

  /** The value of a multi-byte form, if it is the shortest form of a scalar value. */
  function Checked(value: int, least: nat, size: nat): Option<(Rune, nat)> {
    if value < least || 0x10FFFF < value || 0xD800 <= value <= 0xDFFF then None
        else var r: Rune := value; Some((r, size))
  }

  /** The first rune of `s` and its length in bytes. */
  function DecodeRune(s: seq<Byte>): Option<(Rune, nat)> {
    if |s| == 0 then None
    else
      var a := s[0] as int;
      if a < 0x80 then Some((a, 1))
      else if 0xC0 <= a < 0xE0 && |s| >= 2 && Continues(s[1])
          then Checked((a - 0xC0) * 64 + (s[1] as int - 0x80), 0x80, 2)
      else if 0xE0 <= a < 0xF0 && |s| >= 3 && Continues(s[1]) && Continues(s[2]) then
        Checked((a - 0xE0) * 4096 + (s[1] as int - 0x80) * 64 + (s[2] as int - 0x80), 0x800, 3)
      else if 0xF0 <= a < 0xF8 && |s| >= 4 && Continues(s[1]) && Continues(s[2]) && Continues(s[3]) then
        Checked((a - 0xF0) * 262144 + (s[1] as int - 0x80) * 4096 + (s[2] as int - 0x80) * 64 + (s[3] as int - 0x80),
            0x10000, 4)
      else None
  }

  lemma DecodeRuneSound(s: seq<Byte>)
    requires DecodeRune(s).Some?
    ensures var (r, n) := DecodeRune(s).value; 0 < n <= |s| && s[..n] == EncodeRune(r)
  {
    var (r, n) := DecodeRune(s).value;
    if n == 2 {
      SplitBy64(s[0] as int - 0xC0, s[1] as int - 0x80);
    } else if n == 3 {
      SplitThree(s[0] as int - 0xE0, s[1] as int - 0x80, s[2] as int - 0x80, r);
    } else if n == 4 {
      SplitFour(s[0] as int - 0xF0, s[1] as int - 0x80, s[2] as int - 0x80, s[3] as int - 0x80, r);
    }
  }

  lemma SplitThree(a: int, b: int, c: int, r: int)
    requires 0 <= a && 0 <= b < 64 && 0 <= c < 64 && r == a * 4096 + b * 64 + c
    ensures r / 4096 == a && r / 64 % 64 == b && r % 64 == c
  {
    SplitBy64(a * 64 + b, c);
    SplitBy64(a, b);
  }

  lemma SplitFour(a: int, b: int, c: int, d: int, r: int)
    requires 0 <= a && 0 <= b < 64 && 0 <= c < 64 && 0 <= d < 64 && r == a * 262144 + b * 4096 + c * 64 + d
    ensures r / 262144 == a && r / 4096 % 64 == b && r / 64 % 64 == c && r % 64 == d
  {
    SplitThree(a * 64 + b, c, d, r);
    SplitBy64(a, b);
  }

  lemma SplitBy64(high: int, low: int)
    requires 0 <= high && 0 <= low < 64
    ensures (high * 64 + low) / 64 == high && (high * 64 + low) % 64 == low
  {
  }

  lemma DecodeRuneComplete(r: Rune, rest: seq<Byte>)
    ensures DecodeRune(EncodeRune(r) + rest) == Some((r, |EncodeRune(r)|))
  {
    var s := EncodeRune(r);
    assert forall i | 0 <= i < |s| :: (s + rest)[i] == s[i];
    JoinBy64(r);
  }

  lemma JoinBy64(r: nat)
    ensures r == (r / 64) * 64 + r % 64 && r == (r / 4096) * 4096 + (r / 64 % 64) * 64 + r % 64
    ensures r == (r / 262144) * 262144 + (r / 4096 % 64) * 4096 + (r / 64 % 64) * 64 + r % 64
    ensures (r < 0x800 ==> r / 64 < 32) && (r < 0x10000 ==> r / 4096 < 16) && (r <= 0x10FFFF ==> r / 262144 < 8)
  {
    var a := r / 64;
    var b := a / 64;
    DivideTwice(r, 64);
    DivideTwice(r, 4096);
    assert r / 4096 == b && r / 262144 == b / 64;
    assert r == a * 64 + r % 64 && a == b * 64 + a % 64 && b == (b / 64) * 64 + b % 64;
  }

  lemma DivideTwice(r: nat, m: nat)
    requires m == 64 || m == 4096
    ensures r / (m * 64) == r / m / 64
  {
  }

  function Encode(rs: seq<Rune>): seq<Byte> {
    if rs == [] then [] else EncodeRune(rs[0]) + Encode(rs[1..])
  }

  /** []rune(s) for a valid string; None is what utf8.ValidString refuses. */
  function Decode(s: seq<Byte>): Option<seq<Rune>>
    decreases |s|
  {
    if |s| == 0 then Some([])
    else
      var first := DecodeRune(s);
      if first.None? then None
      else
        DecodeRuneSound(s);
        var rest := Decode(s[first.value.1..]);
        if rest.None? then None else Some([first.value.0] + rest.value)
  }

  /** A string is valid UTF-8 exactly when it encodes some runes, and then it encodes just one list of them. */
  lemma {:induction false} DecodeSound(s: seq<Byte>)
    requires Decode(s).Some?
    ensures Encode(Decode(s).value) == s
    decreases |s|
  {
    hide DecodeRune, EncodeRune;
    if |s| > 0 {
      DecodeRuneSound(s);
      var n := DecodeRune(s).value.1;
      DecodeSound(s[n..]);
      assert s == s[..n] + s[n..];
      assert Decode(s).value[1..] == Decode(s[n..]).value;
    }
  }

  lemma {:induction false} DecodeComplete(rs: seq<Rune>)
    ensures Decode(Encode(rs)) == Some(rs)
  {
    if rs != [] {
      DecodeComplete(rs[1..]);
      DecodeRuneComplete(rs[0], Encode(rs[1..]));
      assert Encode(rs)[|EncodeRune(rs[0])|..] == Encode(rs[1..]);
      assert rs == [rs[0]] + rs[1..];
    }
  }

  predicate Valid(s: seq<Byte>) {
    Decode(s).Some?
  }

  type Utf8 = s: seq<Byte> | Valid(s) witness []

  // ---------- UTF-16 order ----------

  function Unit16(r: Rune): seq<int> {
    if r < 0x10000 then [r] else [0xD800 + (r - 0x10000) / 1024, 0xDC00 + (r - 0x10000) % 1024]
  }

  function Units(rs: seq<Rune>): seq<int> {
    if rs == [] then [] else Unit16(rs[0]) + Units(rs[1..])
  }

  lemma {:induction false} UnitsInjective(a: seq<Rune>, b: seq<Rune>)
    requires Units(a) == Units(b)
    ensures a == b
  {
    if a == [] || b == [] {
      assert a != [] ==> |Units(a)| > 0;
      assert b != [] ==> |Units(b)| > 0;
    } else {
      assert Units(a)[0] == Unit16(a[0])[0] && Units(b)[0] == Unit16(b[0])[0];
      assert |Unit16(a[0])| == |Unit16(b[0])|;
      if |Unit16(a[0])| == 2 {
        assert Units(a)[1] == Unit16(a[0])[1] && Units(b)[1] == Unit16(b[0])[1];
        SameSurrogates(a[0], b[0]);
      }
      assert Units(a)[|Unit16(a[0])|..] == Units(a[1..]) && Units(b)[|Unit16(b[0])|..] == Units(b[1..]);
      UnitsInjective(a[1..], b[1..]);
      assert a == [a[0]] + a[1..] && b == [b[0]] + b[1..];
    }
  }

  lemma SameSurrogates(a: Rune, b: Rune)
    requires a >= 0x10000 && b >= 0x10000 && Unit16(a) == Unit16(b)
    ensures a == b
  {
    assert Unit16(a)[0] == Unit16(b)[0] && Unit16(a)[1] == Unit16(b)[1];
  }

  function UnitsOf(s: Utf8): seq<int> {
    Units(Decode(s).value)
  }

  predicate Utf16Less(a: Utf8, b: Utf8) {
    Lex((x: int, y: int) => x < y, UnitsOf(a), UnitsOf(b))
  }

  /** utf16Less: the loop finds the first unit in which the two differ. */
  method CompareUnits(l: seq<int>, r: seq<int>) returns (less: bool)
    ensures less == Lex((x: int, y: int) => x < y, l, r)
  {
    var i := 0;
    while i < |l| && i < |r|
      invariant i <= |l| && i <= |r|
      invariant Lex((x: int, y: int) => x < y, l, r) == Lex((x: int, y: int) => x < y, l[i..], r[i..])
    {
      if l[i] != r[i] { return l[i] < r[i]; }
      assert l[i..][1..] == l[i + 1..] && r[i..][1..] == r[i + 1..];
      i := i + 1;
    }
    return |l| < |r|;
  }

  lemma Utf16LessIsTotal()
    ensures StrictTotal(Utf16Less)
  {
    var less := (x: int, y: int) => x < y;
    forall a: Utf8 ensures !Utf16Less(a, a) { LexIrreflexive(less, UnitsOf(a)); }
    forall a: Utf8, b: Utf8, c: Utf8 | Utf16Less(a, b)
        && Utf16Less(b, c) ensures Utf16Less(a, c) { LexTransitive(less, UnitsOf(a), UnitsOf(b), UnitsOf(c)); }
    forall a: Utf8, b: Utf8 ensures Utf16Less(a, b) || a == b || Utf16Less(b, a) {
      LexTotal(less, UnitsOf(a), UnitsOf(b));
      if UnitsOf(a) == UnitsOf(b) {
        UnitsInjective(Decode(a).value, Decode(b).value);
        DecodeSound(a);
        DecodeSound(b);
      }
    }
  }
}
