/** Strings, instants and the identifier shapes shared by every package. */
module Text {

  datatype Option<+T> = None | Some(value: T)

  type Bytes = seq<bv8>

  /** Nanoseconds since Go's zero instant; 0 is the only value for which IsZero holds. */
  type Time = int

  /** A clock reading: every real clock is past the zero instant. */
  type Clock = t: int | 0 < t witness 1

  const SECOND: int := 1_000_000_000
  const MINUTE: int := 60_000_000_000

  predicate HexDigit(c: char) {
    '0' <= c <= '9' || 'a' <= c <= 'f'
  }

  predicate AlphaNumeric(c: char) {
    'a' <= c <= 'z' || 'A' <= c <= 'Z' || '0' <= c <= '9'
  }

  /** unicode.IsSpace on a code point: what strings.TrimSpace removes at both ends. */
  predicate Space(r: int) {
    || 9 <= r <= 13 || r == 0x20 || r == 0x85 || r == 0xA0 || r == 0x1680 || 0x2000 <= r <= 0x200A
    || r == 0x2028 || r == 0x2029 || r == 0x202F || r == 0x205F || r == 0x3000
  }

  /** "0x" and 64 lower-case hexadecimal digits, not all of them zero. */
  predicate Hash(s: string) {
    && |s| == 66 && s[0] == '0' && s[1] == 'x'
    && (forall i | 2 <= i < 66 :: HexDigit(s[i]))
    && (exists i | 2 <= i < 66 :: s[i] != '0')
  }

  /** "0x" and 40 lower-case hexadecimal digits, not all of them zero. */
  predicate Address(s: string) {
    && |s| == 42 && s[0] == '0' && s[1] == 'x'
    && (forall i | 2 <= i < 42 :: HexDigit(s[i])) && (exists i | 2 <= i < 42 :: s[i] != '0')
  }

  predicate Identifier(s: string) {
    && 0 < |s| <= 128
    && AlphaNumeric(s[0])
    && forall i | 0 <= i < |s| :: AlphaNumeric(s[i]) || s[i] == '.' || s[i] == '_' || s[i] == ':' || s[i] == '-'
  }

  predicate OpaqueHandle(s: string) {
    32 <= |s| <= 256 && forall i | 0 <= i < |s| :: s[i] != ' ' && s[i] != '\t' && s[i] != '\r' && s[i] != '\n'
  }

  predicate Free(s: string, separator: char) {
    forall i | 0 <= i < |s| :: s[i] != separator
  }

  predicate AllFree(parts: seq<string>, separator: char) {
    forall i | 0 <= i < |parts| :: Free(parts[i], separator)
  }

  function Join(parts: seq<string>, separator: char): string {
    if |parts| == 0 then ""
    else if |parts| == 1 then parts[0]
    else parts[0] + [separator] + Join(parts[1..], separator)
  }

  /** The length of the longest separator-free prefix. */
  function Span(s: string, separator: char): (n: nat)
    ensures n <= |s| && Free(s[..n], separator)
    ensures n < |s| ==> s[n] == separator
  {
    if |s| == 0 || s[0] == separator then 0
    else
      var n := 1 + Span(s[1..], separator);
      assert s[..n] == [s[0]] + s[1..][..n - 1];
      n
  }

  /** strings.Split for a one-character separator. */
  function Split(s: string, separator: char): (parts: seq<string>)
    ensures |parts| > 0 && AllFree(parts, separator)
    decreases |s|
  {
    var n := Span(s, separator);
    if n == |s| then assert s[..n] == s; [s] else [s[..n]] + Split(s[n + 1..], separator)
  }

  lemma {:induction false} SpanOfConcat(a: string, separator: char, rest: string)
    requires Free(a, separator)
    requires |rest| > 0 ==> rest[0] == separator
    ensures Span(a + rest, separator) == |a|
  {
    if |a| > 0 {
      assert (a + rest)[1..] == a[1..] + rest;
      SpanOfConcat(a[1..], separator, rest);
    } else {
      assert a + rest == rest;
    }
  }

  /** Splitting undoes joining whenever no part contains the separator. */
  lemma {:induction false} SplitJoin(parts: seq<string>, separator: char)
    requires |parts| > 0 && AllFree(parts, separator)
    ensures Split(Join(parts, separator), separator) == parts
  {
    if |parts| == 1 {
      SpanOfConcat(parts[0], separator, "");
      assert parts[0] + "" == parts[0];
      assert parts == [parts[0]];
    } else {
      var tail := Join(parts[1..], separator);
      SplitJoin(parts[1..], separator);
      SpanOfConcat(parts[0], separator, [separator] + tail);
      var s := Join(parts, separator);
      assert s == parts[0] + ([separator] + tail);
      assert s[..|parts[0]|] == parts[0];
      assert s[|parts[0]| + 1..] == tail;
      assert parts == [parts[0]] + parts[1..];
    }
  }

  lemma JoinInjective(a: seq<string>, b: seq<string>, separator: char)
    requires |a| > 0 && |b| > 0 && AllFree(a, separator) && AllFree(b, separator)
    requires Join(a, separator) == Join(b, separator)
    ensures a == b
  {
    SplitJoin(a, separator);
    SplitJoin(b, separator);
  }

  /** strconv.FormatUint(n, 10). */
  function Decimal(n: nat): (s: string)
    ensures |s| > 0 && forall i | 0 <= i < |s| :: '0' <= s[i] <= '9'
    ensures |s| > 1 ==> s[0] != '0'
    ensures n == 0 <==> s == "0"
  {
    if n < 10 then [('0' as int + n) as char] else Decimal(n / 10) + [('0' as int + n % 10) as char]
  }

  function DecimalValue(s: string): nat
    requires forall i | 0 <= i < |s| :: '0' <= s[i] <= '9'
  {
    if |s| == 0 then 0 else 10 * DecimalValue(s[..|s| - 1]) + (s[|s| - 1] as int - '0' as int)
  }

  lemma {:induction false} DecimalRoundTrip(n: nat)
    ensures DecimalValue(Decimal(n)) == n
  {
    var s := Decimal(n);
    if n >= 10 {
      DecimalRoundTrip(n / 10);
      assert s[..|s| - 1] == Decimal(n / 10);
    } else {
      assert s[..0] == "";
    }
  }

  lemma DecimalInjective(a: nat, b: nat)
    requires Decimal(a) == Decimal(b)
    ensures a == b
  {
    DecimalRoundTrip(a);
    DecimalRoundTrip(b);
  }
}
