/** The string and number conversions of Go's `strings` and `strconv` packages that the line-oriented
    parsers use. Text is a sequence of Unicode scalar values. */
module Text {
  import opened Basics

  /** `unicode.IsSpace`. */
  predicate IsSpace(c: char) {
    || '\t' <= c <= '\r' || c == ' ' || c == '\U{0085}' || c == '\U{00A0}'
    || c == '\U{1680}' || '\U{2000}' <= c <= '\U{200A}' || c == '\U{2028}' || c == '\U{2029}'
    || c == '\U{202F}' || c == '\U{205F}' || c == '\U{3000}'
  }

  /** `unicode.ToLower` as far as the result is an ASCII letter, which is all the key tables hold:
      the dotted I and the Kelvin sign are the only other characters that become one. */
  function LowerChar(c: char): char {
    if 'A' <= c <= 'Z' then c - 'A' + 'a'
    else if c == '\U{0130}' then 'i'
    else if c == '\U{212A}' then 'k'
    else c
  }

  function Lower(s: string): string {
    seq(|s|, i requires 0 <= i < |s| => LowerChar(s[i]))
  }

  // --- Trimming -------------------------------------------------------------------------

  function TrimLeft(s: string): string {
    if s != "" && IsSpace(s[0]) then TrimLeft(s[1..]) else s
  }

  function TrimRight(s: string): string {
    if s != "" && IsSpace(s[|s| - 1]) then TrimRight(s[..|s| - 1]) else s
  }

  function TrimSpace(s: string): string {
    TrimRight(TrimLeft(s))
  }

  /** Neither end is a space. */
  predicate Trimmed(s: string) {
    s == "" || (!IsSpace(s[0]) && !IsSpace(s[|s| - 1]))
  }

  lemma TrimNothing(s: string)
    requires Trimmed(s)
    ensures TrimSpace(s) == s
  {
  }

  lemma TrimPadding(s: string)
    requires Trimmed(s)
    ensures TrimSpace(" " + s) == s && (s != "" ==> TrimSpace(s + " ") == s)
  {
    assert (" " + s)[1..] == s;
    assert TrimLeft(" " + s) == TrimLeft(s) == s;
    if s != "" {
      assert (s + " ")[0] == s[0];
      assert (s + " ")[..|s|] == s;
      assert TrimRight(s + " ") == TrimRight(s) == s;
    }
  }

  predicate AllSpaces(s: string) {
    forall i :: 0 <= i < |s| ==> IsSpace(s[i])
  }

  lemma {:induction false} TrimRightParts(s: string) returns (after: string)
    ensures s == TrimRight(s) + after && AllSpaces(after)
    ensures TrimRight(s) != "" ==> !IsSpace(TrimRight(s)[|TrimRight(s)| - 1])
  {
    if s != "" && IsSpace(s[|s| - 1]) {
      var a := TrimRightParts(s[..|s| - 1]);
      after := a + [s[|s| - 1]];
      assert s == s[..|s| - 1] + [s[|s| - 1]];
    } else {
      after := "";
    }
  }

  lemma {:induction false} TrimLeftParts(s: string) returns (before: string)
    ensures s == before + TrimLeft(s) && AllSpaces(before) && (TrimLeft(s) != "" ==> !IsSpace(TrimLeft(s)[0]))
  {
    if s != "" && IsSpace(s[0]) {
      var b := TrimLeftParts(s[1..]);
      before := [s[0]] + b;
    } else {
      before := "";
    }
  }

  /** Trimming drops spaces at either end, and nothing else: what is left has none there. */
  lemma TrimParts(s: string) returns (before: string, after: string)
    ensures s == before + TrimSpace(s) + after && AllSpaces(before) && AllSpaces(after) && Trimmed(TrimSpace(s))
  {
    var l := TrimLeft(s);
    before := TrimLeftParts(s);
    after := TrimRightParts(l);
    var t := TrimRight(l);
    assert t != "" ==> t[0] == l[0];
    assert s == before + (t + after) == before + t + after;
  }

  // --- Splitting ------------------------------------------------------------------------

  /** `strings.Split` by one character; the result is never empty. */
  function Split(s: string, sep: char): (parts: seq<string>)
    ensures |parts| > 0
  {
    if s == "" then [""]
    else if s[0] == sep then [""] + Split(s[1..], sep)
    else
      var rest := Split(s[1..], sep);
      [[s[0]] + rest[0]] + rest[1..]
  }

  function Join(parts: seq<string>, sep: char): string
    requires |parts| > 0
  {
    if |parts| == 1 then parts[0] else parts[0] + [sep] + Join(parts[1..], sep)
  }

  lemma {:induction false} SplitOne(s: string, sep: char)
    requires sep !in s
    ensures Split(s, sep) == [s]
  {
    if s != "" {
      SplitOne(s[1..], sep);
      assert [s[0]] + s[1..] == s;
    }
  }

  lemma {:induction false} SplitFirst(s: string, sep: char, rest: string)
    requires sep !in s
    ensures Split(s + [sep] + rest, sep) == [s] + Split(rest, sep)
  {
    if s == "" {
      assert ("" + [sep] + rest)[1..] == rest;
    } else {
      SplitFirst(s[1..], sep, rest);
      assert (s + [sep] + rest)[1..] == s[1..] + [sep] + rest;
      assert [s[0]] + s[1..] == s;
    }
  }

  /** Splitting takes joining back. */
  lemma {:induction false} SplitJoin(parts: seq<string>, sep: char)
    requires |parts| > 0 && forall i :: 0 <= i < |parts| ==> sep !in parts[i]
    ensures Split(Join(parts, sep), sep) == parts
  {
    if |parts| == 1 {
      SplitOne(parts[0], sep);
    } else {
      SplitJoin(parts[1..], sep);
      SplitFirst(parts[0], sep, Join(parts[1..], sep));
    }
  }

  /** ... and the other way round, for every text. */
  lemma {:induction false} JoinSplit(s: string, sep: char)
    ensures Join(Split(s, sep), sep) == s
    ensures forall i :: 0 <= i < |Split(s, sep)| ==> sep !in Split(s, sep)[i]
  {
    if s != "" {
      JoinSplit(s[1..], sep);
    }
  }

  /** `strings.Cut` at one character: what is before and after the first one. */
  function Cut(s: string, c: char): Option<(string, string)> {
    if s == "" then None
    else if s[0] == c then Some(("", s[1..]))
    else
      match Cut(s[1..], c)
      case None => None
      case Some((a, b)) => Some(([s[0]] + a, b))
  }

  /** Cutting finds the first occurrence, and fails only when there is none. */
  lemma {:induction false} CutParts(s: string, c: char)
    ensures Cut(s, c).Some? <==> c in s
    ensures Cut(s, c).Some? ==> var (a, b) := Cut(s, c).value; c !in a && s == a + [c] + b
  {
    if s != "" {
      CutParts(s[1..], c);
    }
  }

  lemma {:induction false} CutAt(a: string, c: char, b: string)
    requires c !in a
    ensures Cut(a + [c] + b, c) == Some((a, b))
  {
    if a == "" {
      assert ("" + [c] + b)[1..] == b;
    } else {
      CutAt(a[1..], c, b);
      assert (a + [c] + b)[1..] == a[1..] + [c] + b;
      assert [a[0]] + a[1..] == a;
    }
  }

  // --- Numbers --------------------------------------------------------------------------

  predicate IsDigit(c: char) {
    '0' <= c <= '9'
  }

  function DigitValue(c: char): nat
    requires IsDigit(c)
  {
    (c - '0') as nat
  }

  /** A conversion: a value, or `ErrSyntax`, or `ErrRange`, whichever is met first from the left. */
  datatype Number = Value(n: nat) | Syntax | Range

  function Digits(s: string, n: nat, max: nat): Number {
    if s == "" then Value(n)
    else if !IsDigit(s[0]) then Syntax
    else if n * 10 + DigitValue(s[0]) > max then Range
    else Digits(s[1..], n * 10 + DigitValue(s[0]), max)
  }

  /** `strconv.ParseUint(s, 10, bits)`, with the largest value instead of the bits. */
  function ParseUint(s: string, max: nat): Number {
    if s == "" then Syntax else Digits(s, 0, max)
  }

  const MAX_UINT16: nat := 65535
  const MAX_UINT32: nat := 4294967295
  const MAX_UINT64: nat := 18446744073709551615
  const MAX_INT64: int := 9223372036854775807

  /** What ParseUint returns beside the error. */
  function UintOrClamped(s: string): nat {
    match ParseUint(s, MAX_UINT64)
    case Value(n) => n
    case Syntax => 0
    case Range => MAX_UINT64
  }

  datatype Integer = Integer(v: int, ok: bool)

  /** `strconv.ParseInt(s, 10, 64)`, and `Atoi` where int has 64 bits: zero beside a syntax error
      and the nearest value beside a range error. */
  function ParseInt(s: string): Integer {
    if s == "" then Integer(0, false)
    else
      var neg := s[0] == '-';
      var digits := if s[0] == '+' || neg then s[1..] else s;
      match ParseUint(digits, MAX_UINT64)
      case Syntax => Integer(0, false)
      case Range => Integer(if neg then -MAX_INT64 - 1 else MAX_INT64, false)
      case Value(n) =>
        if !neg && n > MAX_INT64 then Integer(MAX_INT64, false)
        else if neg && n > MAX_INT64 + 1 then Integer(-MAX_INT64 - 1, false)
        else Integer(if neg then 0 - n else n as int, true)
  }

  function DigitChar(d: nat): char
    requires d < 10
  {
    '0' + d as char
  }

  /** The decimal form of a number. */
  function Decimal(n: nat): string {
    if n < 10 then [DigitChar(n)] else Decimal(n / 10) + [DigitChar(n % 10)]
  }

  predicate AllDigits(s: string) {
    forall i :: 0 <= i < |s| ==> IsDigit(s[i])
  }

  /** The number a string of digits stands for. */
  function ValueOf(s: string): nat
    requires AllDigits(s)
  {
    if s == "" then 0 else ValueOf(s[..|s| - 1]) * 10 + DigitValue(s[|s| - 1])
  }

  lemma {:induction false} DigitsSnoc(s: string, c: char, n: nat, max: nat)
    ensures Digits(s + [c], n, max)
            == if !Digits(s, n, max).Value? then Digits(s, n, max) else Digits([c], Digits(s, n, max).n, max)
    decreases |s|
  {
    if s == "" {
      assert s + [c] == [c];
    } else if IsDigit(s[0]) && n * 10 + DigitValue(s[0]) <= max {
      DigitsSnoc(s[1..], c, n * 10 + DigitValue(s[0]), max);
      assert (s + [c])[1..] == s[1..] + [c];
    }
  }

  /** A conversion succeeds exactly on digits whose value fits, with that value. */
  lemma {:induction false} DigitsMean(s: string, max: nat)
    ensures Digits(s, 0, max).Value? <==> AllDigits(s) && (s == "" || ValueOf(s) <= max)
    ensures Digits(s, 0, max).Value? ==> Digits(s, 0, max).n == ValueOf(s)
    decreases |s|
  {
    if s != "" {
      var front, c := s[..|s| - 1], s[|s| - 1];
      assert s == front + [c];
      DigitsSnoc(front, c, 0, max);
      DigitsMean(front, max);
    }
  }

  lemma ParseUintMeans(s: string, max: nat)
    ensures ParseUint(s, max).Value? <==> s != "" && AllDigits(s) && ValueOf(s) <= max
    ensures ParseUint(s, max).Value? ==> ParseUint(s, max).n == ValueOf(s)
  {
    DigitsMean(s, max);
  }

  lemma {:induction false} DecimalMeans(n: nat)
    ensures Decimal(n) != "" && AllDigits(Decimal(n)) && ValueOf(Decimal(n)) == n
  {
    if n < 10 {
      assert [DigitChar(n)][..0] == "";
    } else {
      DecimalMeans(n / 10);
      assert Decimal(n)[..|Decimal(n)| - 1] == Decimal(n / 10);
    }
  }

  /** Reading a printed number gives the number, or a range error when it does not fit. */
  lemma NumberRoundTrip(n: nat, max: nat)
    ensures ParseUint(Decimal(n), max).Value? <==> n <= max
    ensures n <= max ==> ParseUint(Decimal(n), max) == Value(n)
    ensures n <= MAX_INT64 ==> ParseInt(Decimal(n)) == Integer(n, true)
  {
    DecimalMeans(n);
    ParseUintMeans(Decimal(n), max);
    ParseUintMeans(Decimal(n), MAX_UINT64);
    assert IsDigit(Decimal(n)[0]);
  }
}
