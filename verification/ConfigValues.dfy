/** The value formats of internal/config/tunnel.go: numbers, ranges, switches, lists and endpoints. */
module ConfigValues {
  import opened Basics
  import opened Text

  /** `netip.ParseAddr` and `netip.ParsePrefix` accept the text; the length of a decoded base64 key. */
  datatype Foreign = Foreign(isAddr: string -> bool, isPrefix: string -> bool, keyLength: string -> Option<nat>)

  /** `strconv.ParseUint(s, 10, 64)` and a comparison. */
  predicate UintAtMost(s: string, max: nat) {
    var n := ParseUint(s, MAX_UINT64);
    n.Value? && n.n <= max
  }

  // --- Ranges ---------------------------------------------------------------------------

  datatype UintRange = UintRange(lo: nat, hi: nat)

  function RangeOfParts(parts: seq<string>, max: nat): Option<UintRange> {
    if |parts| < 1 || |parts| > 2 then None
    else
      var lo := ParseUint(TrimSpace(parts[0]), max);
      var hi := if |parts| == 2 then ParseUint(TrimSpace(parts[1]), max) else lo;
      if !lo.Value? || !hi.Value? || hi.n < lo.n then None else Some(UintRange(lo.n, hi.n))
  }

  /** `ParseUintRange`, with the largest value instead of the bits. */
  function ParseUintRange(s: string, max: nat): Option<UintRange> {
    RangeOfParts(Split(TrimSpace(s), '-'), max)
  }

  /** Every accepted range is one, within the bits asked for. */
  lemma RangesAreRanges(s: string, max: nat)
    ensures ParseUintRange(s, max).Some? ==>
              var r := ParseUintRange(s, max).value; r.lo <= r.hi <= max
  {
    var parts := Split(TrimSpace(s), '-');
    if |parts| <= 2 {
      ParseUintMeans(TrimSpace(parts[0]), max);
      ParseUintMeans(TrimSpace(parts[|parts| - 1]), max);
    }
  }

  /** A text of digits whose value fits, blanks around it allowed. */
  predicate IsNumber(s: string, max: nat) {
    var t := TrimSpace(s);
    t != "" && AllDigits(t) && ValueOf(t) <= max
  }

  predicate IsRangeText(s: string, a: string, b: string, max: nat) {
    && '-' !in a && '-' !in b && (TrimSpace(s) == a == b || TrimSpace(s) == a + "-" + b)
    && IsNumber(a, max) && IsNumber(b, max) && ValueOf(TrimSpace(a)) <= ValueOf(TrimSpace(b))
  }

  /** What is accepted: one number, or two of them in order with a hyphen between. */
  lemma RangesAreTexts(s: string, max: nat)
    ensures ParseUintRange(s, max).Some? <==> exists a, b :: IsRangeText(s, a, b, max)
  {
    var t := TrimSpace(s);
    var parts := Split(t, '-');
    JoinSplit(t, '-');
    if ParseUintRange(s, max).Some? {
      var a, b := parts[0], parts[|parts| - 1];
      ParseUintMeans(TrimSpace(a), max);
      ParseUintMeans(TrimSpace(b), max);
      if |parts| == 2 {
        assert Join(parts[1..], '-') == b;
      }
      assert IsRangeText(s, a, b, max);
    }
    forall a, b | IsRangeText(s, a, b, max)
      ensures ParseUintRange(s, max).Some?
    {
      ParseUintMeans(TrimSpace(a), max);
      ParseUintMeans(TrimSpace(b), max);
      if t == a {
        SplitOne(a, '-');
      } else {
        assert t == a + ['-'] + b;
        SplitFirst(a, '-', b);
        SplitOne(b, '-');
        assert parts == [a, b];
      }
    }
  }

  /** `Atoi`, for a result that cannot be negative: digits, with or without a plus sign. */
  lemma PositiveIntegers(s: string, lo: int, hi: int)
    requires 0 < lo <= hi <= MAX_INT64
    ensures (ParseInt(s).ok && lo <= ParseInt(s).v <= hi)
            <==> exists sign, digits :: (sign == "" || sign == "+") && s == sign + digits && digits != "" && AllDigits(digits)
                                        && lo <= ValueOf(digits) <= hi
  {
    var neg := s != "" && s[0] == '-';
    var rest := if s != "" && (s[0] == '+' || neg) then s[1..] else s;
    ParseUintMeans(rest, MAX_UINT64);
    if ParseInt(s).ok && lo <= ParseInt(s).v <= hi {
      var sign := if s[0] == '+' then "+" else "";
      assert s == sign + rest;
    }
    forall sign: string, digits: string | (sign == "" || sign == "+") && s == sign + digits && digits != "" && AllDigits(digits)
             && lo <= ValueOf(digits) <= hi
      ensures ParseInt(s).ok && lo <= ParseInt(s).v <= hi
    {
      assert IsDigit(digits[0]);
      assert rest == digits;
    }
  }

  lemma DecimalIsPlain(n: nat)
    ensures Trimmed(Decimal(n)) && '-' !in Decimal(n)
  {
    DecimalMeans(n);
    forall i | 0 <= i < |Decimal(n)|
      ensures Decimal(n)[i] != '-' && !IsSpace(Decimal(n)[i])
    {
      assert IsDigit(Decimal(n)[i]);
    }
  }

  /** Both documented forms are read as written: "a" as the range from a to a, and "a-b", which is
      accepted if and only if a <= b and both fit. */
  lemma RangeRoundTrip(a: nat, b: nat, max: nat)
    ensures ParseUintRange(Decimal(a), max) == if a <= max then Some(UintRange(a, a)) else None
    ensures ParseUintRange(Decimal(a) + "-" + Decimal(b), max)
            == if a <= b <= max then Some(UintRange(a, b)) else None
  {
    DecimalIsPlain(a);
    DecimalIsPlain(b);
    DecimalMeans(a);
    DecimalMeans(b);
    TrimNothing(Decimal(a));
    TrimNothing(Decimal(b));
    NumberRoundTrip(a, max);
    NumberRoundTrip(b, max);
    SplitOne(Decimal(a), '-');
    var s := Decimal(a) + "-" + Decimal(b);
    assert s[0] == Decimal(a)[0] && s[|s| - 1] == Decimal(b)[|Decimal(b)| - 1];
    TrimNothing(s);
    assert s == Decimal(a) + ['-'] + Decimal(b);
    SplitFirst(Decimal(a), '-', Decimal(b));
    SplitOne(Decimal(b), '-');
    assert Split(s, '-') == [Decimal(a), Decimal(b)];
  }

  // --- Lists ----------------------------------------------------------------------------

  predicate CidrPart(part: string, f: Foreign) {
    part != "" && if '/' in part then f.isPrefix(part) else f.isAddr(part)
  }

  /** `validateCIDRList`. */
  method ValidateCIDRList(s: string, f: Foreign) returns (ok: bool)
    ensures ok <==> CidrList(s, f)
  {
    var parts := Split(s, ',');
    for i := 0 to |parts|
      invariant forall j :: 0 <= j < i ==> CidrPart(TrimSpace(parts[j]), f)
    {
      var part := TrimSpace(parts[i]);
      if part == "" {
        return false;
      }
      if '/' in part {
        if !f.isPrefix(part) {
          return false;
        }
        continue;
      }
      if !f.isAddr(part) {
        return false;
      }
    }
    return true;
  }

  ghost predicate CidrList(s: string, f: Foreign) {
    var parts := Split(s, ',');
    forall i :: 0 <= i < |parts| ==> CidrPart(TrimSpace(parts[i]), f)
  }

  predicate DnsPart(part: string, f: Foreign) {
    part != "" && (f.isAddr(part) || (' ' !in part && '\t' !in part))
  }

  ghost predicate DnsList(s: string, f: Foreign) {
    var parts := Split(s, ',');
    forall i :: 0 <= i < |parts| ==> DnsPart(TrimSpace(parts[i]), f)
  }

  /** `validateDNSList`. */
  method ValidateDNSList(s: string, f: Foreign) returns (ok: bool)
    ensures ok <==> DnsList(s, f)
  {
    var parts := Split(s, ',');
    for i := 0 to |parts|
      invariant forall j :: 0 <= j < i ==> DnsPart(TrimSpace(parts[j]), f)
    {
      var part := TrimSpace(parts[i]);
      if part == "" {
        return false;
      }
      if !f.isAddr(part) && (' ' in part || '\t' in part) {
        return false;
      }
    }
    return true;
  }

  // --- Endpoints ------------------------------------------------------------------------

  /** `strings.LastIndexByte`, as the text before and after it. */
  function CutLast(s: string, c: char): Option<(string, string)> {
    if s == "" then None
    else if s[|s| - 1] == c then Some((s[..|s| - 1], ""))
    else
      match CutLast(s[..|s| - 1], c)
      case None => None
      case Some((a, b)) => Some((a, b + [s[|s| - 1]]))
  }

  lemma {:induction false} CutLastParts(s: string, c: char)
    ensures CutLast(s, c).Some? <==> c in s
    ensures CutLast(s, c).Some? ==> var (a, b) := CutLast(s, c).value; c !in b && s == a + [c] + b
  {
    if s != "" {
      CutLastParts(s[..|s| - 1], c);
      assert s == s[..|s| - 1] + [s[|s| - 1]];
    }
  }

  /** The length of a character in UTF-8. */
  function Utf8Length(s: string): nat {
    if s == "" then 0
    else Utf8Length(s[1..]) + if s[0] < '\U{0080}' then 1 else if s[0] < '\U{0800}' then 2
                              else if s[0] < '\U{10000}' then 3 else 4
  }

  function WithoutZone(inner: string): string {
    match CutLast(inner, '%')
    case Some((a, _)) => if a != "" then a else inner
    case None => inner
  }

  predicate HostOk(host: string, f: Foreign) {
    if host == "" then false
    else if host[0] == '[' then |host| >= 2 && host[|host| - 1] == ']' && f.isAddr(WithoutZone(host[1..|host| - 1]))
    else
      && ':' !in host
      && (f.isAddr(host)
          || (Utf8Length(host) <= 253 && ' ' !in host && '\t' !in host && '/' !in host && '\\' !in host))
  }

  /** An address, or one with a zone: what follows the last percent sign, unless nothing stands before it. */
  ghost predicate IsZoned(inner: string, f: Foreign) {
    || ('%' !in inner && f.isAddr(inner))
    || exists a, zone :: '%' !in zone && inner == a + ['%'] + zone && f.isAddr(if a != "" then a else inner)
  }

  lemma ZoneIsDropped(inner: string, f: Foreign)
    ensures f.isAddr(WithoutZone(inner)) <==> IsZoned(inner, f)
  {
    CutLastParts(inner, '%');
    forall a: string, zone: string | '%' !in zone && inner == a + ['%'] + zone
      ensures CutLast(inner, '%') == Some((a, zone))
    {
      CutLastAt(a, '%', zone);
    }
  }

  lemma {:induction false} Utf8Bounds(s: string)
    ensures |s| <= Utf8Length(s) <= 4 * |s|
    ensures (forall c :: c in s ==> c < '\U{0080}') ==> Utf8Length(s) == |s|
  {
    if s != "" {
      Utf8Bounds(s[1..]);
      assert s[0] in s && forall c :: c in s[1..] ==> c in s;
    }
  }

  /** A text of no more than 253 bytes, without a blank, a slash or a colon, that cannot be taken for an
      address in brackets. */
  predicate IsName(host: string) {
    && host != "" && host[0] != '[' && Utf8Length(host) <= 253
    && forall c :: c in host ==> c !in {' ', '\t', '/', '\\', ':'}
  }

  /** An address in brackets. */
  ghost predicate IsBracketed(host: string, f: Foreign) {
    exists inner :: host == ['['] + inner + [']'] && IsZoned(inner, f)
  }

  lemma BracketsAre(host: string, f: Foreign)
    requires host != "" && host[0] == '['
    ensures HostOk(host, f) <==> IsBracketed(host, f)
  {
    if |host| >= 2 && host[|host| - 1] == ']' {
      var inner := host[1..|host| - 1];
      assert host == ['['] + inner + [']'];
      ZoneIsDropped(inner, f);
      forall other: string | host == ['['] + other + [']']
        ensures other == inner
      {
        assert other == host[1..|host| - 1];
      }
    }
  }

  /** The hosts: an address in brackets; an address without a colon; or a name. */
  lemma HostsAre(host: string, f: Foreign)
    ensures HostOk(host, f) <==>
              IsBracketed(host, f) || (host != "" && host[0] != '[' && ':' !in host && f.isAddr(host)) || IsName(host)
  {
    if host != "" && host[0] == '[' {
      BracketsAre(host, f);
    } else {
      NamesAre(host, f);
    }
  }

  lemma NamesAre(host: string, f: Foreign)
    requires host == "" || host[0] != '['
    ensures !IsBracketed(host, f)
    ensures HostOk(host, f) <==> (host != "" && ':' !in host && f.isAddr(host)) || IsName(host)
  {
  }

  /** `validateEndpoint`. */
  predicate EndpointOk(s: string, f: Foreign) {
    match CutLast(s, ':')
    case None => false
    case Some((host, portStr)) =>
      var port := ParseUint(portStr, MAX_UINT16);
      port.Value? && port.n != 0 && HostOk(host, f)
  }

  /** An endpoint is accepted exactly when it is a host, a colon and the digits of a port from 1 to
      65535; an IPv6 address needs its brackets, since no other host may hold a colon. */
  lemma EndpointsAre(s: string, f: Foreign)
    ensures EndpointOk(s, f) <==>
              exists host, port :: ':' !in port && s == host + ":" + port && HostOk(host, f)
                                   && port != "" && AllDigits(port) && 1 <= ValueOf(port) <= MAX_UINT16
  {
    CutLastParts(s, ':');
    if EndpointOk(s, f) {
      var (host, port) := CutLast(s, ':').value;
      ParseUintMeans(port, MAX_UINT16);
      assert ':' !in port && s == host + ":" + port;
    }
    forall host: string, port: string | ':' !in port && s == host + ":" + port && HostOk(host, f)
             && port != "" && AllDigits(port) && 1 <= ValueOf(port) <= MAX_UINT16
      ensures EndpointOk(s, f)
    {
      CutLastAt(host, ':', port);
      ParseUintMeans(port, MAX_UINT16);
      assert s == host + [':'] + port;
    }
  }

  lemma {:induction false} CutLastAt(a: string, c: char, b: string)
    requires c !in b
    ensures CutLast(a + [c] + b, c) == Some((a, b))
  {
    var s := a + [c] + b;
    if b == "" {
      assert s[..|s| - 1] == a;
    } else {
      var front := b[..|b| - 1];
      CutLastAt(a, c, front);
      assert s[..|s| - 1] == a + [c] + front;
      assert b == front + [b[|b| - 1]];
    }
  }

  // --- Switches -------------------------------------------------------------------------

  const ON_WORDS: set<string> := {"on", "1", "true", "t", "yes"}
  const OFF_WORDS: set<string> := {"off", "0", "false", "f", "no"}

  /** `ParseAWGBool`. */
  function ParseAWGBool(s: string): Option<bool> {
    var w := Lower(TrimSpace(s));
    if w in ON_WORDS then Some(true) else if w in OFF_WORDS then Some(false) else None
  }
}
