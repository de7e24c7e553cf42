/** The validation of a scanned configuration in internal/config/tunnel.go and params.go, and the
    tunnel MTU derived from it. */
module ConfigValidate {
  import opened Basics
  import opened Text
  import opened ConfigScan
  import opened ConfigValues

  // --- The tables -----------------------------------------------------------------------

  /** How a value is checked; the kinds after `ObfChain` are the keys of `kindOther`. */
  datatype Kind =
    | Uint16 | RangeU32 | RangeU16 | Bool | KeyBase64 | ObfChain
    | Cidrs | Dns | Endpoint | Keepalive | Mtu | Table

  datatype Policy = Policy(iface: map<string, Kind>, peer: map<string, Kind>, hooks: set<string>, emptyOk: set<string>)

  /** The tables of params.go. */
  function SupportedParams(): Policy {
    Policy(
      map[
        "privatekey" := KeyBase64, "listenport" := Uint16, "mtu" := Mtu, "address" := Cidrs, "dns" := Dns, "table" := Table,
        "jc" := Uint16, "jmin" := Uint16, "jmax" := Uint16,
        "s1" := Uint16, "s2" := Uint16, "s3" := Uint16, "s4" := Uint16,
        "h1" := RangeU32, "h2" := RangeU32, "h3" := RangeU32, "h4" := RangeU32,
        "i1" := ObfChain, "i2" := ObfChain, "i3" := ObfChain, "i4" := ObfChain, "i5" := ObfChain,
        "headerprotectionkey" := KeyBase64, "contentpaddingaddition" := RangeU16,
        "rekeyaftertime" := RangeU16, "rekeytimeout" := RangeU16, "rejectaftertime" := RangeU16,
        "keepalivetimeout" := RangeU16, "maxhandshakeattempts" := RangeU16,
        "randomtrailers" := Bool, "disablecookies" := Bool],
      map[
        "publickey" := KeyBase64, "presharedkey" := KeyBase64, "allowedips" := Cidrs,
        "persistentkeepalive" := Keepalive, "endpoint" := Endpoint],
      {"preup", "postup", "predown", "postdown"},
      {"i1", "i2", "i3", "i4", "i5", "headerprotectionkey", "contentpaddingaddition",
       "rekeyaftertime", "rekeytimeout", "rejectaftertime", "keepalivetimeout", "maxhandshakeattempts",
       "randomtrailers", "disablecookies"})
  }

  const MIN_MTU: int := 576
  const MAX_MTU: int := 65535

  ghost predicate ValueOk(kind: Kind, v: string, f: Foreign) {
    match kind
    case Uint16 => UintAtMost(v, MAX_UINT16)
    case RangeU32 => ParseUintRange(v, MAX_UINT32).Some?
    case RangeU16 => ParseUintRange(v, MAX_UINT32).Some?
    case Bool => ParseAWGBool(v).Some?
    case KeyBase64 => f.keyLength(v) == Some(32)
    case ObfChain => true
    case Cidrs => CidrList(v, f)
    case Dns => DnsList(v, f)
    case Endpoint => EndpointOk(v, f)
    case Keepalive => v == "off" || v == "(off)" || UintAtMost(v, MAX_UINT16)
    case Mtu => var n := ParseInt(v); n.ok && MIN_MTU <= n.v <= MAX_MTU
    case Table => Lower(v) == "off"
  }

  /** `validateValue`. */
  method ValidateValue(kind: Kind, v: string, f: Foreign) returns (ok: bool)
    ensures ok <==> ValueOk(kind, v, f)
  {
    match kind
    case Uint16 => ok := UintAtMost(v, MAX_UINT16);
    case RangeU32 => ok := ParseUintRange(v, MAX_UINT32).Some?;
    case RangeU16 => ok := ParseUintRange(v, MAX_UINT32).Some?;
    case Bool => ok := ParseAWGBool(v).Some?;
    case KeyBase64 =>
      var n := f.keyLength(v);
      ok := n.Some? && n.value == 32;
    case ObfChain => ok := true;
    case Cidrs => ok := ValidateCIDRList(v, f);
    case Dns => ok := ValidateDNSList(v, f);
    case Endpoint => ok := EndpointOk(v, f);
    case Keepalive => ok := v == "off" || v == "(off)" || UintAtMost(v, MAX_UINT16);
    case Mtu =>
      var n := ParseInt(v);
      ok := n.ok && MIN_MTU <= n.v <= MAX_MTU;
    case Table => ok := Lower(v) == "off";
  }

  predicate IsDecimal(v: string, max: nat) {
    v != "" && AllDigits(v) && ValueOf(v) <= max
  }

  /** Which texts the numeric kinds stand for. */
  lemma NumericValues(v: string, f: Foreign)
    ensures ValueOk(Uint16, v, f) <==> IsDecimal(v, 65535)
    ensures ValueOk(Keepalive, v, f) <==> v == "off" || v == "(off)" || IsDecimal(v, 65535)
    ensures ValueOk(Mtu, v, f) <==>
              exists sign, digits :: (sign == "" || sign == "+") && v == sign + digits && digits != "" && AllDigits(digits)
                                     && 576 <= ValueOf(digits) <= 65535
    ensures ValueOk(RangeU32, v, f) <==> exists a, b :: IsRangeText(v, a, b, 4294967295)
    ensures ValueOk(RangeU16, v, f) <==> ValueOk(RangeU32, v, f)
  {
    ParseUintMeans(v, MAX_UINT64);
    PositiveIntegers(v, MIN_MTU, MAX_MTU);
    RangesAreTexts(v, MAX_UINT32);
  }

  // --- What is accepted -----------------------------------------------------------------

  predicate UniqueUpTo(es: seq<KV>, n: nat)
    requires n <= |es|
  {
    forall i, j :: 0 <= i < j < n ==> es[i].key != es[j].key
  }

  predicate UniqueKeys(es: seq<KV>) {
    UniqueUpTo(es, |es|)
  }

  ghost predicate InterfaceEntryOk(e: KV, p: Policy, f: Foreign) {
    && e.key !in p.hooks && e.key in p.iface
    && if e.value == "" then e.key in p.emptyOk else ValueOk(p.iface[e.key], e.value, f)
  }

  ghost predicate PeerEntryOk(e: KV, p: Policy, f: Foreign) {
    e.key in p.peer && e.value != "" && ValueOk(p.peer[e.key], e.value, f)
  }

  /** The value of a key that is set: an empty value means explicitly unset. */
  ghost predicate IsSet(es: seq<KV>, key: string, v: string) {
    v != "" && exists i :: 0 <= i < |es| && es[i].key == key && es[i].value == v
                           && forall j :: 0 <= j < i ==> es[j].key != key
  }

  ghost predicate NumberIs(es: seq<KV>, key: string, n: nat) {
    exists v :: IsSet(es, key, v) && ParseUint(v, MAX_UINT64) == Value(n)
  }

  function HeaderName(i: nat): string {
    if i == 0 then "h1" else if i == 1 then "h2" else if i == 2 then "h3" else "h4"
  }

  function PrefixName(i: nat): string {
    if i == 0 then "s1" else if i == 1 then "s2" else if i == 2 then "s3" else "s4"
  }

  predicate Contains(r: UintRange, t: nat) {
    r.lo <= t <= r.hi
  }

  /** The message type `t` is in the range configured for header `i`. */
  ghost predicate HasType(es: seq<KV>, i: nat, t: nat) {
    exists v :: IsSet(es, HeaderName(i), v) && ParseUintRange(v, MAX_UINT32).Some?
                && Contains(ParseUintRange(v, MAX_UINT32).value, t)
  }

  const HEADER_CIPHER_NONCE_SIZE: nat := 12

  /** Junk packets need a size range. */
  ghost predicate JunkOk(es: seq<KV>) {
    (exists jc: nat :: NumberIs(es, "jc", jc) && jc > 0) ==>
      exists lo: nat, hi: nat :: NumberIs(es, "jmin", lo) && NumberIs(es, "jmax", hi) && lo <= hi && hi > 0
  }

  /** No message type has two meanings. */
  ghost predicate TypesDisjoint(es: seq<KV>) {
    forall i: nat, j: nat, t: nat :: i < j < 4 ==> !(HasType(es, i, t) && HasType(es, j, t))
  }

  ghost predicate NumberAtLeast(es: seq<KV>, key: string, min: nat) {
    exists n: nat :: NumberIs(es, key, n) && n >= min
  }

  /** Header protection needs room for its nonce in all four prefixes. */
  ghost predicate PrefixesOk(es: seq<KV>) {
    (exists v :: IsSet(es, "headerprotectionkey", v)) ==>
      forall i: nat :: i < 4 ==> NumberAtLeast(es, PrefixName(i), HEADER_CIPHER_NONCE_SIZE)
  }

  ghost predicate SemanticsOk(es: seq<KV>) {
    JunkOk(es) && TypesDisjoint(es) && PrefixesOk(es)
  }

  ghost predicate InterfaceOk(es: seq<KV>, p: Policy, f: Foreign) {
    UniqueKeys(es) && forall i :: 0 <= i < |es| ==> InterfaceEntryOk(es[i], p, f)
  }

  ghost predicate PeerOk(es: seq<KV>, p: Policy, f: Foreign) {
    UniqueKeys(es) && forall i :: 0 <= i < |es| ==> PeerEntryOk(es[i], p, f)
  }

  ghost predicate Acceptable(s: Scan, p: Policy, f: Foreign) {
    && InterfaceOk(s.iface, p, f) && SemanticsOk(s.iface)
    && forall k :: 0 <= k < |s.peers| ==> PeerOk(s.peers[k], p, f)
  }

  // --- The checks between parameters ----------------------------------------------------

  lemma SetOnce(es: seq<KV>, key: string, v: string, w: string)
    requires IsSet(es, key, v) && IsSet(es, key, w)
    ensures v == w
  {
  }

  /** The closure `get`. */
  method Get(es: seq<KV>, key: string) returns (v: string, ok: bool)
    ensures ok <==> IsSet(es, key, v)
    ensures !ok ==> forall w :: !IsSet(es, key, w)
  {
    for i := 0 to |es|
      invariant forall j :: 0 <= j < i ==> es[j].key != key
    {
      if es[i].key == key {
        return es[i].value, es[i].value != "";
      }
    }
    return "", false;
  }

  /** The closure `num`. */
  method Num(es: seq<KV>, key: string) returns (n: nat, ok: bool)
    ensures ok ==> NumberIs(es, key, n) && forall m :: NumberIs(es, key, m) ==> m == n
    ensures !ok ==> n == 0 && forall m :: !NumberIs(es, key, m)
  {
    var v, given := Get(es, key);
    if !given {
      return 0, false;
    }
    forall w | IsSet(es, key, w) ensures w == v {
      SetOnce(es, key, v, w);
    }
    var r := ParseUint(v, MAX_UINT64);
    match r
    case Value(m) => return m, true;
    case _ => return 0, false;
  }

  datatype Header = Header(index: nat, r: UintRange)

  /** These are the header ranges that are set, in order. */
  ghost predicate HeadersOf(es: seq<KV>, hs: seq<Header>) {
    && (forall k :: 0 <= k < |hs| ==> hs[k].index < 4 && hs[k].r.lo <= hs[k].r.hi
                                      && forall t: nat :: HasType(es, hs[k].index, t) <==> Contains(hs[k].r, t))
    && (forall j, k :: 0 <= j < k < |hs| ==> hs[j].index < hs[k].index)
    && (forall i: nat, t: nat :: i < 4 && HasType(es, i, t) ==> exists k :: 0 <= k < |hs| && hs[k].index == i)
  }

  lemma NoOverlapDisjoint(es: seq<KV>, hs: seq<Header>)
    requires HeadersOf(es, hs) && forall k, j :: 0 <= k < j < |hs| ==> !Overlap(hs[k].r, hs[j].r)
    ensures TypesDisjoint(es)
  {
    forall i: nat, j: nat, t: nat | i < j < 4 && HasType(es, i, t)
      ensures !HasType(es, j, t)
    {
      var k :| 0 <= k < |hs| && hs[k].index == i;
      forall m | 0 <= m < |hs| && hs[m].index == j
        ensures !Contains(hs[m].r, t)
      {
        OverlapIsCommonValue(hs[k].r, hs[m].r);
      }
    }
  }

  lemma OverlapShared(es: seq<KV>, hs: seq<Header>, i: nat, j: nat) returns (t: nat)
    requires HeadersOf(es, hs) && i < j < |hs| && Overlap(hs[i].r, hs[j].r)
    ensures hs[i].index < hs[j].index < 4 && HasType(es, hs[i].index, t) && HasType(es, hs[j].index, t)
  {
    OverlapIsCommonValue(hs[i].r, hs[j].r);
    t :| Contains(hs[i].r, t) && Contains(hs[j].r, t);
  }

  /** The header ranges that are set, in order. */
  method Headers(es: seq<KV>) returns (hs: seq<Header>)
    ensures HeadersOf(es, hs)
  {
    hs := [];
    for i := 0 to 4
      invariant forall k :: 0 <= k < |hs| ==> hs[k].index < i && hs[k].r.lo <= hs[k].r.hi
                                              && forall t: nat :: HasType(es, hs[k].index, t) <==> Contains(hs[k].r, t)
      invariant forall j, k :: 0 <= j < k < |hs| ==> hs[j].index < hs[k].index
      invariant forall m: nat, t: nat :: m < i && HasType(es, m, t) ==> exists k :: 0 <= k < |hs| && hs[k].index == m
    {
      var r := HeaderRange(es, i);
      if r.Some? {
        ghost var before := hs;
        hs := hs + [Header(i, r.value)];
        assert forall k :: 0 <= k < |before| ==> hs[k] == before[k];
        assert hs[|before|].index == i;
      }
    }
  }

  method HeaderRange(es: seq<KV>, i: nat) returns (r: Option<UintRange>)
    ensures forall t: nat :: HasType(es, i, t) <==> r.Some? && Contains(r.value, t)
    ensures r.Some? ==> r.value.lo <= r.value.hi
  {
    var v, given := Get(es, HeaderName(i));
    if !given {
      return None;
    }
    forall w | IsSet(es, HeaderName(i), w) ensures w == v {
      SetOnce(es, HeaderName(i), v, w);
    }
    RangesAreRanges(v, MAX_UINT32);
    return ParseUintRange(v, MAX_UINT32);
  }

  datatype Problem =
    | ScriptHook(line: nat) | Unsupported(line: nat) | Duplicate(line: nat, first: nat) | NoValue(line: nat)
    | BadValue(line: nat) | JunkSizesUnset | JunkSizesReversed | JunkSizeZero | HeadersOverlap(a: nat, b: nat)
    | PrefixTooShort(i: nat) | PeerDuplicate(line: nat, peer: nat)

  method CheckJunk(es: seq<KV>) returns (err: Option<Problem>)
    ensures err.None? <==> JunkOk(es)
    ensures err == Some(JunkSizesReversed) ==>
              exists lo: nat, hi: nat :: NumberIs(es, "jmin", lo) && NumberIs(es, "jmax", hi) && lo > hi
    ensures err == Some(JunkSizeZero) ==> NumberIs(es, "jmax", 0)
    ensures err == Some(JunkSizesUnset) <==>
              (exists jc: nat :: NumberIs(es, "jc", jc) && jc > 0)
              && !((exists lo: nat :: NumberIs(es, "jmin", lo)) && (exists hi: nat :: NumberIs(es, "jmax", hi)))
  {
    var jc, hasJc := Num(es, "jc");
    var jmin, hasJmin := Num(es, "jmin");
    var jmax, hasJmax := Num(es, "jmax");
    if hasJc && jc > 0 {
      if !hasJmin || !hasJmax {
        return Some(JunkSizesUnset);
      }
      if jmin > jmax {
        return Some(JunkSizesReversed);
      }
      if jmax == 0 {
        return Some(JunkSizeZero);
      }
    }
    return None;
  }

  predicate Overlap(a: UintRange, b: UintRange) {
    a.lo <= b.hi && b.lo <= a.hi
  }

  /** Comparing the bounds is comparing the ranges as sets. */
  lemma OverlapIsCommonValue(a: UintRange, b: UintRange)
    requires a.lo <= a.hi && b.lo <= b.hi
    ensures Overlap(a, b) <==> exists t: nat :: Contains(a, t) && Contains(b, t)
  {
    if Overlap(a, b) {
      var t := if a.lo <= b.lo then b.lo else a.lo;
      assert Contains(a, t) && Contains(b, t);
    }
  }

  method CheckHeaders(es: seq<KV>) returns (err: Option<Problem>)
    ensures err.None? <==> TypesDisjoint(es)
    ensures err.Some? ==> err.value.HeadersOverlap? && err.value.a < err.value.b < 4
                          && exists t: nat :: HasType(es, err.value.a, t) && HasType(es, err.value.b, t)
  {
    var hs := Headers(es);
    for i := 0 to |hs|
      invariant forall k, j :: 0 <= k < i && k < j < |hs| ==> !Overlap(hs[k].r, hs[j].r)
    {
      for j := i + 1 to |hs|
        invariant forall m :: i < m < j ==> !Overlap(hs[i].r, hs[m].r)
      {
        if Overlap(hs[i].r, hs[j].r) {
          ghost var t := OverlapShared(es, hs, i, j);
          return Some(HeadersOverlap(hs[i].index, hs[j].index));
        }
      }
    }
    NoOverlapDisjoint(es, hs);
    return None;
  }

  method CheckPrefixes(es: seq<KV>) returns (err: Option<Problem>)
    ensures err.None? <==> PrefixesOk(es)
    ensures err.Some? ==> err.value.PrefixTooShort? && err.value.i < 4
                          && !NumberAtLeast(es, PrefixName(err.value.i), HEADER_CIPHER_NONCE_SIZE)
  {
    var key, given := Get(es, "headerprotectionkey");
    if !given {
      return None;
    }
    for i := 0 to 4
      invariant forall k: nat :: k < i ==> NumberAtLeast(es, PrefixName(k), HEADER_CIPHER_NONCE_SIZE)
    {
      var n, has := Num(es, PrefixName(i));
      if !has || n < HEADER_CIPHER_NONCE_SIZE {
        assert !NumberAtLeast(es, PrefixName(i), HEADER_CIPHER_NONCE_SIZE);
        return Some(PrefixTooShort(i));
      }
    }
    return None;
  }

  /** `validateInterfaceSemantics`. */
  method ValidateInterfaceSemantics(es: seq<KV>) returns (err: Option<Problem>)
    ensures err.None? <==> SemanticsOk(es)
  {
    err := CheckJunk(es);
    if err.Some? {
      return;
    }
    err := CheckHeaders(es);
    if err.Some? {
      return;
    }
    err := CheckPrefixes(es);
  }

  // --- The sections ---------------------------------------------------------------------

  /** `seen` holds the line of each key among the first `n` entries. */
  ghost predicate SeenIs(seen: map<string, nat>, es: seq<KV>, n: nat)
    requires n <= |es|
  {
    && (forall i :: 0 <= i < n ==> es[i].key in seen && seen[es[i].key] == es[i].line)
    && (forall k :: k in seen ==> exists i :: 0 <= i < n && es[i].key == k)
  }

  /** What is wrong with the entry at `j`. */
  ghost predicate Explains(err: Problem, es: seq<KV>, j: nat, p: Policy, f: Foreign)
    requires j < |es|
  {
    var e := es[j];
    match err
    case ScriptHook(line) => line == e.line && e.key in p.hooks
    case Unsupported(line) => line == e.line && e.key !in p.hooks && e.key !in p.iface
    case Duplicate(line, first) => line == e.line && exists i :: 0 <= i < j && es[i].key == e.key && es[i].line == first
    case NoValue(line) => line == e.line && e.value == "" && e.key !in p.emptyOk
    case BadValue(line) => line == e.line && e.value != "" && e.key in p.iface && !ValueOk(p.iface[e.key], e.value, f)
    case _ => false
  }

  method CheckInterfaceKey(e: KV, p: Policy) returns (err: Option<Problem>)
    ensures err == if e.key in p.hooks then Some(ScriptHook(e.line))
                   else if e.key !in p.iface then Some(Unsupported(e.line)) else None
  {
    if e.key in p.hooks {
      return Some(ScriptHook(e.line));
    }
    if e.key !in p.iface {
      return Some(Unsupported(e.line));
    }
    return None;
  }

  method CheckInterfaceValue(e: KV, p: Policy, f: Foreign) returns (err: Option<Problem>)
    requires e.key !in p.hooks && e.key in p.iface
    ensures err.None? <==> InterfaceEntryOk(e, p, f)
    ensures err.Some? ==> err.value == if e.value == "" then NoValue(e.line) else BadValue(e.line)
  {
    if e.value == "" {
      return if e.key !in p.emptyOk then Some(NoValue(e.line)) else None;
    }
    var ok := ValidateValue(p.iface[e.key], e.value, f);
    return if ok then None else Some(BadValue(e.line));
  }

  /** One turn of the first loop of `validateScan`. */
  method CheckInterfaceEntry(es: seq<KV>, i: nat, seen: map<string, nat>, p: Policy, f: Foreign) returns (err: Option<Problem>)
    requires i < |es| && SeenIs(seen, es, i) && forall j :: 0 <= j < |es| ==> es[j].line > 0
    ensures err.None? <==> InterfaceEntryOk(es[i], p, f) && forall j :: 0 <= j < i ==> es[j].key != es[i].key
    ensures err.Some? ==> Explains(err.value, es, i, p, f)
  {
    var e := es[i];
    err := CheckInterfaceKey(e, p);
    if err.Some? {
      return;
    }
    if e.key in seen && seen[e.key] > 0 {
      return Some(Duplicate(e.line, seen[e.key]));
    }
    err := CheckInterfaceValue(e, p, f);
  }

  ghost predicate GoodUpTo(es: seq<KV>, n: nat, p: Policy, f: Foreign)
    requires n <= |es|
  {
    UniqueUpTo(es, n) && forall i :: 0 <= i < n ==> InterfaceEntryOk(es[i], p, f)
  }

  lemma GoodStep(es: seq<KV>, n: nat, seen: map<string, nat>, p: Policy, f: Foreign)
    requires n < |es| && SeenIs(seen, es, n) && GoodUpTo(es, n, p, f)
    requires InterfaceEntryOk(es[n], p, f) && forall j :: 0 <= j < n ==> es[j].key != es[n].key
    ensures SeenIs(seen[es[n].key := es[n].line], es, n + 1) && GoodUpTo(es, n + 1, p, f)
  {
  }

  lemma BadEntry(es: seq<KV>, n: nat, p: Policy, f: Foreign)
    requires n < |es| && (InterfaceEntryOk(es[n], p, f) ==> exists j :: 0 <= j < n && es[j].key == es[n].key)
    ensures !InterfaceOk(es, p, f)
  {
  }

  /** The whole loop: it reports the first entry that is wrong, and why. */
  method ValidateInterface(es: seq<KV>, p: Policy, f: Foreign) returns (err: Option<Problem>, at: nat)
    requires forall i :: 0 <= i < |es| ==> es[i].line > 0
    ensures err.None? <==> InterfaceOk(es, p, f)
    ensures err.Some? ==> at < |es| && Explains(err.value, es, at, p, f) && GoodUpTo(es, at, p, f)
  {
    var seen: map<string, nat> := map[];
    for i := 0 to |es|
      invariant SeenIs(seen, es, i) && GoodUpTo(es, i, p, f)
    {
      err := CheckInterfaceEntry(es, i, seen, p, f);
      if err.Some? {
        BadEntry(es, i, p, f);
        return err, i;
      }
      GoodStep(es, i, seen, p, f);
      seen := seen[es[i].key := es[i].line];
    }
    return None, |es|;
  }

  method CheckPeerEntry(e: KV, p: Policy, f: Foreign) returns (err: Option<Problem>)
    requires e.key in p.peer
    ensures err.None? <==> PeerEntryOk(e, p, f)
    ensures err.Some? ==> err == Some(if e.value == "" then NoValue(e.line) else BadValue(e.line))
  {
    if e.value == "" {
      return Some(NoValue(e.line));
    }
    var ok := ValidateValue(p.peer[e.key], e.value, f);
    return if ok then None else Some(BadValue(e.line));
  }

  /** What is wrong with the entry at `j` of the given peer. */
  ghost predicate PeerExplains(err: Problem, es: seq<KV>, j: nat, p: Policy, f: Foreign, peer: nat)
    requires j < |es|
  {
    var e := es[j];
    match err
    case Unsupported(line) => line == e.line && e.key !in p.peer
    case PeerDuplicate(line, which) => line == e.line && which == peer && exists i :: 0 <= i < j && es[i].key == e.key
    case NoValue(line) => line == e.line && e.value == ""
    case BadValue(line) => line == e.line && e.value != "" && e.key in p.peer && !ValueOk(p.peer[e.key], e.value, f)
    case _ => false
  }

  /** The loop over the entries of one peer: it reports the first wrong one, at `at`. */
  method ValidatePeer(es: seq<KV>, p: Policy, f: Foreign, peer: nat) returns (err: Option<Problem>, at: nat)
    ensures err.None? <==> PeerOk(es, p, f)
    ensures err.Some? ==>
              && at < |es| && PeerExplains(err.value, es, at, p, f, peer)
              && UniqueUpTo(es, at) && forall k :: 0 <= k < at ==> PeerEntryOk(es[k], p, f)
  {
    var pseen: set<string> := {};
    at := 0;
    for i := 0 to |es|
      invariant forall k :: k in pseen <==> exists j :: 0 <= j < i && es[j].key == k
      invariant UniqueUpTo(es, i)
      invariant forall k :: 0 <= k < i ==> PeerEntryOk(es[k], p, f)
    {
      var e := es[i];
      at := i;
      if e.key !in p.peer {
        assert !PeerEntryOk(es[i], p, f);
        return Some(Unsupported(e.line)), at;
      }
      if e.key in pseen {
        return Some(PeerDuplicate(e.line, peer)), at;
      }
      pseen := pseen + {e.key};
      err := CheckPeerEntry(e, p, f);
      if err.Some? {
        return;
      }
    }
    err := None;
  }

  /** `validateScan`: accepts exactly the scans that meet the declarative description. */
  method ValidateScan(s: Scan, p: Policy, f: Foreign) returns (err: Option<Problem>)
    requires forall i :: 0 <= i < |s.iface| ==> s.iface[i].line > 0
    ensures err.None? <==> Acceptable(s, p, f)
  {
    var at;
    err, at := ValidateInterface(s.iface, p, f);
    if err.Some? {
      return;
    }
    err := ValidateInterfaceSemantics(s.iface);
    if err.Some? {
      return;
    }
    for k := 0 to |s.peers|
      invariant forall j :: 0 <= j < k ==> PeerOk(s.peers[j], p, f)
    {
      err, at := ValidatePeer(s.peers[k], p, f, k + 1);
      if err.Some? {
        assert !PeerOk(s.peers[k], p, f);
        return;
      }
    }
    return None;
  }
}
