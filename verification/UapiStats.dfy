/** The parser of the device's UAPI "get" document in internal/awg/stats.go. */
module UapiStats {
  import opened Basics
  import opened Text

  /** A handshake time is the pair given to `time.Unix`; None is the zero time. */
  datatype PeerStats = PeerStats(
    publicKey: string, endpoint: string, lastHandshake: Option<(int, int)>,
    txBytes: nat, rxBytes: nat, keepalive: string, allowedIPs: seq<string>)

  datatype Stats = Stats(
    listenPort: int, awgParams: map<string, string>, peers: seq<PeerStats>,
    endpoint: string, lastHandshake: Option<(int, int)>, txBytes: nat, rxBytes: nat)

  const SECRET_KEYS: set<string> := {"private_key", "preshared_key", "header_protection_key"}

  const OBFUSCATION_KEYS: set<string> := {
    "jc", "jmin", "jmax", "s1", "s2", "s3", "s4", "h1", "h2", "h3", "h4", "i1", "i2", "i3", "i4", "i5"}

  const TIMING_KEYS: set<string> := {
    "content_padding_addition", "rekey_after_time", "rekey_timeout", "reject_after_time",
    "keepalive_timeout", "max_handshake_attempts", "random_trailers", "disable_cookies"}

  /** `awgUAPIKeys`. */
  predicate IsAwgKey(key: string) {
    key in OBFUSCATION_KEYS || key in TIMING_KEYS
  }

  // --- One line -------------------------------------------------------------------------

  datatype Item =
    | Skip | Errno(v: string) | ListenPort(v: string) | PublicKey(v: string) | Endpoint(v: string)
    | HandshakeSec(v: string) | HandshakeNsec(v: string) | TxBytes(v: string) | RxBytes(v: string)
    | Keepalive(v: string) | AllowedIP(v: string) | Param(key: string, v: string)

  function ItemOf(key: string, value: string): Item {
    if key in SECRET_KEYS then Skip
    else if key == "errno" then Errno(value)
    else if key == "listen_port" then ListenPort(value)
    else if key == "public_key" then PublicKey(value)
    else if key == "endpoint" then Endpoint(value)
    else if key == "last_handshake_time_sec" then HandshakeSec(value)
    else if key == "last_handshake_time_nsec" then HandshakeNsec(value)
    else if key == "tx_bytes" then TxBytes(value)
    else if key == "rx_bytes" then RxBytes(value)
    else if key == "persistent_keepalive_interval" then Keepalive(value)
    else if key == "allowed_ip" then AllowedIP(value)
    else if IsAwgKey(key) then Param(key, value)
    else Skip
  }

  function Classify(raw: string): Item {
    match Cut(TrimSpace(raw), '=')
    case None => Skip
    case Some((key, value)) => ItemOf(key, value)
  }

  function ClassifyAll(raws: seq<string>): (items: seq<Item>)
    ensures |items| == |raws|
  {
    seq(|raws|, i requires 0 <= i < |raws| => Classify(raws[i]))
  }

  // --- The accumulators -----------------------------------------------------------------

  datatype Acc = Acc(
    listenPort: int, params: map<string, string>, peers: seq<PeerStats>,
    cur: Option<PeerStats>, sec: int, nsec: int)

  const START: Acc := Acc(0, map[], [], None, 0, 0)

  function NewPeer(key: string): PeerStats {
    PeerStats(key, "", None, 0, 0, "", [])
  }

  function Stamped(p: PeerStats, sec: int, nsec: int): PeerStats {
    if sec > 0 || nsec > 0 then p.(lastHandshake := Some((sec, nsec))) else p
  }

  /** The closure `flush`. */
  function Flushed(a: Acc): Acc {
    match a.cur
    case None => a
    case Some(p) => a.(peers := a.peers + [Stamped(p, a.sec, a.nsec)], cur := None, sec := 0, nsec := 0)
  }

  /** What a line other than `public_key` does to the peer that is being read. */
  function PeerLine(p: PeerStats, item: Item): PeerStats {
    match item
    case Endpoint(v) => p.(endpoint := v)
    case TxBytes(v) => p.(txBytes := UintOrClamped(v))
    case RxBytes(v) => p.(rxBytes := UintOrClamped(v))
    case Keepalive(v) => p.(keepalive := v)
    case AllowedIP(v) => p.(allowedIPs := p.allowedIPs + [v])
    case _ => p
  }

  function Advance(a: Acc, item: Item): Acc {
    match item
    case Skip => a
    case Errno(_) => a
    case ListenPort(v) => a.(listenPort := ParseInt(v).v)
    case PublicKey(v) => Flushed(a).(cur := Some(NewPeer(v)))
    case HandshakeSec(v) => a.(sec := ParseInt(v).v)
    case HandshakeNsec(v) => a.(nsec := ParseInt(v).v)
    case Param(key, v) => a.(params := a.params[key := v])
    case _ => if a.cur.Some? then a.(cur := Some(PeerLine(a.cur.value, item))) else a
  }

  function Fold(a: Acc, items: seq<Item>): Acc
    decreases |items|
  {
    if items == [] then a else Advance(Fold(a, items[..|items| - 1]), items[|items| - 1])
  }

  predicate IsFailure(item: Item) {
    item.Errno? && item.v != "0"
  }

  /** The first error the device reported, if any. */
  function FirstErrno(items: seq<Item>): Option<string> {
    if items == [] then None
    else
      var before := FirstErrno(items[..|items| - 1]);
      var last := items[|items| - 1];
      if before.None? && IsFailure(last) then Some(last.v) else before
  }

  function Finish(a: Acc): Stats {
    var f := Flushed(a);
    if f.peers == [] then Stats(f.listenPort, f.params, [], "", None, 0, 0)
    else
      var p := f.peers[0];
      Stats(f.listenPort, f.params, f.peers, p.endpoint, p.lastHandshake, p.txBytes, p.rxBytes)
  }

  function ParsedItems(items: seq<Item>): Result<Stats, string> {
    match FirstErrno(items)
    case Some(v) => Err(v)
    case None => Ok(Finish(Fold(START, items)))
  }

  function Parsed(raw: string): Result<Stats, string> {
    ParsedItems(ClassifyAll(Split(raw, '\n')))
  }

  lemma {:induction false} ErrnoStays(items: seq<Item>, n: nat)
    requires n <= |items| && FirstErrno(items[..n]).Some?
    ensures FirstErrno(items) == FirstErrno(items[..n])
    decreases |items|
  {
    if n < |items| {
      var front := items[..|items| - 1];
      assert front[..n] == items[..n];
      ErrnoStays(front, n);
    } else {
      assert items[..n] == items;
    }
  }

  lemma TakeNext(items: seq<Item>, i: nat)
    requires i < |items|
    ensures items[..i + 1][..i] == items[..i] && items[..i + 1][i] == items[i]
  {
  }

  /** `parseUAPIGet`. */
  method ParseUAPIGet(raw: string) returns (r: Result<Stats, string>)
    ensures r == Parsed(raw)
  {
    r := ParseItems(ClassifyAll(Split(raw, '\n')));
  }

  /** Its loop. */
  method ParseItems(items: seq<Item>) returns (r: Result<Stats, string>)
    ensures r == ParsedItems(items)
  {
    var s, params: map<string, string>, peers: seq<PeerStats> := 0, map[], [];
    var cur: Option<PeerStats>, handshakeSec: int, handshakeNsec: int := None, 0, 0;
    for i := 0 to |items|
      invariant FirstErrno(items[..i]).None?
      invariant Fold(START, items[..i]) == Acc(s, params, peers, cur, handshakeSec, handshakeNsec)
    {
      var item := items[i];
      TakeNext(items, i);
      match item {
        case Errno(v) =>
          if v != "0" {
            ErrnoStays(items, i + 1);
            return Err(v);
          }
        case ListenPort(v) => s := ParseInt(v).v;
        case PublicKey(v) =>
          if cur.Some? {
            peers := peers + [Stamped(cur.value, handshakeSec, handshakeNsec)];
            handshakeSec, handshakeNsec := 0, 0;
          }
          cur := Some(NewPeer(v));
        case HandshakeSec(v) => handshakeSec := ParseInt(v).v;
        case HandshakeNsec(v) => handshakeNsec := ParseInt(v).v;
        case Param(key, v) => params := params[key := v];
        case _ =>
          if cur.Some? {
            cur := Some(PeerLine(cur.value, item));
          }
      }
    }
    assert items[..|items|] == items;
    if cur.Some? {
      peers := peers + [Stamped(cur.value, handshakeSec, handshakeNsec)];
    }
    if |peers| > 0 {
      var p := peers[0];
      return Ok(Stats(s, params, peers, p.endpoint, p.lastHandshake, p.txBytes, p.rxBytes));
    }
    return Ok(Stats(s, params, peers, "", None, 0, 0));
  }

  // --- Secrets --------------------------------------------------------------------------

  ghost predicate IsSecretLine(raw: string) {
    exists key, value :: key in SECRET_KEYS && TrimSpace(raw) == key + "=" + value
  }

  lemma NoEqualsInSecretKeys(key: string)
    requires key in SECRET_KEYS
    ensures '=' !in key
  {
  }

  lemma SecretIsSkipped(raw: string)
    requires IsSecretLine(raw)
    ensures Classify(raw) == Skip
  {
    var key: string, value: string :| key in SECRET_KEYS && TrimSpace(raw) == key + "=" + value;
    NoEqualsInSecretKeys(key);
    CutAt(key, '=', value);
    assert TrimSpace(raw) == key + ['='] + value;
  }

  /** Nothing of a secret reaches the result: two documents that differ only in secret lines, in
      value, in key or in layout, give the same result. */
  lemma SecretsDoNotShow(a: seq<string>, b: seq<string>)
    requires |a| == |b| > 0 && forall i :: 0 <= i < |a| ==> '\n' !in a[i] && '\n' !in b[i]
    requires forall i :: 0 <= i < |a| ==> a[i] == b[i] || (IsSecretLine(a[i]) && IsSecretLine(b[i]))
    ensures Parsed(Join(a, '\n')) == Parsed(Join(b, '\n'))
  {
    SplitJoin(a, '\n');
    SplitJoin(b, '\n');
    forall i | 0 <= i < |a|
      ensures Classify(a[i]) == Classify(b[i])
    {
      if a[i] != b[i] {
        SecretIsSkipped(a[i]);
        SecretIsSkipped(b[i]);
      }
    }
    assert ClassifyAll(a) == ClassifyAll(b);
  }

  // --- Peers ----------------------------------------------------------------------------

  lemma {:induction false} FoldAppend(a: Acc, xs: seq<Item>, ys: seq<Item>)
    ensures Fold(a, xs + ys) == Fold(Fold(a, xs), ys)
    decreases |ys|
  {
    if ys == [] {
      assert xs + ys == xs;
    } else {
      FoldAppend(a, xs, ys[..|ys| - 1]);
      assert (xs + ys)[..|xs + ys| - 1] == xs + ys[..|ys| - 1];
    }
  }

  /** The lines of one peer after its `public_key` line, on their own. */
  datatype Reading = Reading(p: PeerStats, sec: int, nsec: int)

  function ReadPeer(r: Reading, items: seq<Item>): Reading
    decreases |items|
  {
    if items == [] then r
    else
      ReadNext(ReadPeer(r, items[..|items| - 1]), items[|items| - 1])
  }

  function ReadNext(r: Reading, item: Item): Reading {
    if item.HandshakeSec? then r.(sec := ParseInt(item.v).v)
    else if item.HandshakeNsec? then r.(nsec := ParseInt(item.v).v)
    else r.(p := PeerLine(r.p, item))
  }

  /** A block: a `public_key` line and the lines up to the next. */
  predicate IsBlock(b: seq<Item>) {
    b != [] && b[0].PublicKey? && forall i :: 1 <= i < |b| ==> !b[i].PublicKey?
  }

  /** The peer a block describes, if these handshake numbers were read before it. */
  function PeerOf(b: seq<Item>, sec: int, nsec: int): PeerStats
    requires IsBlock(b)
  {
    var r := ReadPeer(Reading(NewPeer(b[0].v), sec, nsec), b[1..]);
    Stamped(r.p, r.sec, r.nsec)
  }

  lemma {:induction false} FoldReads(a: Acc, items: seq<Item>)
    requires a.cur.Some? && forall i :: 0 <= i < |items| ==> !items[i].PublicKey?
    ensures var f, r := Fold(a, items), ReadPeer(Reading(a.cur.value, a.sec, a.nsec), items);
      f.cur == Some(r.p) && f.sec == r.sec && f.nsec == r.nsec && f.peers == a.peers
    decreases |items|
  {
    if items != [] {
      FoldReads(a, items[..|items| - 1]);
    }
  }

  /** One block adds one peer, which depends on nothing but the block, unless handshake numbers
      were read before the first peer. */
  lemma BlockAddsPeer(a: Acc, b: seq<Item>)
    requires IsBlock(b)
    ensures var f := Flushed(a);
      Flushed(Fold(a, b)).peers == f.peers + [PeerOf(b, f.sec, f.nsec)] && Fold(a, b).cur.Some?
  {
    assert b == [b[0]] + b[1..];
    FoldAppend(a, [b[0]], b[1..]);
    assert Fold(a, [b[0]]) == Advance(Fold(a, []), b[0]);
    FoldReads(Fold(a, [b[0]]), b[1..]);
  }

  function Concat(bs: seq<seq<Item>>): seq<Item> {
    if bs == [] then [] else Concat(bs[..|bs| - 1]) + bs[|bs| - 1]
  }

  function PeersOf(bs: seq<seq<Item>>, sec: int, nsec: int): (ps: seq<PeerStats>)
    requires forall i :: 0 <= i < |bs| ==> IsBlock(bs[i])
    ensures |ps| == |bs|
  {
    seq(|bs|, i requires 0 <= i < |bs| => if i == 0 then PeerOf(bs[0], sec, nsec) else PeerOf(bs[i], 0, 0))
  }

  lemma PeersOfSnoc(bs: seq<seq<Item>>, sec: int, nsec: int)
    requires bs != [] && forall i :: 0 <= i < |bs| ==> IsBlock(bs[i])
    ensures var n := |bs| - 1;
      PeersOf(bs, sec, nsec)
      == PeersOf(bs[..n], sec, nsec) + [if n == 0 then PeerOf(bs[n], sec, nsec) else PeerOf(bs[n], 0, 0)]
  {
  }

  lemma {:induction false} BlocksAddPeers(a: Acc, bs: seq<seq<Item>>)
    requires a.cur.None? && forall i :: 0 <= i < |bs| ==> IsBlock(bs[i])
    ensures var f := Fold(a, Concat(bs));
      Flushed(f).peers == a.peers + PeersOf(bs, a.sec, a.nsec) && (bs != [] ==> f.cur.Some?)
    decreases |bs|
  {
    if bs == [] {
      assert a.peers + PeersOf(bs, a.sec, a.nsec) == a.peers;
    } else {
      var front, last := bs[..|bs| - 1], bs[|bs| - 1];
      BlocksAddPeers(a, front);
      FoldAppend(a, Concat(front), last);
      BlockAddsPeer(Fold(a, Concat(front)), last);
      PeersOfSnoc(bs, a.sec, a.nsec);
      if front == [] {
        assert a.peers + PeersOf(front, a.sec, a.nsec) == a.peers;
      }
    }
  }

  lemma {:induction false} NoPeerYet(items: seq<Item>)
    requires forall i :: 0 <= i < |items| ==> !items[i].PublicKey?
    ensures var f := Fold(START, items); f.cur.None? && f.peers == []
    decreases |items|
  {
    if items != [] {
      NoPeerYet(items[..|items| - 1]);
    }
  }

  /** Every document without a device error: a head and the blocks after it give one peer for each
      block, in order, and no block shows in another's peer. Only the first peer can also depend on
      the head, through handshake numbers that stand there. */
  lemma PeersAreBlocks(head: seq<Item>, bs: seq<seq<Item>>)
    requires forall i :: 0 <= i < |head| ==> !head[i].PublicKey?
    requires forall i :: 0 <= i < |bs| ==> IsBlock(bs[i])
    requires FirstErrno(head + Concat(bs)).None?
    ensures var r := ParsedItems(head + Concat(bs));
      && r.Ok? && |r.value.peers| == |bs|
      && (forall i :: 1 <= i < |bs| ==> r.value.peers[i] == PeerOf(bs[i], 0, 0))
      && (bs != [] ==>
            && r.value.peers[0] == PeerOf(bs[0], Fold(START, head).sec, Fold(START, head).nsec)
            && r.value.endpoint == r.value.peers[0].endpoint && r.value.lastHandshake == r.value.peers[0].lastHandshake
            && r.value.txBytes == r.value.peers[0].txBytes && r.value.rxBytes == r.value.peers[0].rxBytes)
  {
    NoPeerYet(head);
    FoldAppend(START, head, Concat(bs));
    BlocksAddPeers(Fold(START, head), bs);
    var h := Fold(START, head);
    assert [] + PeersOf(bs, h.sec, h.nsec) == PeersOf(bs, h.sec, h.nsec);
  }

  /** The last handshake numbers that stand in some lines. */
  function LastSec(items: seq<Item>): Option<int>
    decreases |items|
  {
    if items == [] then None
    else if items[|items| - 1].HandshakeSec? then Some(ParseInt(items[|items| - 1].v).v)
    else LastSec(items[..|items| - 1])
  }

  function LastNsec(items: seq<Item>): Option<int>
    decreases |items|
  {
    if items == [] then None
    else if items[|items| - 1].HandshakeNsec? then Some(ParseInt(items[|items| - 1].v).v)
    else LastNsec(items[..|items| - 1])
  }

  function Or(o: Option<int>, otherwise: int): int {
    if o.Some? then o.value else otherwise
  }

  /** A block's own handshake lines replace the numbers read before it, and the rest of the peer does
      not depend on them. */
  lemma {:induction false} OwnLinesWin(p: PeerStats, sec: int, nsec: int, items: seq<Item>)
    ensures var r := ReadPeer(Reading(p, sec, nsec), items);
      && r.sec == Or(LastSec(items), sec) && r.nsec == Or(LastNsec(items), nsec)
      && r.p == ReadPeer(Reading(p, 0, 0), items).p && r.p.lastHandshake == p.lastHandshake
    decreases |items|
  {
    if items != [] {
      OwnLinesWin(p, sec, nsec, items[..|items| - 1]);
      OwnLinesWin(p, 0, 0, items[..|items| - 1]);
    }
  }

  lemma {:induction false} HeadNumbers(head: seq<Item>)
    requires forall i :: 0 <= i < |head| ==> !head[i].PublicKey?
    ensures Fold(START, head).sec == Or(LastSec(head), 0) && Fold(START, head).nsec == Or(LastNsec(head), 0)
    decreases |head|
  {
    if head != [] {
      HeadNumbers(head[..|head| - 1]);
    }
  }

  /** The head holds no number that the block does not replace; or there is no time to show either
      way, since a time needs a positive number. */
  predicate HeadIgnored(head: seq<Item>, b: seq<Item>) {
    || ((LastSec(b).Some? || Or(LastSec(head), 0) == 0) && (LastNsec(b).Some? || Or(LastNsec(head), 0) == 0))
    || (Or(LastSec(b), Or(LastSec(head), 0)) <= 0 && Or(LastNsec(b), Or(LastNsec(head), 0)) <= 0
        && Or(LastSec(b), 0) <= 0 && Or(LastNsec(b), 0) <= 0)
  }

  lemma LastInTail(b: seq<Item>)
    requires IsBlock(b)
    ensures LastSec(b[1..]) == LastSec(b) && LastNsec(b[1..]) == LastNsec(b)
    decreases |b|
  {
    if |b| == 1 {
      assert b[..0] == [];
    } else {
      var front := b[..|b| - 1];
      assert b[1..][..|b| - 2] == front[1..];
      LastInTail(front);
    }
  }

  /** When the first peer, too, depends on nothing but its own block. */
  lemma FirstPeerIgnoresHead(head: seq<Item>, bs: seq<seq<Item>>)
    requires forall i :: 0 <= i < |head| ==> !head[i].PublicKey?
    requires bs != [] && forall i :: 0 <= i < |bs| ==> IsBlock(bs[i])
    requires FirstErrno(head + Concat(bs)).None?
    ensures var r := ParsedItems(head + Concat(bs));
      r.Ok? && |r.value.peers| == |bs| && (r.value.peers[0] == PeerOf(bs[0], 0, 0) <==> HeadIgnored(head, bs[0]))
  {
    PeersAreBlocks(head, bs);
    HeadNumbers(head);
    var h := Fold(START, head);
    OwnLinesWin(NewPeer(bs[0][0].v), h.sec, h.nsec, bs[0][1..]);
    OwnLinesWin(NewPeer(bs[0][0].v), 0, 0, bs[0][1..]);
    LastInTail(bs[0]);
  }

  /** The exception is real: a handshake number in the head ends up in the first peer, whose own
      block has none. */
  lemma HeadHandshakeLeaks(n: nat, key: string)
    requires 0 < n <= MAX_INT64
    ensures var items := [HandshakeSec(Decimal(n)), PublicKey(key)];
      && IsBlock([PublicKey(key)]) && PeerOf([PublicKey(key)], 0, 0).lastHandshake == None
      && ParsedItems(items).Ok? && ParsedItems(items).value.lastHandshake == Some((n, 0))
  {
    NumberRoundTrip(n, MAX_UINT64);
    var items := [HandshakeSec(Decimal(n)), PublicKey(key)];
    var first: seq<Item> := [HandshakeSec(Decimal(n))];
    assert items[..1] == first && first[..0] == [];
    NoErrnoNoFailure(items);
    assert Fold(START, first) == START.(sec := n);
    assert Fold(START, items) == Advance(Fold(START, first), PublicKey(key));
  }

  // --- The printer ----------------------------------------------------------------------

  /** A peer as the device lists it. */
  datatype DevicePeer = DevicePeer(
    publicKey: string, presharedKey: string, endpoint: Option<string>, sec: nat, nsec: nat,
    tx: nat, rx: nat, keepalive: nat, allowedIPs: seq<string>)

  datatype DeviceState = DeviceState(
    privateKey: string, listenPort: nat, params: seq<(string, string)>, peers: seq<DevicePeer>)

  type Field = (string, string)

  predicate ValueOk(v: string) {
    '\n' !in v && (v != "" ==> !IsSpace(v[|v| - 1]))
  }

  ghost predicate PeerOk(p: DevicePeer) {
    && ValueOk(p.publicKey) && ValueOk(p.presharedKey) && (p.endpoint.Some? ==> ValueOk(p.endpoint.value))
    && p.sec <= MAX_INT64 && p.nsec <= MAX_INT64 && p.tx <= MAX_UINT64 && p.rx <= MAX_UINT64
    && forall i :: 0 <= i < |p.allowedIPs| ==> ValueOk(p.allowedIPs[i])
  }

  ghost predicate DeviceOk(d: DeviceState) {
    && ValueOk(d.privateKey) && d.listenPort <= MAX_INT64
    && (forall i :: 0 <= i < |d.params| ==> IsAwgKey(d.params[i].0) && ValueOk(d.params[i].1))
    && forall i :: 0 <= i < |d.peers| ==> PeerOk(d.peers[i])
  }

  function PeerHead(p: DevicePeer): seq<Field> {
    [("public_key", p.publicKey), ("preshared_key", p.presharedKey)]
    + (if p.endpoint.Some? then [("endpoint", p.endpoint.value)] else [])
    + [("last_handshake_time_sec", Decimal(p.sec)), ("last_handshake_time_nsec", Decimal(p.nsec)),
       ("tx_bytes", Decimal(p.tx)), ("rx_bytes", Decimal(p.rx)),
       ("persistent_keepalive_interval", Decimal(p.keepalive))]
  }

  function AllowedFields(ips: seq<string>): seq<Field> {
    seq(|ips|, i requires 0 <= i < |ips| => ("allowed_ip", ips[i]))
  }

  function PeerFields(p: DevicePeer): seq<Field> {
    PeerHead(p) + AllowedFields(p.allowedIPs)
  }

  function AllPeerFields(ps: seq<DevicePeer>): seq<Field> {
    if ps == [] then [] else AllPeerFields(ps[..|ps| - 1]) + PeerFields(ps[|ps| - 1])
  }

  function HeadFields(d: DeviceState): seq<Field> {
    [("private_key", d.privateKey), ("listen_port", Decimal(d.listenPort))] + d.params
  }

  function Line(f: Field): string {
    f.0 + "=" + f.1
  }

  function Lines(fs: seq<Field>): (ls: seq<string>)
    ensures |ls| == |fs|
  {
    seq(|fs|, i requires 0 <= i < |fs| => Line(fs[i]))
  }

  /** The "get" document: one line for each field, each ended by a newline. */
  function Print(d: DeviceState): string {
    Join(Lines(HeadFields(d) + AllPeerFields(d.peers)) + [""], '\n')
  }

  // --- Reading it back ------------------------------------------------------------------

  function ItemsOf(fs: seq<Field>): (items: seq<Item>)
    ensures |items| == |fs|
  {
    seq(|fs|, i requires 0 <= i < |fs| => ItemOf(fs[i].0, fs[i].1))
  }

  predicate KeyOk(key: string) {
    key != "" && !IsSpace(key[0]) && '=' !in key && '\n' !in key
  }

  predicate FieldOk(f: Field) {
    KeyOk(f.0) && ValueOk(f.1)
  }

  lemma ClassifyLine(f: Field)
    requires FieldOk(f)
    ensures Classify(Line(f)) == ItemOf(f.0, f.1) && '\n' !in Line(f)
  {
    var l := Line(f);
    assert l[0] == f.0[0] && l[|l| - 1] == if f.1 == "" then '=' else f.1[|f.1| - 1];
    TrimNothing(l);
    CutAt(f.0, '=', f.1);
    assert l == f.0 + ['='] + f.1;
    assert forall c :: c in l ==> c in f.0 || c == '=' || c in f.1;
  }

  lemma DecimalIsValue(n: nat)
    ensures ValueOk(Decimal(n))
  {
    DecimalMeans(n);
    forall i | 0 <= i < |Decimal(n)|
      ensures Decimal(n)[i] != '\n' && !IsSpace(Decimal(n)[i])
    {
      assert IsDigit(Decimal(n)[i]);
    }
  }

  lemma ObfuscationKeyOk(key: string)
    requires key in OBFUSCATION_KEYS
    ensures KeyOk(key) && |key| <= 4
  {
  }

  lemma TimingKeyOneLine(key: string)
    requires key in TIMING_KEYS
    ensures '\n' !in key
  {
  }

  lemma TimingKeyOk(key: string)
    requires key in TIMING_KEYS
    ensures KeyOk(key)
  {
    TimingKeyOneLine(key);
  }

  lemma TimingKeyItem(key: string, v: string)
    requires key in TIMING_KEYS
    ensures ItemOf(key, v) == Param(key, v)
  {
  }

  lemma AwgKeyOk(key: string, v: string)
    requires IsAwgKey(key) && ValueOk(v)
    ensures FieldOk((key, v)) && ItemOf(key, v) == Param(key, v)
  {
    if key in OBFUSCATION_KEYS {
      ObfuscationKeyOk(key);
    } else {
      TimingKeyOk(key);
      TimingKeyItem(key, v);
    }
  }

  lemma PeerKeysOk()
    ensures KeyOk("public_key") && KeyOk("preshared_key") && KeyOk("endpoint") && KeyOk("tx_bytes") && KeyOk("rx_bytes")
    ensures KeyOk("allowed_ip")
  {
  }

  lemma HandshakeKeysOk()
    ensures KeyOk("last_handshake_time_sec") && KeyOk("last_handshake_time_nsec")
  {
  }

  lemma KeepaliveKeyOk()
    ensures KeyOk("persistent_keepalive_interval")
  {
  }

  lemma PeerFieldsOk(p: DevicePeer)
    requires PeerOk(p)
    ensures forall i :: 0 <= i < |PeerFields(p)| ==> FieldOk(PeerFields(p)[i])
  {
    PeerKeysOk();
    PeerHeadOk(p);
    assert forall i :: 0 <= i < |AllowedFields(p.allowedIPs)| ==> FieldOk(AllowedFields(p.allowedIPs)[i]);
  }

  lemma PeerHeadOk(p: DevicePeer)
    requires PeerOk(p)
    ensures forall i :: 0 <= i < |PeerHead(p)| ==> FieldOk(PeerHead(p)[i])
  {
    PeerKeysOk();
    HandshakeKeysOk();
    KeepaliveKeyOk();
    DecimalIsValue(p.sec);
    DecimalIsValue(p.nsec);
    DecimalIsValue(p.tx);
    DecimalIsValue(p.rx);
    DecimalIsValue(p.keepalive);
  }

  lemma {:induction false} AllPeerFieldsOk(ps: seq<DevicePeer>)
    requires forall i :: 0 <= i < |ps| ==> PeerOk(ps[i])
    ensures forall i :: 0 <= i < |AllPeerFields(ps)| ==> FieldOk(AllPeerFields(ps)[i])
    decreases |ps|
  {
    if ps != [] {
      AllPeerFieldsOk(ps[..|ps| - 1]);
      PeerFieldsOk(ps[|ps| - 1]);
    }
  }

  lemma HeadFieldsOk(d: DeviceState)
    requires DeviceOk(d)
    ensures forall i :: 0 <= i < |HeadFields(d)| ==> FieldOk(HeadFields(d)[i])
  {
    DecimalIsValue(d.listenPort);
    forall i | 0 <= i < |d.params|
      ensures FieldOk(d.params[i])
    {
      AwgKeyOk(d.params[i].0, d.params[i].1);
    }
  }

  lemma ItemsAppend(a: seq<Field>, b: seq<Field>)
    ensures ItemsOf(a + b) == ItemsOf(a) + ItemsOf(b)
  {
  }

  /** Splitting and classifying a printed document gives back its fields. */
  lemma PrintedItems(d: DeviceState)
    requires DeviceOk(d)
    ensures ClassifyAll(Split(Print(d), '\n')) == ItemsOf(HeadFields(d)) + ItemsOf(AllPeerFields(d.peers)) + [Skip]
  {
    var fs := HeadFields(d) + AllPeerFields(d.peers);
    HeadFieldsOk(d);
    AllPeerFieldsOk(d.peers);
    forall i | 0 <= i < |fs|
      ensures Classify(Line(fs[i])) == ItemOf(fs[i].0, fs[i].1) && '\n' !in Line(fs[i])
    {
      ClassifyLine(fs[i]);
    }
    var ls := Lines(fs) + [""];
    SplitJoin(ls, '\n');
    ItemsAppend(HeadFields(d), AllPeerFields(d.peers));
    assert Classify("") == Skip;
    assert ClassifyAll(ls) == ItemsOf(fs) + [Skip];
  }

  function Block(p: DevicePeer): seq<Item> {
    ItemsOf(PeerFields(p))
  }

  function Blocks(ps: seq<DevicePeer>): (bs: seq<seq<Item>>)
    ensures |bs| == |ps|
  {
    seq(|ps|, i requires 0 <= i < |ps| => Block(ps[i]))
  }

  lemma {:induction false} PeerItemsAreBlocks(ps: seq<DevicePeer>)
    ensures ItemsOf(AllPeerFields(ps)) == Concat(Blocks(ps))
    decreases |ps|
  {
    if ps != [] {
      var front := ps[..|ps| - 1];
      PeerItemsAreBlocks(front);
      ItemsAppend(AllPeerFields(front), PeerFields(ps[|ps| - 1]));
      assert Blocks(ps)[..|ps| - 1] == Blocks(front);
    }
  }

  /** A peer's block without its `public_key` line. */
  function BlockTail(p: DevicePeer): seq<Item> {
    [Skip] + (if p.endpoint.Some? then [Endpoint(p.endpoint.value)] else [])
    + [HandshakeSec(Decimal(p.sec)), HandshakeNsec(Decimal(p.nsec)), TxBytes(Decimal(p.tx)), RxBytes(Decimal(p.rx)),
       Keepalive(Decimal(p.keepalive))]
  }

  function AllowedItems(ips: seq<string>): seq<Item> {
    seq(|ips|, i requires 0 <= i < |ips| => AllowedIP(ips[i]))
  }

  lemma BlockShape(p: DevicePeer)
    ensures Block(p) == [PublicKey(p.publicKey)] + BlockTail(p) + AllowedItems(p.allowedIPs)
    ensures IsBlock(Block(p)) && Block(p)[1..] == BlockTail(p) + AllowedItems(p.allowedIPs)
  {
    ItemsAppend(PeerHead(p), AllowedFields(p.allowedIPs));
    assert ItemsOf(PeerHead(p)) == [PublicKey(p.publicKey)] + BlockTail(p);
    assert ItemsOf(AllowedFields(p.allowedIPs)) == AllowedItems(p.allowedIPs);
  }

  lemma {:induction false} ReadAppend(r: Reading, xs: seq<Item>, ys: seq<Item>)
    ensures ReadPeer(r, xs + ys) == ReadPeer(ReadPeer(r, xs), ys)
    decreases |ys|
  {
    if ys == [] {
      assert xs + ys == xs;
    } else {
      ReadAppend(r, xs, ys[..|ys| - 1]);
      assert (xs + ys)[..|xs + ys| - 1] == xs + ys[..|ys| - 1];
    }
  }

  lemma {:induction false} ReadAllowed(r: Reading, ips: seq<string>)
    ensures ReadPeer(r, AllowedItems(ips)) == r.(p := r.p.(allowedIPs := r.p.allowedIPs + ips))
    decreases |ips|
  {
    if ips == [] {
      assert r.p.allowedIPs + ips == r.p.allowedIPs;
    } else {
      var front := ips[..|ips| - 1];
      ReadAllowed(r, front);
      assert AllowedItems(ips)[..|ips| - 1] == AllowedItems(front);
      assert r.p.allowedIPs + ips == (r.p.allowedIPs + front) + [ips[|ips| - 1]];
    }
  }

  lemma ReadTail(p: DevicePeer)
    requires PeerOk(p)
    ensures ReadPeer(Reading(NewPeer(p.publicKey), 0, 0), BlockTail(p))
            == Reading(PeerStats(p.publicKey, if p.endpoint.Some? then p.endpoint.value else "", None, p.tx, p.rx,
                                 Decimal(p.keepalive), []), p.sec, p.nsec)
  {
    NumberRoundTrip(p.sec, MAX_UINT64);
    NumberRoundTrip(p.nsec, MAX_UINT64);
    NumberRoundTrip(p.tx, MAX_UINT64);
    NumberRoundTrip(p.rx, MAX_UINT64);
    var r := Reading(NewPeer(p.publicKey), 0, 0);
    var first: seq<Item> := [Skip] + if p.endpoint.Some? then [Endpoint(p.endpoint.value)] else [];
    var sec, nsec := HandshakeSec(Decimal(p.sec)), HandshakeNsec(Decimal(p.nsec));
    var tx, rx, ka := TxBytes(Decimal(p.tx)), RxBytes(Decimal(p.rx)), Keepalive(Decimal(p.keepalive));
    ReadFirst(r, p);
    assert BlockTail(p) == first + [sec] + [nsec] + [tx] + [rx] + [ka];
    ReadSnoc(r, first, sec);
    ReadSnoc(r, first + [sec], nsec);
    ReadSnoc(r, first + [sec] + [nsec], tx);
    ReadSnoc(r, first + [sec] + [nsec] + [tx], rx);
    ReadSnoc(r, first + [sec] + [nsec] + [tx] + [rx], ka);
  }

  lemma ReadSnoc(r: Reading, items: seq<Item>, item: Item)
    ensures ReadPeer(r, items + [item]) == ReadNext(ReadPeer(r, items), item)
  {
    assert (items + [item])[..|items|] == items;
  }

  lemma ReadFirst(r: Reading, p: DevicePeer)
    ensures ReadPeer(r, [Skip] + if p.endpoint.Some? then [Endpoint(p.endpoint.value)] else [])
            == if p.endpoint.Some? then r.(p := r.p.(endpoint := p.endpoint.value)) else r
  {
    assert ReadPeer(r, [Skip]) == ReadNext(ReadPeer(r, []), Skip) == r;
    if p.endpoint.Some? {
      ReadSnoc(r, [Skip], Endpoint(p.endpoint.value));
    } else {
      assert [Skip] + [] == [Skip];
    }
  }

  function Shown(p: DevicePeer): PeerStats {
    PeerStats(p.publicKey, if p.endpoint.Some? then p.endpoint.value else "",
              if p.sec > 0 || p.nsec > 0 then Some((p.sec, p.nsec)) else None,
              p.tx, p.rx, Decimal(p.keepalive), p.allowedIPs)
  }

  lemma BlockShows(p: DevicePeer)
    requires PeerOk(p)
    ensures IsBlock(Block(p)) && PeerOf(Block(p), 0, 0) == Shown(p)
  {
    BlockShape(p);
    var r := Reading(NewPeer(p.publicKey), 0, 0);
    ReadAppend(r, BlockTail(p), AllowedItems(p.allowedIPs));
    ReadTail(p);
    ReadAllowed(ReadPeer(r, BlockTail(p)), p.allowedIPs);
    assert [] + p.allowedIPs == p.allowedIPs;
  }

  function ParamMap(params: seq<Field>): map<string, string> {
    if params == [] then map[]
    else ParamMap(params[..|params| - 1])[params[|params| - 1].0 := params[|params| - 1].1]
  }

  lemma {:induction false} ReadParams(a: Acc, params: seq<Field>)
    requires a.params == map[]
    requires forall i :: 0 <= i < |params| ==> ItemsOf(params)[i] == Param(params[i].0, params[i].1)
    ensures Fold(a, ItemsOf(params)) == a.(params := ParamMap(params))
    decreases |params|
  {
    if params != [] {
      var front, last := params[..|params| - 1], params[|params| - 1];
      assert ItemsOf(params)[..|params| - 1] == ItemsOf(front);
      assert forall i :: 0 <= i < |front| ==> ItemsOf(front)[i] == ItemsOf(params)[i];
      ReadParams(a, front);
    }
  }

  lemma ParamsAreParams(params: seq<Field>)
    requires forall i :: 0 <= i < |params| ==> IsAwgKey(params[i].0) && ValueOk(params[i].1)
    ensures forall i :: 0 <= i < |params| ==> ItemsOf(params)[i] == Param(params[i].0, params[i].1)
  {
    forall i | 0 <= i < |params|
      ensures ItemOf(params[i].0, params[i].1) == Param(params[i].0, params[i].1)
    {
      AwgKeyOk(params[i].0, params[i].1);
    }
  }

  lemma ReadHead(d: DeviceState)
    requires DeviceOk(d)
    ensures Fold(START, ItemsOf(HeadFields(d))) == START.(listenPort := d.listenPort, params := ParamMap(d.params))
  {
    var first: seq<Field> := [("private_key", d.privateKey), ("listen_port", Decimal(d.listenPort))];
    ItemsAppend(first, d.params);
    assert ItemsOf(first) == [Skip] + [ListenPort(Decimal(d.listenPort))];
    ParamsAreParams(d.params);
    ReadHeadItems(d.listenPort, d.params, ItemsOf(d.params));
  }

  lemma ReadHeadItems(port: nat, params: seq<Field>, items: seq<Item>)
    requires port <= MAX_INT64 && items == ItemsOf(params)
    requires forall i :: 0 <= i < |params| ==> items[i] == Param(params[i].0, params[i].1)
    ensures Fold(START, [Skip] + [ListenPort(Decimal(port))] + items)
            == START.(listenPort := port, params := ParamMap(params))
  {
    NumberRoundTrip(port, MAX_UINT64);
    var first: seq<Item> := [Skip] + [ListenPort(Decimal(port))];
    FoldAppend(START, first, items);
    assert first[..1] == [Skip] && first[..1][..0] == [];
    assert Fold(START, first[..1]) == START;
    assert Fold(START, first) == START.(listenPort := port);
    ReadParams(Fold(START, first), params);
  }

  predicate IsPeerItem(item: Item) {
    !item.ListenPort? && !item.Param? && !item.Errno?
  }

  lemma {:induction false} PeersKeepHead(a: Acc, items: seq<Item>)
    requires forall i :: 0 <= i < |items| ==> IsPeerItem(items[i])
    ensures Fold(a, items).listenPort == a.listenPort && Fold(a, items).params == a.params
    decreases |items|
  {
    if items != [] {
      PeersKeepHead(a, items[..|items| - 1]);
    }
  }

  lemma BlockItems(p: DevicePeer)
    ensures forall i :: 0 <= i < |Block(p)| ==> IsPeerItem(Block(p)[i])
  {
    BlockShape(p);
    assert forall i :: 0 <= i < |BlockTail(p)| ==> IsPeerItem(BlockTail(p)[i]);
  }

  lemma {:induction false} ConcatItems(ps: seq<DevicePeer>)
    ensures forall i :: 0 <= i < |Concat(Blocks(ps))| ==> IsPeerItem(Concat(Blocks(ps))[i])
    decreases |ps|
  {
    if ps != [] {
      ConcatItems(ps[..|ps| - 1]);
      BlockItems(ps[|ps| - 1]);
      assert Blocks(ps)[..|ps| - 1] == Blocks(ps[..|ps| - 1]);
    }
  }

  lemma {:induction false} NoErrnoNoFailure(items: seq<Item>)
    requires forall i :: 0 <= i < |items| ==> !items[i].Errno?
    ensures FirstErrno(items).None?
    decreases |items|
  {
    if items != [] {
      NoErrnoNoFailure(items[..|items| - 1]);
    }
  }

  lemma HeadItems(d: DeviceState)
    requires DeviceOk(d)
    ensures forall i :: 0 <= i < |ItemsOf(HeadFields(d))| ==>
              !ItemsOf(HeadFields(d))[i].Errno? && !ItemsOf(HeadFields(d))[i].PublicKey?
  {
    forall i | 0 <= i < |d.params|
      ensures ItemOf(d.params[i].0, d.params[i].1).Param?
    {
      AwgKeyOk(d.params[i].0, d.params[i].1);
    }
  }

  /** The result lists exactly these peers, in order, and the first one again at the top. */
  ghost predicate PeersShown(r: Result<Stats, string>, ps: seq<DevicePeer>) {
    && r.Ok? && |r.value.peers| == |ps|
    && (forall i :: 0 <= i < |ps| ==> r.value.peers[i] == Shown(ps[i]))
    && (ps != [] ==>
          && r.value.endpoint == r.value.peers[0].endpoint && r.value.lastHandshake == r.value.peers[0].lastHandshake
          && r.value.txBytes == r.value.peers[0].txBytes && r.value.rxBytes == r.value.peers[0].rxBytes)
  }

  /** The accumulators at the end of a printed document. */
  lemma PrintedHead(d: DeviceState)
    requires DeviceOk(d)
    ensures var f := Fold(START, ItemsOf(HeadFields(d)) + Concat(Blocks(d.peers)));
      f.listenPort == d.listenPort && f.params == ParamMap(d.params)
  {
    var head, bs := ItemsOf(HeadFields(d)), Blocks(d.peers);
    ReadHead(d);
    ConcatItems(d.peers);
    FoldAppend(START, head, Concat(bs));
    PeersKeepHead(Fold(START, head), Concat(bs));
  }

  lemma AllBlocksShow(ps: seq<DevicePeer>)
    requires forall i :: 0 <= i < |ps| ==> PeerOk(ps[i])
    ensures forall i :: 0 <= i < |ps| ==> IsBlock(Blocks(ps)[i]) && PeerOf(Blocks(ps)[i], 0, 0) == Shown(ps[i])
  {
    forall i | 0 <= i < |ps|
      ensures IsBlock(Block(ps[i])) && PeerOf(Block(ps[i]), 0, 0) == Shown(ps[i])
    {
      BlockShows(ps[i]);
    }
  }

  lemma PrintedPeers(d: DeviceState)
    requires DeviceOk(d)
    ensures PeersShown(ParsedItems(ItemsOf(HeadFields(d)) + Concat(Blocks(d.peers))), d.peers)
  {
    HeadItems(d);
    ConcatItems(d.peers);
    AllBlocksShow(d.peers);
    ReadHead(d);
    BlocksShown(ItemsOf(HeadFields(d)), Blocks(d.peers), d.peers);
  }

  lemma BlocksShown(head: seq<Item>, bs: seq<seq<Item>>, ps: seq<DevicePeer>)
    requires forall i :: 0 <= i < |head| ==> !head[i].Errno? && !head[i].PublicKey?
    requires forall i :: 0 <= i < |Concat(bs)| ==> !Concat(bs)[i].Errno?
    requires Fold(START, head).sec == 0 && Fold(START, head).nsec == 0
    requires |bs| == |ps| && forall i :: 0 <= i < |bs| ==> IsBlock(bs[i]) && PeerOf(bs[i], 0, 0) == Shown(ps[i])
    ensures PeersShown(ParsedItems(head + Concat(bs)), ps)
  {
    NoErrnoNoFailure(head + Concat(bs));
    PeersAreBlocks(head, bs);
  }

  lemma SkipAtEnd(items: seq<Item>)
    ensures ParsedItems(items + [Skip]) == ParsedItems(items)
  {
    assert (items + [Skip])[..|items|] == items;
  }

  /** Reading a printed device state gives its port, its AmneziaWG parameters, and exactly its peers
      in order with their numbers, addresses and handshake times; the first peer is repeated at the
      top; the private and preshared keys appear nowhere. */
  lemma ParsePrint(d: DeviceState)
    requires DeviceOk(d)
    ensures var r := Parsed(Print(d));
      PeersShown(r, d.peers) && r.value.listenPort == d.listenPort && r.value.awgParams == ParamMap(d.params)
  {
    PrintedItems(d);
    PeerItemsAreBlocks(d.peers);
    SkipAtEnd(ItemsOf(HeadFields(d)) + Concat(Blocks(d.peers)));
    PrintedHead(d);
    PrintedPeers(d);
  }
}
