/** The address formats of SOCKS version 5: the header of section 7 of RFC 1928 in
    internal/socks5/udp.go, and the replies of section 6 in internal/socks5/server.go, with an
    independent description of what is on the wire. */
module Socks5Wire {
  import opened Basics

  type Bytes = seq<byte>

  const SOCKS_VERSION: byte := 5
  const ATYP_IPV4: byte := 1
  const ATYP_DOMAIN: byte := 3
  const ATYP_IPV6: byte := 4

  /** An IP address as net/netip keeps it: none, IPv4, or IPv6 (which may map an IPv4 address)
      with a zone. */
  datatype Addr = NoAddr | V4(ip: Bytes) | V6(ip: Bytes, zone: Bytes)

  datatype AddrPort = AddrPort(addr: Addr, port: nat)

  /** A parsed destination: a host name, or an address when `host` is empty. */
  datatype Destination = Destination(host: Bytes, addr: Addr, port: nat)

  /** `netip.ParseAddr` on the bytes of a host name. */
  type ParseAddr = Bytes -> Option<Addr>

  predicate ValidAddr(a: Addr) {
    match a
    case NoAddr => true
    case V4(ip) => |ip| == 4
    case V6(ip, _) => |ip| == 16
  }

  const MAPPED: Bytes := [0, 0, 0, 0, 0, 0, 0, 0, 0, 0, 255, 255]

  predicate Is4In6(a: Addr) {
    a.V6? && |a.ip| == 16 && a.ip[..12] == MAPPED
  }

  function Unmap(a: Addr): Addr {
    if Is4In6(a) then V4(a.ip[12..]) else a
  }

  /** 0.0.0.0 and ::, which no packet can be sent to. */
  predicate IsUnspecified(a: Addr) {
    a == V4([0, 0, 0, 0]) || a == V6(seq(16, _ => 0), [])
  }

  /** The address without its zone, which no wire format carries. */
  function Plain(a: Addr): Addr {
    if a.V6? then V6(a.ip, []) else a
  }

  function As16(a: Addr): Bytes {
    if a.V6? then a.ip else if a.V4? then MAPPED + a.ip else seq(16, _ => 0)
  }

  // --- What is on the wire --------------------------------------------------------------

  /** An ATYP with its address field. */
  datatype WireAddr = Wire4(ip: Bytes) | Wire6(ip: Bytes) | WireName(name: Bytes)

  predicate WireOk(w: WireAddr) {
    match w
    case Wire4(ip) => |ip| == 4
    case Wire6(ip) => |ip| == 16
    case WireName(name) => 1 <= |name| <= 255
  }

  function Encode(w: WireAddr): Bytes
    requires WireOk(w)
  {
    match w
    case Wire4(ip) => [ATYP_IPV4] + ip
    case Wire6(ip) => [ATYP_IPV6] + ip
    case WireName(name) => [ATYP_DOMAIN, |name| as byte] + name
  }

  function PortBytes(port: nat): Bytes
    requires port < 65536
  {
    [(port / 256) as byte, (port % 256) as byte]
  }

  function PortOf(b: Bytes): nat
    requires |b| >= 2
  {
    b[0] as nat * 256 + b[1] as nat
  }

  /** What an address field means: some clients put an address into the name. */
  function Meaning(w: WireAddr, port: nat, parse: ParseAddr): Destination {
    match w
    case Wire4(ip) => Destination([], V4(ip), port)
    case Wire6(ip) => Destination([], V6(ip, []), port)
    case WireName(name) =>
      var a := parse(name);
      if a.Some? then Destination([], Unmap(a.value), port) else Destination(name, NoAddr, port)
  }

  /** Splits an ATYP and address field off the front of `b`. */
  function Decode(b: Bytes): Option<(WireAddr, Bytes)> {
    if |b| < 1 then None
    else if b[0] == ATYP_IPV4 then (if |b| < 5 then None else Some((Wire4(b[1..5]), b[5..])))
    else if b[0] == ATYP_IPV6 then (if |b| < 17 then None else Some((Wire6(b[1..17]), b[17..])))
    else if b[0] == ATYP_DOMAIN then
      (if |b| < 2 || b[1] == 0 || |b| < 2 + b[1] as nat then None
       else Some((WireName(b[2..2 + b[1] as nat]), b[2 + b[1] as nat..])))
    else None
  }

  lemma DecodeEncode(w: WireAddr, rest: Bytes)
    requires WireOk(w)
    ensures Decode(Encode(w) + rest) == Some((w, rest))
  {
    var b := Encode(w) + rest;
    match w
    case Wire4(ip) => assert b[1..5] == ip && b[5..] == rest;
    case Wire6(ip) => assert b[1..17] == ip && b[17..] == rest;
    case WireName(name) => assert b[2..2 + |name|] == name && b[2 + |name|..] == rest;
  }

  lemma EncodeDecode(b: Bytes)
    ensures Decode(b).Some? ==> var (w, rest) := Decode(b).value; WireOk(w) && b == Encode(w) + rest
  {
  }

  lemma PortRoundTrip(port: nat, b: Bytes)
    ensures port < 65536 ==> PortOf(PortBytes(port)) == port
    ensures |b| >= 2 ==> PortOf(b) < 65536 && PortBytes(PortOf(b)) == b[..2]
  {
  }

  // --- The UDP header -------------------------------------------------------------------

  datatype UdpError = TooShort | ReservedNotZero | Fragmented | Truncated | EmptyName | BadAddrType | PortZero

  /** `parseUDPHeader`: the destination and the payload of a datagram. */
  function ParseUDPHeader(b: Bytes, parse: ParseAddr): Result<(Destination, Bytes), UdpError> {
    if |b| < 4 then Err(TooShort)
    else if b[0] != 0 || b[1] != 0 then Err(ReservedNotZero)
    else if b[2] != 0 then Err(Fragmented)
    else
      var rest := b[4..];
      if b[3] == ATYP_IPV4 then
        if |rest| < 4 + 2 then Err(Truncated) else WithPort([], V4(rest[..4]), rest[4..])
      else if b[3] == ATYP_IPV6 then
        if |rest| < 16 + 2 then Err(Truncated) else WithPort([], V6(rest[..16], []), rest[16..])
      else if b[3] == ATYP_DOMAIN then
        if |rest| < 1 then Err(Truncated)
        else if rest[0] == 0 then Err(EmptyName)
        else if |rest| < 1 + rest[0] as nat + 2 then Err(Truncated)
        else
          var host := rest[1..1 + rest[0] as nat];
          var a := parse(host);
          WithPort(if a.Some? then [] else host, if a.Some? then Unmap(a.value) else NoAddr, rest[1 + rest[0] as nat..])
      else Err(BadAddrType)
  }

  function WithPort(host: Bytes, addr: Addr, rest: Bytes): Result<(Destination, Bytes), UdpError>
    requires |rest| >= 2
  {
    if PortOf(rest) == 0 then Err(PortZero) else Ok((Destination(host, addr, PortOf(rest)), rest[2..]))
  }

  /** `buildUDPHeader`: appends a header naming `src`. */
  function BuildUDPHeader(out: Bytes, src: AddrPort): Bytes
    requires ValidAddr(src.addr) && src.port < 65536
  {
    var addr := Unmap(src.addr);
    out + [0, 0, 0] + (if addr.V4? then [ATYP_IPV4] + addr.ip else [ATYP_IPV6] + As16(addr)) + PortBytes(src.port)
  }

  /** Section 7 of RFC 1928, as a printer. */
  function UdpDatagram(w: WireAddr, port: nat, data: Bytes): Bytes
    requires WireOk(w) && port < 65536
  {
    [0, 0, 0] + Encode(w) + PortBytes(port) + data
  }

  /** The parser in terms of the wire description. */
  lemma ParseIsDecode(b: Bytes, parse: ParseAddr)
    ensures var r := ParseUDPHeader(b, parse);
      if |b| >= 4 && b[..3] == [0, 0, 0] && Decode(b[3..]).Some? && |Decode(b[3..]).value.1| >= 2
         && PortOf(Decode(b[3..]).value.1) != 0
      then var (w, rest) := Decode(b[3..]).value; r == Ok((Meaning(w, PortOf(rest), parse), rest[2..]))
      else r.Err?
  {
    if |b| >= 4 {
      var t := b[3..];
      if b[3] == ATYP_IPV4 && |t| >= 5 {
        assert t[1..5] == b[4..][..4] && t[5..] == b[4..][4..];
      } else if b[3] == ATYP_IPV6 && |t| >= 17 {
        assert t[1..17] == b[4..][..16] && t[17..] == b[4..][16..];
      } else if b[3] == ATYP_DOMAIN && |t| >= 2 && |t| >= 2 + t[1] as nat {
        var n := t[1] as nat;
        assert t[2..2 + n] == b[4..][1..1 + n] && t[2 + n..] == b[4..][1 + n..];
      }
    }
  }

  /** Every well-formed datagram with a port parses to what it means, and its data unchanged. */
  lemma ParsesEveryDatagram(w: WireAddr, port: nat, data: Bytes, parse: ParseAddr)
    requires WireOk(w) && 0 < port < 65536
    ensures ParseUDPHeader(UdpDatagram(w, port, data), parse) == Ok((Meaning(w, port, parse), data))
  {
    var b := UdpDatagram(w, port, data);
    var tail := PortBytes(port) + data;
    assert b == [0, 0, 0] + (Encode(w) + tail);
    assert b[..3] == [0, 0, 0] && b[3..] == Encode(w) + tail;
    DecodeEncode(w, tail);
    PortRoundTrip(port, tail);
    assert tail[..2] == PortBytes(port) && tail[2..] == data;
    ParseIsDecode(b, parse);
  }

  /** ... and nothing else parses: an accepted byte string is such a datagram. */
  lemma ParsesOnlyDatagrams(b: Bytes, parse: ParseAddr) returns (w: WireAddr, port: nat, data: Bytes)
    requires ParseUDPHeader(b, parse).Ok?
    ensures WireOk(w) && 0 < port < 65536 && b == UdpDatagram(w, port, data)
    ensures ParseUDPHeader(b, parse).value == (Meaning(w, port, parse), data)
  {
    ParseIsDecode(b, parse);
    EncodeDecode(b[3..]);
    var (w', rest) := Decode(b[3..]).value;
    PortRoundTrip(0, rest);
    w, port, data := w', PortOf(rest), rest[2..];
    assert b == b[..3] + b[3..];
    assert rest == rest[..2] + rest[2..];
  }

  /** A reply that the relay wraps comes back as the source the tunnel reported, unmapped and
      without its zone, and exactly the data: if and only if the source has a port. */
  lemma ReplyRoundTrip(src: AddrPort, data: Bytes, parse: ParseAddr)
    requires ValidAddr(src.addr) && !src.addr.NoAddr? && src.port < 65536
    ensures ParseUDPHeader(BuildUDPHeader([], src) + data, parse)
            == if src.port > 0 then Ok((Destination([], Plain(Unmap(src.addr)), src.port), data)) else Err(PortZero)
  {
    var addr := Unmap(src.addr);
    var w := if addr.V4? then Wire4(addr.ip) else Wire6(addr.ip);
    var b := BuildUDPHeader([], src) + data;
    assert b == UdpDatagram(w, src.port, data);
    if src.port > 0 {
      ParsesEveryDatagram(w, src.port, data, parse);
    } else if w.Wire4? {
      assert b[4..][4..][..2] == [0, 0];
    } else {
      assert b[4..][16..][..2] == [0, 0];
    }
  }

  // --- Replies --------------------------------------------------------------------------

  /** `writeReply`: what is sent for a reply code and a bound address. */
  function Reply(rep: byte, bound: AddrPort): Bytes
    requires ValidAddr(bound.addr) && bound.port < 65536
  {
    [SOCKS_VERSION, rep, 0]
    + (if bound.addr.V4? then [ATYP_IPV4] + bound.addr.ip
       else if bound.addr.V6? then [ATYP_IPV6] + bound.addr.ip
       else [ATYP_IPV4, 0, 0, 0, 0])
    + PortBytes(bound.port)
  }

  /** A client that reads a reply by section 6 of RFC 1928 finds the code, the bound address
      (0.0.0.0 if there is none) and the port, and no byte is left over. */
  lemma ReplyReadable(rep: byte, bound: AddrPort, parse: ParseAddr)
    requires ValidAddr(bound.addr) && bound.port < 65536
    ensures var r := Reply(rep, bound);
      && |r| >= 4 && r[..3] == [SOCKS_VERSION, rep, 0] && Decode(r[3..]).Some?
      && var (w, rest) := Decode(r[3..]).value;
         && |rest| == 2
         && Meaning(w, PortOf(rest), parse)
            == Destination([], if bound.addr.NoAddr? then V4([0, 0, 0, 0]) else Plain(bound.addr), bound.port)
  {
    var w := if bound.addr.V4? then Wire4(bound.addr.ip)
             else if bound.addr.V6? then Wire6(bound.addr.ip) else Wire4([0, 0, 0, 0]);
    var r := Reply(rep, bound);
    assert r == [SOCKS_VERSION, rep, 0] + (Encode(w) + PortBytes(bound.port));
    assert r[3..] == Encode(w) + PortBytes(bound.port);
    DecodeEncode(w, PortBytes(bound.port));
    PortRoundTrip(bound.port, []);
  }
}
