/** The SOCKS5 session of internal/socks5/server.go: method negotiation and request parsing over
    a byte stream, and the choice of the address to connect to. */
module Socks5Server {
  import opened Basics
  import opened Socks5Wire

  const NO_AUTH: byte := 0
  const NO_ACCEPTABLE: byte := 255
  const REP_ADDR_TYPE: byte := 8
  const REP_SUCCESS: byte := 0
  const REP_HOST_UNREACHABLE: byte := 4

  datatype Error = ShortRead | BadVersion | NoMethods | NoCommonMethod | EmptyDomain | UnknownAddrType | WriteFailed

  /** The client's connection: what it sends until it closes, how far that was read, what was
      written back, and whether it takes anything. */
  class ClientConn {
    const input: Bytes
    const writable: bool
    var pos: nat
    var output: Bytes

    ghost predicate Valid()
      reads this
    {
      pos <= |input|
    }

    function Rest(): Bytes
      requires pos <= |input|
      reads this
    {
      input[pos..]
    }

    constructor (input: Bytes, writable: bool)
      ensures Valid() && this.input == input && this.writable == writable && Rest() == input && output == []
    {
      this.input, this.writable, pos, output := input, writable, 0, [];
    }

    /** `io.ReadFull`: all `n` bytes, or whatever was left and an error. */
    method ReadFull(n: nat) returns (buf: Bytes, ok: bool)
      requires Valid()
      modifies `pos
      ensures Valid()
      ensures ok <==> n <= |old(Rest())|
      ensures ok ==> |buf| == n && old(Rest()) == buf + Rest() && pos == old(pos) + n
      ensures !ok ==> pos == |input|
    {
      if pos + n <= |input| {
        buf, ok := input[pos..pos + n], true;
        pos := pos + n;
      } else {
        buf, ok := input[pos..], false;
        pos := |input|;
      }
    }

    method Write(b: Bytes) returns (ok: bool)
      modifies `output
      ensures ok == writable && output == if ok then old(output) + b else old(output)
    {
      if writable {
        output := output + b;
      }
      ok := writable;
    }
  }

  /** Section 3 of RFC 1928: a version, and a counted list of methods. */
  predicate IsGreeting(sent: Bytes, methods: Bytes) {
    |sent| >= 2 && sent[0] == SOCKS_VERSION && sent[1] as nat == |methods| > 0
    && |sent| >= 2 + |methods| && sent[2..2 + |methods|] == methods
  }

  /** `negotiate`: accepts exactly the greetings that offer "no authentication" from a client that
      takes the answer, reads no byte beyond the greeting, and answers a greeting that does not with
      "no acceptable method". */
  method Negotiate(c: ClientConn) returns (err: Option<Error>)
    requires c.Valid()
    modifies c`pos, c`output
    ensures c.Valid()
    ensures err.None? || err == Some(WriteFailed) <==> exists ms :: IsGreeting(old(c.Rest()), ms) && NO_AUTH in ms
    ensures err.None? ==> c.writable
    ensures err == Some(WriteFailed) ==> !c.writable
    ensures err.None? ==> c.output == old(c.output) + [SOCKS_VERSION, NO_AUTH]
                          && c.Rest() == old(c.Rest())[2 + old(c.Rest())[1] as nat..]
    ensures err == Some(NoCommonMethod) <==> exists ms :: IsGreeting(old(c.Rest()), ms) && NO_AUTH !in ms
    ensures err == Some(NoCommonMethod) && c.writable ==> c.output == old(c.output) + [SOCKS_VERSION, NO_ACCEPTABLE]
    ensures !c.writable ==> c.output == old(c.output)
    ensures err.Some? && err != Some(NoCommonMethod) ==> c.output == old(c.output)
  {
    ghost var sent := c.Rest();
    var header, ok := c.ReadFull(2);
    if !ok {
      return Some(ShortRead);
    }
    if header[0] != SOCKS_VERSION {
      return Some(BadVersion);
    }
    var n := header[1] as nat;
    if n == 0 {
      return Some(NoMethods);
    }
    var methods;
    methods, ok := c.ReadFull(n);
    if !ok {
      return Some(ShortRead);
    }
    assert sent == header + (methods + c.Rest());
    assert IsGreeting(sent, methods);
    assert forall ms :: IsGreeting(sent, ms) ==> ms == methods;
    for i := 0 to |methods|
      invariant NO_AUTH !in methods[..i] && c.output == old(c.output)
    {
      if methods[i] == NO_AUTH {
        ok := c.Write([SOCKS_VERSION, NO_AUTH]);
        return if ok then None else Some(WriteFailed);
      }
    }
    assert methods[..|methods|] == methods;
    ok := c.Write([SOCKS_VERSION, NO_ACCEPTABLE]);
    return Some(NoCommonMethod);
  }

  // --- The request ----------------------------------------------------------------------

  /** Section 4 of RFC 1928, as a printer; `reserved` is not looked at. */
  function Request(cmd: byte, reserved: byte, w: WireAddr, port: nat): Bytes
    requires WireOk(w) && port < 65536
  {
    [SOCKS_VERSION, cmd, reserved] + Encode(w) + PortBytes(port)
  }

  /** Whether `sent` starts with a whole request. */
  predicate HasRequest(sent: Bytes) {
    |sent| >= 4 && sent[0] == SOCKS_VERSION && Decode(sent[3..]).Some? && |Decode(sent[3..]).value.1| >= 2
  }

  function RequestMeaning(sent: Bytes, parse: ParseAddr): Destination
    requires HasRequest(sent)
  {
    var (w, rest) := Decode(sent[3..]).value;
    Meaning(w, PortOf(rest), parse)
  }

  /** The bytes after the request. */
  function AfterRequest(sent: Bytes): Bytes
    requires HasRequest(sent)
  {
    Decode(sent[3..]).value.1[2..]
  }

  /** `readRequest`: succeeds exactly on a whole request, port zero included, with the destination
      it means, and leaves every byte after it unread. Only an unknown address type is answered. */
  method ReadRequest(c: ClientConn, parse: ParseAddr) returns (cmd: byte, dest: Destination, err: Option<Error>)
    requires c.Valid()
    modifies c`pos, c`output
    ensures c.Valid()
    ensures err.None? <==> HasRequest(old(c.Rest()))
    ensures err.None? ==>
        && cmd == old(c.Rest())[1] && dest == RequestMeaning(old(c.Rest()), parse)
        && c.Rest() == AfterRequest(old(c.Rest())) && c.output == old(c.output)
    ensures err == Some(UnknownAddrType) <==>
              var sent := old(c.Rest());
              |sent| >= 4 && sent[0] == SOCKS_VERSION && sent[3] !in {ATYP_IPV4, ATYP_IPV6, ATYP_DOMAIN}
    ensures c.output == if err == Some(UnknownAddrType) && c.writable
                        then old(c.output) + Reply(REP_ADDR_TYPE, AddrPort(NoAddr, 0)) else old(c.output)
  {
    cmd, dest := 0, Destination([], NoAddr, 0);
    ghost var sent := c.Rest();
    var header, ok := c.ReadFull(4);
    if !ok {
      return cmd, dest, Some(ShortRead);
    }
    if header[0] != SOCKS_VERSION {
      return cmd, dest, Some(BadVersion);
    }
    cmd := header[1];
    assert sent == header + c.Rest() && sent[3..] == [header[3]] + c.Rest();
    dest, err := ReadAddress(c, header[3], parse);
    if err.Some? {
      return;
    }
    ghost var r := c.Rest();
    var buf;
    buf, ok := c.ReadFull(2);
    if !ok {
      return cmd, dest, Some(ShortRead);
    }
    assert r[2..] == c.Rest() && r[0] == buf[0] && r[1] == buf[1];
    dest := dest.(port := PortOf(buf));
    err := None;
  }

  /** The switch on the address type. */
  method ReadAddress(c: ClientConn, atyp: byte, parse: ParseAddr) returns (dest: Destination, err: Option<Error>)
    requires c.Valid()
    modifies c`pos, c`output
    ensures c.Valid()
    ensures var d := Decode([atyp] + old(c.Rest()));
      && (err.None? <==> d.Some?)
      && (err.None? ==> c.Rest() == d.value.1 && dest == Meaning(d.value.0, 0, parse))
    ensures err == Some(UnknownAddrType) <==> atyp !in {ATYP_IPV4, ATYP_IPV6, ATYP_DOMAIN}
    ensures c.output == if err == Some(UnknownAddrType) && c.writable
                        then old(c.output) + Reply(REP_ADDR_TYPE, AddrPort(NoAddr, 0)) else old(c.output)
  {
    dest := Destination([], NoAddr, 0);
    ghost var b := [atyp] + c.Rest();
    var buf, ok;
    if atyp == ATYP_IPV4 {
      buf, ok := c.ReadFull(4);
      if !ok {
        return dest, Some(ShortRead);
      }
      assert b[1..5] == buf && b[5..] == c.Rest();
      return Destination([], V4(buf), 0), None;
    } else if atyp == ATYP_IPV6 {
      buf, ok := c.ReadFull(16);
      if !ok {
        return dest, Some(ShortRead);
      }
      assert b[1..17] == buf && b[17..] == c.Rest();
      return Destination([], V6(buf, []), 0), None;
    } else if atyp == ATYP_DOMAIN {
      dest, err := ReadName(c, dest, parse);
    } else {
      ok := c.Write(Reply(REP_ADDR_TYPE, AddrPort(NoAddr, 0)));
      return dest, Some(UnknownAddrType);
    }
  }

  /** The domain branch: a length, and a name or an address in its place. */
  method ReadName(c: ClientConn, dest0: Destination, parse: ParseAddr) returns (dest: Destination, err: Option<Error>)
    requires c.Valid()
    modifies c`pos
    ensures c.Valid()
    ensures var d := Decode([ATYP_DOMAIN] + old(c.Rest()));
      && (err.None? <==> d.Some?)
      && (err.None? ==>
            var (w, rest) := d.value;
            w.WireName? && c.Rest() == rest && dest.(port := 0) == Meaning(w, 0, parse) && dest.port == dest0.port)
    ensures err.Some? ==> err != Some(UnknownAddrType)
  {
    dest := Destination([], NoAddr, dest0.port);
    ghost var sent := c.Rest();
    var lenBuf, ok := c.ReadFull(1);
    if !ok {
      return dest, Some(ShortRead);
    }
    if lenBuf[0] == 0 {
      return dest, Some(EmptyDomain);
    }
    var name;
    name, ok := c.ReadFull(lenBuf[0] as nat);
    if !ok {
      return dest, Some(ShortRead);
    }
    ghost var b := [ATYP_DOMAIN] + sent;
    assert b == [ATYP_DOMAIN, lenBuf[0]] + name + c.Rest();
    assert b[2..2 + |name|] == name && b[2 + |name|..] == c.Rest();
    var a := parse(name);
    if a.Some? {
      dest := dest.(addr := Unmap(a.value));
    } else {
      dest := dest.(host := name);
    }
    err := None;
  }

  /** A stream has a request exactly when it is a printed one followed by whatever comes next. */
  lemma RequestIsPrinted(cmd: byte, reserved: byte, w: WireAddr, port: nat, next: Bytes, parse: ParseAddr)
    requires WireOk(w) && port < 65536
    ensures var sent := Request(cmd, reserved, w, port) + next;
      HasRequest(sent) && RequestMeaning(sent, parse) == Meaning(w, port, parse) && AfterRequest(sent) == next
  {
    var tail := PortBytes(port) + next;
    RequestTail(cmd, reserved, w, port, next);
    DecodeEncode(w, tail);
    PortRoundTrip(port, tail);
    assert tail[2..] == next && PortOf(tail) == PortOf(PortBytes(port));
  }

  lemma RequestTail(cmd: byte, reserved: byte, w: WireAddr, port: nat, next: Bytes)
    requires WireOk(w) && port < 65536
    ensures var sent := Request(cmd, reserved, w, port) + next;
      |sent| >= 4 && sent[0] == SOCKS_VERSION && sent[3..] == Encode(w) + (PortBytes(port) + next)
  {
    assert Request(cmd, reserved, w, port) + next == [SOCKS_VERSION, cmd, reserved] + (Encode(w) + (PortBytes(port) + next));
  }

  lemma RequestOnlyPrinted(sent: Bytes) returns (w: WireAddr, port: nat)
    requires HasRequest(sent)
    ensures WireOk(w) && port < 65536 && sent == Request(sent[1], sent[2], w, port) + AfterRequest(sent)
  {
    EncodeDecode(sent[3..]);
    var (w', rest) := Decode(sent[3..]).value;
    PortRoundTrip(0, rest);
    w, port := w', PortOf(rest);
    assert rest == rest[..2] + rest[2..];
    assert sent == [sent[0], sent[1], sent[2]] + sent[3..];
  }

  /** The two parsers agree: the same address and port bytes, with a port other than zero, mean the
      same destination in a UDP header and in a request. */
  lemma HeaderAndRequestAgree(cmd: byte, reserved: byte, w: WireAddr, port: nat, data: Bytes, next: Bytes, parse: ParseAddr)
    requires WireOk(w) && 0 < port < 65536
    ensures var sent := Request(cmd, reserved, w, port) + next;
      && HasRequest(sent)
      && ParseUDPHeader(UdpDatagram(w, port, data), parse) == Ok((RequestMeaning(sent, parse), data))
  {
    RequestIsPrinted(cmd, reserved, w, port, next, parse);
    ParsesEveryDatagram(w, port, data, parse);
  }

  // --- Choosing where to connect --------------------------------------------------------

  datatype DialError = TunnelDown | HandshakePending | NoDns | DeadlinePassed | Refused | NetUnreachable | NoRoute | Other

  /** `replyForError`, whose fallback is always "host unreachable" here. */
  function ReplyFor(e: DialError): byte {
    match e
    case TunnelDown => 3
    case HandshakePending => 3
    case NetUnreachable => 3
    case Refused => 5
    case _ => REP_HOST_UNREACHABLE
  }

  /** A failure is never reported as a success, "connection refused" (5) is said only of a destination that
      refused, "network unreachable" (3) only when the tunnel or the network is not there, and of
      everything else "host unreachable" (4); no other code of section 6 of RFC 1928 is used. */
  lemma RepliesTell(e: DialError)
    ensures ReplyFor(e) != REP_SUCCESS && ReplyFor(e) in {3, 4, 5}
    ensures ReplyFor(e) == 5 <==> e.Refused?
    ensures ReplyFor(e) == 3 <==> e in {TunnelDown, HandshakePending, NetUnreachable}
  {
  }

  /** Seen through a mapping or not, an address is unspecified exactly if all the bytes that make it up are
      zero and it has no zone. */
  lemma UnspecifiedMeans(a: Addr)
    requires ValidAddr(a)
    ensures IsUnspecified(a) <==> !a.NoAddr? && (forall i :: 0 <= i < |a.ip| ==> a.ip[i] == 0) && (a.V6? ==> a.zone == [])
    ensures Is4In6(a) ==> (IsUnspecified(Unmap(a)) <==> forall i :: 12 <= i < 16 ==> a.ip[i] == 0)
  {
    if a.V4? && forall i :: 0 <= i < 4 ==> a.ip[i] == 0 {
      assert a.ip == [0, 0, 0, 0];
    }
    if a.V6? && forall i :: 0 <= i < 16 ==> a.ip[i] == 0 {
      assert a.ip == seq(16, _ => 0);
    }
    if Is4In6(a) && forall i :: 12 <= i < 16 ==> a.ip[i] == 0 {
      assert a.ip[12..] == [0, 0, 0, 0];
    }
    if Is4In6(a) && IsUnspecified(Unmap(a)) {
      forall i | 12 <= i < 16 ensures a.ip[i] == 0 {
        assert a.ip[12..][i - 12] == 0;
      }
    }
  }

  /** The addresses a connection may go to: unmapped, without 0.0.0.0 and ::, in order. */
  function Candidates(addrs: seq<Addr>): seq<Addr> {
    if addrs == [] then []
    else if IsUnspecified(Unmap(addrs[0])) then Candidates(addrs[1..])
    else [Unmap(addrs[0])] + Candidates(addrs[1..])
  }

  lemma {:induction false} CandidatesSnoc(addrs: seq<Addr>, a: Addr)
    ensures Candidates(addrs + [a]) == if IsUnspecified(Unmap(a)) then Candidates(addrs) else Candidates(addrs) + [Unmap(a)]
  {
    if addrs == [] {
      assert (addrs + [a])[1..] == [];
    } else {
      CandidatesSnoc(addrs[1..], a);
      assert (addrs + [a])[1..] == addrs[1..] + [a];
    }
  }

  /** What the candidates are: no unspecified address, and each one an address that was given. */
  lemma {:induction false} CandidatesAreRoutable(addrs: seq<Addr>, c: Addr)
    ensures c in Candidates(addrs) <==> !IsUnspecified(c) && exists i :: 0 <= i < |addrs| && Unmap(addrs[i]) == c
  {
    if addrs != [] {
      CandidatesAreRoutable(addrs[1..], c);
      if i :| 0 <= i < |addrs| && Unmap(addrs[i]) == c {
        assert i == 0 || addrs[1..][i - 1] == addrs[i];
      }
      if j :| 0 <= j < |addrs[1..]| && Unmap(addrs[1..][j]) == c {
        assert addrs[j + 1] == addrs[1..][j];
      }
    }
  }

  /** `routable`. */
  method Routable(addrs: seq<Addr>) returns (out: seq<Addr>)
    ensures out == Candidates(addrs)
  {
    out := [];
    for i := 0 to |addrs|
      invariant out == Candidates(addrs[..i])
    {
      CandidatesSnoc(addrs[..i], addrs[i]);
      assert addrs[..i + 1] == addrs[..i] + [addrs[i]];
      var a := Unmap(addrs[i]);
      if !IsUnspecified(a) {
        out := out + [a];
      }
    }
    assert addrs[..|addrs|] == addrs;
  }

  /** What the dialer answers. */
  datatype Dialer = Dialer(hasDns: bool, lookup: Result<seq<Addr>, DialError>, dial: nat -> Option<DialError>)

  /** Where a request may go, or the refusal. */
  function Targets(dest: Destination, d: Dialer): Result<seq<Addr>, byte> {
    if dest.host != [] then
      if !d.hasDns then Err(REP_HOST_UNREACHABLE)
      else if d.lookup.Err? then Err(ReplyFor(d.lookup.error))
      else if Candidates(d.lookup.value) == [] then Err(REP_HOST_UNREACHABLE)
      else Ok(Candidates(d.lookup.value))
    else if IsUnspecified(Unmap(dest.addr)) then Err(REP_HOST_UNREACHABLE)
    else Ok([Unmap(dest.addr)])
  }

  /** `connect`: dials the candidates in order, each at most once, and stops at the first that
      answers; it fails only after every one failed, with the reply for the last failure. Nothing
      is dialled when the name cannot be resolved or resolves to no routable address. */
  method Connect(dest: Destination, d: Dialer) returns (target: Option<AddrPort>, rep: byte, dialled: seq<AddrPort>)
    ensures target.Some? <==> rep == REP_SUCCESS
    ensures var t := Targets(dest, d);
      match t
      case Err(r) => dialled == [] && target.None? && rep == r
      case Ok(addrs) =>
        && |dialled| <= |addrs| && (forall i :: 0 <= i < |dialled| ==> dialled[i] == AddrPort(addrs[i], dest.port))
        && |dialled| >= 1 && (forall i :: 0 <= i < |dialled| - 1 ==> d.dial(i).Some?)
        && if target.Some? then target.value == dialled[|dialled| - 1] && d.dial(|dialled| - 1).None?
           else |dialled| == |addrs| && d.dial(|addrs| - 1).Some? && rep == ReplyFor(d.dial(|addrs| - 1).value)
  {
    target, dialled := None, [];
    var candidates;
    if dest.host != [] {
      if !d.hasDns {
        return None, REP_HOST_UNREACHABLE, [];
      }
      if d.lookup.Err? {
        return None, ReplyFor(d.lookup.error), [];
      }
      candidates := Routable(d.lookup.value);
      if |candidates| == 0 {
        return None, REP_HOST_UNREACHABLE, [];
      }
    } else {
      if IsUnspecified(Unmap(dest.addr)) {
        return None, REP_HOST_UNREACHABLE, [];
      }
      candidates := [Unmap(dest.addr)];
    }
    var lastErr := Other;
    for i := 0 to |candidates|
      invariant |dialled| == i
      invariant forall j :: 0 <= j < i ==> dialled[j] == AddrPort(candidates[j], dest.port) && d.dial(j).Some?
      invariant i > 0 ==> d.dial(i - 1) == Some(lastErr)
    {
      var t := AddrPort(candidates[i], dest.port);
      dialled := dialled + [t];
      var e := d.dial(i);
      if e.None? {
        return Some(t), REP_SUCCESS, dialled;
      }
      lastErr := e.value;
    }
    return None, ReplyFor(lastErr), dialled;
  }
}
