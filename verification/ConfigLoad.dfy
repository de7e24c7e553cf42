/** From the text of a configuration to the tunnel: the MTU and what `ParseTunnel` and `finalize` make
    of it in internal/config/tunnel.go. */
module ConfigLoad {
  import opened Basics
  import opened Text
  import opened ConfigScan
  import opened ConfigValues
  import opened ConfigValidate

  const DEFAULT_MTU: int := 1420
  const MIN_SAFE_MTU: int := 1280

  function SafeMTU(s4: int, contentPaddingMax: int): int {
    var mtu := DEFAULT_MTU - s4 - contentPaddingMax;
    if mtu < MIN_SAFE_MTU then MIN_SAFE_MTU else mtu
  }

  /** A full data packet on the wire: the IPv6 and UDP headers, WireGuard's header and tag, and what
      AmneziaWG adds. */
  function PacketSize(mtu: int, s4: int, contentPaddingMax: int): int {
    40 + 8 + 32 + mtu + s4 + contentPaddingMax
  }

  const PATH_MTU: int := 1500

  /** The derived MTU fits a 1500 byte path exactly up to 140 added bytes, and no larger MTU would. */
  lemma SafeMTUFits(s4: int, contentPaddingMax: int, mtu: int)
    ensures PacketSize(SafeMTU(s4, contentPaddingMax), s4, contentPaddingMax) <= PATH_MTU <==> s4 + contentPaddingMax <= 140
    ensures PacketSize(mtu, s4, contentPaddingMax) <= PATH_MTU ==> mtu <= SafeMTU(s4, contentPaddingMax)
  {
  }

  /** The accumulators of `perPacketOverhead` after the first `n` entries: the last value wins. */
  function Overhead(es: seq<KV>, n: nat): (int, int)
    requires n <= |es|
  {
    if n == 0 then (0, 0)
    else
      var (s4, padding) := Overhead(es, n - 1);
      var e := es[n - 1];
      if e.key == "s4" then
        var v := ParseInt(e.value);
        (if v.ok && v.v > 0 then v.v else s4, padding)
      else if e.key == "contentpaddingaddition" then
        var r := ParseUintRange(e.value, MAX_UINT32);
        (s4, if r.Some? then r.value.hi else padding)
      else (s4, padding)
  }

  method PerPacketOverhead(es: seq<KV>) returns (s4: int, contentPaddingMax: int)
    ensures (s4, contentPaddingMax) == Overhead(es, |es|)
  {
    s4, contentPaddingMax := 0, 0;
    for i := 0 to |es|
      invariant (s4, contentPaddingMax) == Overhead(es, i)
    {
      var e := es[i];
      if e.key == "s4" {
        var v := ParseInt(e.value);
        if v.ok && v.v > 0 {
          s4 := v.v;
        }
      } else if e.key == "contentpaddingaddition" {
        var r := ParseUintRange(e.value, MAX_UINT32);
        if r.Some? {
          contentPaddingMax := r.value.hi;
        }
      }
    }
  }

  ghost predicate NumbersChecked(es: seq<KV>, key: string) {
    forall i :: 0 <= i < |es| && es[i].key == key && es[i].value != "" ==> UintAtMost(es[i].value, MAX_UINT16)
  }

  /** Which of the first `n` entries has the key. */
  lemma {:induction false} LastS4(es: seq<KV>, n: nat)
    requires n <= |es| && UniqueKeys(es) && NumbersChecked(es, "s4")
    ensures (forall i :: 0 <= i < n ==> es[i].key != "s4") ==> Overhead(es, n).0 == 0
    ensures forall i :: 0 <= i < n && es[i].key == "s4" ==>
              Overhead(es, n).0 == match ParseUint(es[i].value, MAX_UINT64) case Value(v) => v case _ => 0
  {
    if n > 0 {
      LastS4(es, n - 1);
      var e := es[n - 1];
      if e.key == "s4" && e.value != "" {
        ParseUintMeans(e.value, MAX_UINT64);
        assert UintAtMost(e.value, MAX_UINT16);
        assert IsDigit(e.value[0]);
      }
    }
  }

  lemma {:induction false} LastPadding(es: seq<KV>, n: nat)
    requires n <= |es| && UniqueKeys(es)
    ensures (forall i :: 0 <= i < n ==> es[i].key != "contentpaddingaddition") ==> Overhead(es, n).1 == 0
    ensures forall i :: 0 <= i < n && es[i].key == "contentpaddingaddition" ==>
              Overhead(es, n).1 == match ParseUintRange(es[i].value, MAX_UINT32) case Some(r) => r.hi case None => 0
  {
    if n > 0 {
      LastPadding(es, n - 1);
    }
  }

  /** The value of a number that is set, and zero for one that is not. */
  ghost predicate NumberOrZero(es: seq<KV>, key: string, n: int) {
    (n >= 0 && NumberIs(es, key, n)) || (n == 0 && forall m: nat :: !NumberIs(es, key, m))
  }

  ghost predicate UpperBoundOrZero(es: seq<KV>, key: string, n: int) {
    || (exists v :: IsSet(es, key, v) && ParseUintRange(v, MAX_UINT32).Some? && n == ParseUintRange(v, MAX_UINT32).value.hi)
    || (n == 0 && forall v :: !(IsSet(es, key, v) && ParseUintRange(v, MAX_UINT32).Some?))
  }

  /** Since keys are unique, the last-wins loop agrees with the first-match lookups of the
      validation, even though one uses `Atoi` and the other `ParseUint`. */
  lemma OverheadIsWhatIsSet(es: seq<KV>)
    requires UniqueKeys(es) && NumbersChecked(es, "s4")
    ensures NumberOrZero(es, "s4", Overhead(es, |es|).0)
    ensures UpperBoundOrZero(es, "contentpaddingaddition", Overhead(es, |es|).1)
  {
    LastS4(es, |es|);
    LastPadding(es, |es|);
    S4IsWhatIsSet(es);
    PaddingIsWhatIsSet(es);
  }

  lemma S4IsWhatIsSet(es: seq<KV>)
    requires UniqueKeys(es) && NumbersChecked(es, "s4")
    ensures NumberOrZero(es, "s4", Overhead(es, |es|).0)
  {
    LastS4(es, |es|);
    if i :| 0 <= i < |es| && es[i].key == "s4" {
      if es[i].value != "" {
        assert IsSet(es, "s4", es[i].value);
        assert UintAtMost(es[i].value, MAX_UINT16);
        assert NumberIs(es, "s4", Overhead(es, |es|).0);
      }
    }
  }

  lemma PaddingIsWhatIsSet(es: seq<KV>)
    requires UniqueKeys(es)
    ensures UpperBoundOrZero(es, "contentpaddingaddition", Overhead(es, |es|).1)
  {
    LastPadding(es, |es|);
    if i :| 0 <= i < |es| && es[i].key == "contentpaddingaddition" {
      if es[i].value != "" {
        assert IsSet(es, "contentpaddingaddition", es[i].value);
      } else {
        assert ParseUintRange("", MAX_UINT32).None?;
      }
    }
  }

  lemma S4IsChecked(es: seq<KV>, f: Foreign)
    requires InterfaceOk(es, SupportedParams(), f)
    ensures NumbersChecked(es, "s4")
  {
    forall i | 0 <= i < |es| && es[i].key == "s4" && es[i].value != ""
      ensures UintAtMost(es[i].value, MAX_UINT16)
    {
      assert InterfaceEntryOk(es[i], SupportedParams(), f);
    }
  }

  // --- The upstream representation ------------------------------------------------------

  datatype ConfAddress = BadAddress | BadPrefix | GoodAddress(ip: nat)

  datatype ConfDns = BadDns | GoodDns(ip: nat, loopback: bool)

  datatype ConfPeer = ConfPeer(keyIsZero: bool, endpointIsEmpty: bool, port: nat, allowedIPs: nat)

  /** What the upstream parser makes of the text; `mtu` is zero if there is none. */
  datatype Conf = Conf(mtu: nat, addresses: seq<ConfAddress>, dns: seq<ConfDns>, peers: seq<ConfPeer>)

  datatype Tunnel = Tunnel(mtu: int, addresses: seq<nat>, dns: seq<nat>, localDns: seq<nat>)

  datatype LoadError =
    | ScanFailed(scanError: ScanError) | Invalid(problem: Problem) | UpstreamFailed
    | NoAddress | InvalidAddress(i: nat) | InvalidDns(i: nat) | NoPeer | InvalidPeer(i: nat) | InvalidMtu

  /** A peer can be reached, and something is routed to it. */
  predicate PeerUsable(p: ConfPeer) {
    !p.keyIsZero && !p.endpointIsEmpty && p.port != 0 && p.allowedIPs != 0
  }

  predicate Usable(c: Conf, mtu: int) {
    && c.addresses != [] && (forall i :: 0 <= i < |c.addresses| ==> c.addresses[i].GoodAddress?)
    && (forall i :: 0 <= i < |c.dns| ==> c.dns[i].GoodDns?)
    && c.peers != [] && (forall i :: 0 <= i < |c.peers| ==> PeerUsable(c.peers[i]))
    && MIN_MTU <= mtu <= MAX_MTU
  }

  /** The resolvers on this machine, or those beyond the tunnel, in order. */
  function Resolvers(ds: seq<ConfDns>, local: bool): seq<nat>
    requires forall i :: 0 <= i < |ds| ==> ds[i].GoodDns?
  {
    if ds == [] then []
    else if ds[|ds| - 1].loopback == local then Resolvers(ds[..|ds| - 1], local) + [ds[|ds| - 1].ip]
    else Resolvers(ds[..|ds| - 1], local)
  }

  /** `finalize`: fails exactly on a configuration that cannot be used. With a resolver on this
      machine no other one is kept, so that stopping it makes lookups fail instead of bypassing it. */
  method Finalize(c: Conf, mtu: int) returns (r: Result<Tunnel, LoadError>)
    ensures r.Ok? <==> Usable(c, mtu)
    ensures r.Ok? ==>
              && r.value.mtu == mtu && |r.value.addresses| == |c.addresses|
              && (forall i :: 0 <= i < |c.addresses| ==> r.value.addresses[i] == c.addresses[i].ip)
              && r.value.localDns == Resolvers(c.dns, true)
              && r.value.dns == if r.value.localDns != [] then [] else Resolvers(c.dns, false)
  {
    if |c.addresses| == 0 {
      return Err(NoAddress);
    }
    var addresses: seq<nat> := [];
    for i := 0 to |c.addresses|
      invariant |addresses| == i
      invariant forall j :: 0 <= j < i ==> c.addresses[j].GoodAddress? && addresses[j] == c.addresses[j].ip
    {
      if !c.addresses[i].GoodAddress? {
        return Err(InvalidAddress(i));
      }
      addresses := addresses + [c.addresses[i].ip];
    }
    var dns: seq<nat>, localDns: seq<nat> := [], [];
    for i := 0 to |c.dns|
      invariant forall j :: 0 <= j < i ==> c.dns[j].GoodDns?
      invariant localDns == Resolvers(c.dns[..i], true) && dns == Resolvers(c.dns[..i], false)
    {
      if !c.dns[i].GoodDns? {
        return Err(InvalidDns(i));
      }
      assert c.dns[..i + 1][..i] == c.dns[..i];
      if c.dns[i].loopback {
        localDns := localDns + [c.dns[i].ip];
      } else {
        dns := dns + [c.dns[i].ip];
      }
    }
    assert c.dns[..|c.dns|] == c.dns;
    if |localDns| > 0 {
      dns := [];
    }
    if |c.peers| == 0 {
      return Err(NoPeer);
    }
    for i := 0 to |c.peers|
      invariant forall j :: 0 <= j < i ==> PeerUsable(c.peers[j])
    {
      if !PeerUsable(c.peers[i]) {
        return Err(InvalidPeer(i));
      }
    }
    if mtu < MIN_MTU || mtu > MAX_MTU {
      return Err(InvalidMtu);
    }
    return Ok(Tunnel(mtu, addresses, dns, localDns));
  }

  /** The MTU of a tunnel: the explicit one, or the one derived from what every packet is to carry. */
  function TunnelMtu(s: Scan, confMtu: nat): int {
    var (s4, padding) := Overhead(s.iface, |s.iface|);
    if "mtu" !in s.interfaceKeys then SafeMTU(s4, padding) else if confMtu == 0 then DEFAULT_MTU else confMtu
  }

  /** `ParseTunnel`: scan, validate, let upstream parse, derive the MTU, and finalize. `conf` is what the
      upstream parser makes of the text, None if it fails. */
  method ParseTunnel(text: string, f: Foreign, conf: Option<Conf>) returns (r: Result<Tunnel, LoadError>)
    ensures r.Ok? <==>
              && ScanText(text).Ok? && Acceptable(ScanText(text).value, SupportedParams(), f)
              && conf.Some? && Usable(conf.value, TunnelMtu(ScanText(text).value, conf.value.mtu))
    ensures r.Ok? ==>
              var s := ScanText(text).value;
              var (s4, padding) := Overhead(s.iface, |s.iface|);
              && NumberOrZero(s.iface, "s4", s4) && UpperBoundOrZero(s.iface, "contentpaddingaddition", padding)
              && MIN_MTU <= r.value.mtu <= MAX_MTU
              && ("mtu" in s.interfaceKeys ==> r.value.mtu == if conf.value.mtu == 0 then 1420 else conf.value.mtu)
              && ("mtu" !in s.interfaceKeys ==>
                    (PacketSize(r.value.mtu, s4, padding) <= PATH_MTU <==> s4 + padding <= 140))
  {
    var scan := ScanConfig(text);
    if scan.Err? {
      return Err(ScanFailed(scan.error));
    }
    var s := scan.value;
    LinesCountFromOne(text);
    var err := ValidateScan(s, SupportedParams(), f);
    if err.Some? {
      return Err(Invalid(err.value));
    }
    if conf.None? {
      return Err(UpstreamFailed);
    }
    S4IsChecked(s.iface, f);
    OverheadIsWhatIsSet(s.iface);
    var mtu: int := if conf.value.mtu == 0 then DEFAULT_MTU else conf.value.mtu;
    var s4, padding := PerPacketOverhead(s.iface);
    var safe := SafeMTU(s4, padding);
    if "mtu" !in s.interfaceKeys && safe != mtu {
      mtu := safe;
    }
    r := Finalize(conf.value, mtu);
  }

  lemma LinesCountFromOne(text: string)
    requires ScanText(text).Ok?
    ensures forall i :: 0 <= i < |ScanText(text).value.iface| ==> ScanText(text).value.iface[i].line > 0
  {
    var ls := LinesOf(text);
    AfterMeans(ls, |ls|);
    InterfaceAscends(ls, |ls|);
  }
}
