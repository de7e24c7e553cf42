/** The UDP relay of internal/socks5/udp.go: who owns the in-tunnel sockets while opens race with
    each other and with `Close`, and whose datagrams are accepted. */
module UdpRelay {
  import opened Basics
  import opened Socks5Wire

  type Tid = nat
  type Sock = nat

  // --- Sockets --------------------------------------------------------------------------

  /** A goroutine inside `tunnelConn` for one address family. */
  datatype Pc =
    | Checking(v6: bool)
    | Opening(v6: bool)
    | Recording(v6: bool, sock: Sock)     // ListenUDP returned sock
    | Discarding(v6: bool, sock: Sock, instead: Option<Sock>)   // the slot was taken, or the relay is closed
    | Done(v6: bool, conn: Option<Sock>)

  /** `owner` is a history: who answers for the socket. */
  datatype Owner = Hand(t: Tid) | Table | Nobody
  datatype Socket = Socket(v6: bool, isOpen: bool, owner: Owner)

  /** `table` is the `tunnel` map, None once `Close` has run; `sockets` are all those that
      ListenUDP ever returned, and `given`, a history, those that were ever stored. */
  datatype Shared = Shared(table: Option<map<bool, Sock>>, sockets: map<Sock, Socket>, given: map<bool, Sock>)

  datatype State = State(sh: Shared, threads: map<Tid, Pc>)

  datatype Choice = Ahead | Opened(sock: Sock) | OpenFailed

  datatype Label = Spawn(t: Tid, v6: bool) | Go(t: Tid, c: Choice) | CloseTable

  function Init(): State {
    State(Shared(Some(map[]), map[], map[]), map[])
  }

  function CloseSocket(sockets: map<Sock, Socket>, s: Sock): map<Sock, Socket> {
    if s in sockets then sockets[s := sockets[s].(isOpen := false, owner := Nobody)] else sockets
  }

  predicate InTable(table: map<bool, Sock>, s: Sock) {
    exists v6 <- [false, true] :: v6 in table && table[v6] == s
  }

  /** `Close`: every socket in the table, under `mu`. */
  function CloseAll(sh: Shared): Shared {
    match sh.table
    case None => sh
    case Some(table) =>
      sh.(table := None,
          sockets := map s | s in sh.sockets ::
                       if InTable(table, s) then sh.sockets[s].(isOpen := false, owner := Nobody) else sh.sockets[s])
  }

  predicate CanGo(sh: Shared, pc: Pc, c: Choice) {
    match pc
    case Checking(_) => c.Ahead?
    case Opening(_) => (c.Opened? && c.sock !in sh.sockets) || c.OpenFailed?
    case Recording(_, sock) => c.Ahead? && sock in sh.sockets
    case Discarding(_, _, _) => c.Ahead?
    case Done(_, _) => false
  }

  function React(sh: Shared, t: Tid, pc: Pc, c: Choice): (Shared, Pc)
    requires CanGo(sh, pc, c)
  {
    match pc
    case Checking(v6) =>
      if sh.table.None? then (sh, Done(v6, None))
      else if v6 in sh.table.value then (sh, Done(v6, Some(sh.table.value[v6])))
      else (sh, Opening(v6))
    case Opening(v6) =>
      if c.OpenFailed? then (sh, Done(v6, None))
      else (sh.(sockets := sh.sockets[c.sock := Socket(v6, true, Hand(t))]), Recording(v6, c.sock))
    case Recording(v6, sock) =>
      if sh.table.None? then (sh, Discarding(v6, sock, None))
      else if v6 in sh.table.value then (sh, Discarding(v6, sock, Some(sh.table.value[v6])))
      else
        (Shared(Some(sh.table.value[v6 := sock]), sh.sockets[sock := sh.sockets[sock].(owner := Table)], sh.given[v6 := sock]),
         Done(v6, Some(sock)))
    case Discarding(v6, sock, instead) => (sh.(sockets := CloseSocket(sh.sockets, sock)), Done(v6, instead))
  }

  predicate Enabled(s: State, l: Label) {
    match l
    case Spawn(t, v6) => t !in s.threads
    case Go(t, c) => t in s.threads && CanGo(s.sh, s.threads[t], c)
    case CloseTable => true
  }

  function Apply(s: State, l: Label): State
    requires Enabled(s, l)
  {
    match l
    case Spawn(t, v6) => s.(threads := s.threads[t := Checking(v6)])
    case Go(t, c) =>
      var (sh, pc) := React(s.sh, t, s.threads[t], c);
      State(sh, s.threads[t := pc])
    case CloseTable => s.(sh := CloseAll(s.sh))
  }

  predicate Executable(s: State, ls: seq<Label>)
    decreases |ls|
  {
    ls == [] || (Enabled(s, ls[0]) && Executable(Apply(s, ls[0]), ls[1..]))
  }

  function Exec(s: State, ls: seq<Label>): State
    requires Executable(s, ls)
    decreases |ls|
  {
    if ls == [] then s else Exec(Apply(s, ls[0]), ls[1..])
  }

  /** The table holds open sockets, each under its own family, and nothing else counts as stored. */
  ghost predicate TableOk(sh: Shared) {
    && (sh.table.Some? ==> sh.table.value == sh.given)
    && (sh.table.Some? ==> forall f :: f in sh.table.value ==>
          sh.table.value[f] in sh.sockets && sh.sockets[sh.table.value[f]] == Socket(f, true, Table))
    && (forall s :: s in sh.sockets ==>
          && (sh.sockets[s].owner.Table? ==>
                sh.table.Some? && sh.sockets[s].v6 in sh.table.value && sh.table.value[sh.sockets[s].v6] == s)
          && (sh.sockets[s].owner.Nobody? <==> !sh.sockets[s].isOpen))
  }

  predicate Holds(pc: Pc, s: Sock) {
    (pc.Recording? || pc.Discarding?) && pc.sock == s
  }

  predicate Stored(sh: Shared, v6: bool, k: Sock) {
    v6 in sh.given && sh.given[v6] == k
  }

  predicate ThreadOk(sh: Shared, t: Tid, pc: Pc) {
    && (pc.Recording? || pc.Discarding? ==> pc.sock in sh.sockets && sh.sockets[pc.sock].owner == Hand(t))
    && (pc.Recording? ==> sh.sockets[pc.sock].v6 == pc.v6)
    && (pc.Discarding? && pc.instead.Some? ==> Stored(sh, pc.v6, pc.instead.value))
    && (pc.Done? && pc.conn.Some? ==> Stored(sh, pc.v6, pc.conn.value))
  }

  ghost predicate Inv(s: State) {
    && TableOk(s.sh)
    && (forall t :: t in s.threads ==> ThreadOk(s.sh, t, s.threads[t]))
    && (forall k :: k in s.sh.sockets && s.sh.sockets[k].owner.Hand? ==>
          s.sh.sockets[k].owner.t in s.threads && Holds(s.threads[s.sh.sockets[k].owner.t], k))
  }

  lemma TableStep(sh: Shared, t: Tid, pc: Pc, c: Choice)
    requires CanGo(sh, pc, c) && TableOk(sh) && ThreadOk(sh, t, pc)
    ensures TableOk(React(sh, t, pc, c).0)
  {
  }

  lemma SelfStep(sh: Shared, t: Tid, pc: Pc, c: Choice)
    requires CanGo(sh, pc, c) && TableOk(sh) && ThreadOk(sh, t, pc)
    ensures var (sh', pc') := React(sh, t, pc, c);
      && ThreadOk(sh', t, pc')
      && forall k :: k in sh'.sockets && sh'.sockets[k].owner == Hand(t) ==>
           Holds(pc', k) || (k in sh.sockets && sh.sockets[k].owner == Hand(t) && !Holds(pc, k))
  {
  }

  lemma OthersStep(sh: Shared, t: Tid, pc: Pc, c: Choice, u: Tid, other: Pc)
    requires CanGo(sh, pc, c) && TableOk(sh) && ThreadOk(sh, t, pc) && ThreadOk(sh, u, other) && t != u
    ensures var sh' := React(sh, t, pc, c).0;
      && ThreadOk(sh', u, other)
      && forall k :: k in sh'.sockets && sh'.sockets[k].owner == Hand(u) ==> k in sh.sockets && sh.sockets[k] == sh'.sockets[k]
  {
  }

  lemma CloseStep(sh: Shared, t: Tid, pc: Pc)
    requires TableOk(sh) && ThreadOk(sh, t, pc)
    ensures TableOk(CloseAll(sh)) && ThreadOk(CloseAll(sh), t, pc)
  {
  }

  lemma InvStep(s: State, l: Label)
    requires Inv(s) && Enabled(s, l)
    ensures Inv(Apply(s, l))
  {
    var s' := Apply(s, l);
    if l.Go? {
      var pc := s.threads[l.t];
      TableStep(s.sh, l.t, pc, l.c);
      SelfStep(s.sh, l.t, pc, l.c);
      forall u | u in s'.threads && u != l.t
        ensures ThreadOk(s'.sh, u, s'.threads[u])
      {
        OthersStep(s.sh, l.t, pc, l.c, u, s.threads[u]);
      }
      forall k | k in s'.sh.sockets && s'.sh.sockets[k].owner.Hand?
        ensures s'.sh.sockets[k].owner.t in s'.threads && Holds(s'.threads[s'.sh.sockets[k].owner.t], k)
      {
        var u := s'.sh.sockets[k].owner.t;
        if u != l.t { HandUnchanged(s, l, k); }
      }
    } else if l.CloseTable? {
      CloseStep(s.sh, 0, Checking(false));
      forall u | u in s.threads
        ensures ThreadOk(s'.sh, u, s.threads[u])
      {
        CloseStep(s.sh, u, s.threads[u]);
      }
    }
  }

  lemma HandUnchanged(s: State, l: Label, k: Sock)
    requires Enabled(s, l) && l.Go? && k in Apply(s, l).sh.sockets && Apply(s, l).sh.sockets[k].owner.Hand?
    requires Apply(s, l).sh.sockets[k].owner.t != l.t
    ensures k in s.sh.sockets && s.sh.sockets[k] == Apply(s, l).sh.sockets[k]
  {
  }

  lemma {:induction false} InvRun(s: State, ls: seq<Label>)
    requires Inv(s) && Executable(s, ls)
    ensures Inv(Exec(s, ls))
    decreases |ls|
  {
    if ls != [] {
      InvStep(s, ls[0]);
      InvRun(Apply(s, ls[0]), ls[1..]);
    }
  }

  /** No socket is forgotten: each one that ListenUDP ever returned is the single stored one of its
      family, or in the hand of an open that is still going on, or closed. */
  lemma EverySocketOwned(ls: seq<Label>, k: Sock)
    requires Executable(Init(), ls) && k in Exec(Init(), ls).sh.sockets
    ensures var s := Exec(Init(), ls);
      var sock := s.sh.sockets[k];
      || !sock.isOpen
      || (s.sh.table.Some? && sock.v6 in s.sh.table.value && s.sh.table.value[sock.v6] == k)
      || (sock.owner.Hand? && sock.owner.t in s.threads && Holds(s.threads[sock.owner.t], k))
  {
    InvRun(Init(), ls);
  }

  /** However many opens raced, and whenever the relay was closed, every `tunnelConn` of a family that
      returned a socket returned the same one, and it stays open until `Close`. */
  lemma OneSocketPerFamily(ls: seq<Label>, t: Tid, u: Tid)
    requires Executable(Init(), ls)
    requires var s := Exec(Init(), ls);
      t in s.threads && u in s.threads && s.threads[t].Done? && s.threads[u].Done?
      && s.threads[t].v6 == s.threads[u].v6 && s.threads[t].conn.Some? && s.threads[u].conn.Some?
    ensures var s := Exec(Init(), ls);
      && s.threads[t].conn == s.threads[u].conn
      && (s.sh.table.Some? ==>
            var k := s.threads[t].conn.value;
            k in s.sh.sockets && s.sh.sockets[k].isOpen && s.sh.sockets[k].v6 == s.threads[t].v6)
  {
    InvRun(Init(), ls);
    var s := Exec(Init(), ls);
    assert ThreadOk(s.sh, t, s.threads[t]) && ThreadOk(s.sh, u, s.threads[u]);
  }

  /** Once `Close` has run and no open is pending, no socket stays open. */
  lemma ClosedRelayKeepsNothing(ls: seq<Label>, k: Sock)
    requires Executable(Init(), ls) && Exec(Init(), ls).sh.table.None?
    requires forall t :: t in Exec(Init(), ls).threads ==> Exec(Init(), ls).threads[t].Done?
    requires k in Exec(Init(), ls).sh.sockets
    ensures !Exec(Init(), ls).sh.sockets[k].isOpen
  {
    InvRun(Init(), ls);
  }

  // --- The relay object -----------------------------------------------------------------

  lemma {:induction false} ExecGrow(s: State, ls: seq<Label>, l: Label)
    requires Executable(s, ls) && Enabled(Exec(s, ls), l)
    ensures Executable(s, ls + [l]) && Exec(s, ls + [l]) == Apply(Exec(s, ls), l)
    decreases |ls|
  {
    if ls == [] {
      assert ls + [l] == [l] && [l][1..] == [];
    } else {
      ExecGrow(Apply(s, ls[0]), ls[1..], l);
      assert (ls + [l])[1..] == ls[1..] + [l];
    }
  }

  /** What a finished `tunnelConn` leaves behind. */
  lemma DoneHolds(run: seq<Label>, t: Tid)
    requires Executable(Init(), run) && t in Exec(Init(), run).threads && Exec(Init(), run).threads[t].Done?
    ensures var s := Exec(Init(), run);
      && (s.threads[t].conn.Some? ==> Stored(s.sh, s.threads[t].v6, s.threads[t].conn.value))
      && forall k :: k in s.sh.sockets ==> s.sh.sockets[k].owner != Hand(t)
  {
    InvRun(Init(), run);
    var s := Exec(Init(), run);
    assert ThreadOk(s.sh, t, s.threads[t]);
    assert forall k :: !Holds(s.threads[t], k);
  }

  /** A step of another goroutine than `t`. */
  predicate Theirs(t: Tid, l: Label) {
    l.CloseTable? || l.t != t
  }

  /** From `was` to `now` goroutine `t` opens no socket. */
  predicate OpensNothing(t: Tid, was: seq<Label>, now: seq<Label>) {
    was <= now && forall i :: |was| <= i < |now| && now[i].Go? && now[i].t == t ==> !now[i].c.Opened?
  }

  lemma ClosedForGood(s: State, l: Label)
    requires Enabled(s, l)
    ensures s.sh.table.None? ==> Apply(s, l).sh.table.None?
  {
  }

  /** The `tunnel` map and the sockets of `udpRelay`, with the goroutines inside `tunnelConn`. The
      ghost run ties the fields to the machine; between its own steps a call lets the others move. */
  class Relay {
    var table: Option<map<bool, Sock>>
    var sockets: map<Sock, Socket>
    var given: map<bool, Sock>       // history
    var threads: map<Tid, Pc>
    ghost var run: seq<Label>

    function View(): State
      reads this
    {
      State(Shared(table, sockets, given), threads)
    }

    ghost predicate Valid()
      reads this
    {
      Executable(Init(), run) && Exec(Init(), run) == View()
    }

    constructor ()
      ensures Valid() && table == Some(map[]) && sockets == map[] && threads == map[]
    {
      table, sockets, given, threads, run := Some(map[]), map[], map[], map[], [];
    }

    ghost method Book(before: State, l: Label)
      requires Executable(Init(), run) && Exec(Init(), run) == before && Enabled(before, l) && Apply(before, l) == View()
      modifies `run
      ensures Valid() && run == old(run) + [l]
    {
      ExecGrow(Init(), run, l);
      run := run + [l];
    }

    /** The others take whichever of the scheduled steps they can. */
    method Elsewhere(t: Tid, schedule: seq<Label>)
      requires Valid() && t in threads
      modifies this
      ensures Valid() && OpensNothing(t, old(run), run) && t in threads && threads[t] == old(threads)[t]
      ensures old(table).None? ==> table.None?
    {
      for i := 0 to |schedule|
        invariant Valid() && OpensNothing(t, old(run), run) && t in threads && threads[t] == old(threads)[t]
        invariant old(table).None? ==> table.None?
      {
        var l := schedule[i];
        if Theirs(t, l) && Enabled(View(), l) {
          ghost var before := View();
          var after := Apply(View(), l);
          ClosedForGood(before, l);
          table, sockets, given, threads := after.sh.table, after.sh.sockets, after.sh.given, after.threads;
          Book(before, l);
        }
      }
    }

    /** `tunnelConn`: the socket it returns, if any, is the one stored for its family as long as the
        relay is not closed, and one it opened in vain is closed again. It comes back without one only
        if the relay is closed or a socket cannot be opened, and it opens one only if it `opens`. */
    method TunnelConn(t: Tid, v6: bool, opens: bool, others: nat -> seq<Label>) returns (conn: Option<Sock>)
      requires Valid() && t !in threads
      modifies this
      ensures Valid() && old(run) <= run && t in threads && threads[t] == Done(v6, conn)
      ensures conn.Some? ==> Stored(View().sh, v6, conn.value)
      ensures conn.Some? && table.Some? ==> v6 in table.value && table.value[v6] == conn.value && conn.value in sockets && sockets[conn.value].isOpen
      ensures forall k :: k in sockets ==> sockets[k].owner != Hand(t)
      ensures conn.None? ==> table.None? || !opens
      ensures !opens ==> OpensNothing(t, old(run), run)
    {
      Begin(t, v6);
      Elsewhere(t, others(0));
      var found := LookUp(t, v6);
      if !found {
        OpenNew(t, v6, opens, others);
      }
      conn := threads[t].conn;
      DoneHolds(run, t);
      InvRun(Init(), run);
    }

    method Begin(t: Tid, v6: bool)
      requires Valid() && t !in threads
      modifies `threads, `run
      ensures Valid() && OpensNothing(t, old(run), run) && t in threads && threads[t] == Checking(v6)
    {
      ghost var before := View();
      threads := threads[t := Checking(v6)];
      Book(before, Spawn(t, v6));
    }

    method OpenNew(t: Tid, v6: bool, opens: bool, others: nat -> seq<Label>)
      requires Valid() && t in threads && threads[t] == Opening(v6)
      modifies this
      ensures Valid() && old(run) <= run && t in threads && threads[t].Done? && threads[t].v6 == v6
      ensures !opens ==> threads[t].conn.None?
      ensures opens && threads[t].conn.None? ==> table.None?
      ensures !opens ==> OpensNothing(t, old(run), run)
    {
      Elsewhere(t, others(1));
      Listen(t, v6, opens);
      Elsewhere(t, others(2));
      if opens {
        Record(t, v6);
        Elsewhere(t, others(3));
        CloseSpare(t);
      }
    }

    /** The first critical section: the relay is closed, or the family has its socket already. */
    method LookUp(t: Tid, v6: bool) returns (found: bool)
      requires Valid() && t in threads && threads[t] == Checking(v6)
      modifies `threads, `run
      ensures Valid() && OpensNothing(t, old(run), run) && t in threads
      ensures found <==> table.None? || v6 in table.value
      ensures threads[t] == if !found then Opening(v6) else Done(v6, if table.None? then None else Some(table.value[v6]))
    {
      ghost var before := View();
      if table.None? {
        threads, found := threads[t := Done(v6, None)], true;
      } else if v6 in table.value {
        threads, found := threads[t := Done(v6, Some(table.value[v6]))], true;
      } else {
        threads, found := threads[t := Opening(v6)], false;
      }
      Book(before, Go(t, Ahead));
    }

    /** `ListenUDP`, whose sockets are always new. */
    method Listen(t: Tid, v6: bool, opens: bool)
      requires Valid() && t in threads && threads[t] == Opening(v6)
      modifies `sockets, `threads, `run
      ensures Valid() && old(run) <= run && t in threads
      ensures if opens then threads[t].Recording? && threads[t].v6 == v6 && threads[t].sock !in old(sockets)
              else threads[t] == Done(v6, None) && sockets == old(sockets) && OpensNothing(t, old(run), run)
    {
      ghost var before := View();
      if opens {
        var k := FreshKey(sockets.Keys);
        sockets := sockets[k := Socket(v6, true, Hand(t))];
        threads := threads[t := Recording(v6, k)];
        Book(before, Go(t, Opened(k)));
      } else {
        threads := threads[t := Done(v6, None)];
        Book(before, Go(t, OpenFailed));
      }
    }

    /** The second critical section. */
    method Record(t: Tid, v6: bool)
      requires Valid() && t in threads && threads[t].Recording? && threads[t].v6 == v6
      modifies this
      ensures Valid() && old(run) <= run && t in threads
      ensures if old(table).None? then threads[t] == Discarding(v6, old(threads)[t].sock, None)
              else if v6 in old(table).value then threads[t] == Discarding(v6, old(threads)[t].sock, Some(old(table).value[v6]))
              else threads[t] == Done(v6, Some(old(threads)[t].sock)) && table == Some(old(table).value[v6 := old(threads)[t].sock])
      ensures old(table).None? <==> table.None?
    {
      ghost var before := View();
      InvRun(Init(), run);
      var k := threads[t].sock;
      if table.None? {
        threads := threads[t := Discarding(v6, k, None)];
      } else if v6 in table.value {
        threads := threads[t := Discarding(v6, k, Some(table.value[v6]))];
      } else {
        table := Some(table.value[v6 := k]);
        given := given[v6 := k];
        sockets := sockets[k := sockets[k].(owner := Table)];
        threads := threads[t := Done(v6, Some(k))];
      }
      Book(before, Go(t, Ahead));
    }

    method CloseSpare(t: Tid)
      requires Valid() && t in threads && (threads[t].Done? || threads[t].Discarding?)
      modifies `sockets, `threads, `run
      ensures Valid() && old(run) <= run && t in threads
      ensures threads[t] == if old(threads)[t].Done? then old(threads)[t] else Done(old(threads)[t].v6, old(threads)[t].instead)
    {
      if threads[t].Discarding? {
        ghost var before := View();
        sockets := CloseSocket(sockets, threads[t].sock);
        threads := threads[t := Done(threads[t].v6, threads[t].instead)];
        Book(before, Go(t, Ahead));
      }
    }

    /** The critical section of `Close`. */
    method Close()
      requires Valid()
      modifies `table, `sockets, `run
      ensures Valid() && table.None?
      ensures forall k :: k in sockets && !sockets[k].owner.Hand? ==> !sockets[k].isOpen
    {
      ghost var before := View();
      var after := CloseAll(Shared(table, sockets, given));
      table, sockets := after.table, after.sockets;
      Book(before, CloseTable);
      InvRun(Init(), run);
    }
  }

  // --- The client -----------------------------------------------------------------------

  predicate IsLoopback(a: Addr) {
    match a
    case NoAddr => false
    case V4(ip) => |ip| == 4 && ip[0] == 127
    case V6(ip, _) => ip == seq(15, _ => 0) + [1]
  }

  /** Nobody has claimed the association yet. */
  predicate Unclaimed(peer: AddrPort) {
    peer.addr.NoAddr? || IsUnspecified(peer.addr) || peer.port == 0
  }

  predicate Accepts(peer: AddrPort, from: AddrPort) {
    IsLoopback(Unmap(from.addr)) && (Unclaimed(peer) || peer == from)
  }

  function Latch(peer: AddrPort, from: AddrPort): AddrPort {
    if IsLoopback(Unmap(from.addr)) && Unclaimed(peer) then from else peer
  }

  class Association {
    var peer: AddrPort

    constructor (declared: AddrPort)
      ensures peer == declared
    {
      peer := declared;
    }

    /** `acceptFrom`. */
    method AcceptFrom(from: AddrPort) returns (ok: bool)
      modifies this
      ensures ok == Accepts(old(peer), from) && peer == Latch(old(peer), from)
    {
      if !IsLoopback(Unmap(from.addr)) {
        return false;
      }
      if peer.addr.NoAddr? || IsUnspecified(peer.addr) || peer.port == 0 {
        peer := from;
        return true;
      }
      return peer == from;
    }

    /** One reply in `pumpFromTunnel`: what is sent back, and to whom. It is sent exactly if somebody
        has claimed the association from a loopback address; the guard around the client's socket
        refuses every other target, so that no reply leaves the machine. The datagram names its source
        and carries exactly the data, and a client can parse it unless the source port is zero. */
    method Deliver(src: AddrPort, data: Bytes) returns (sent: Option<(Bytes, AddrPort)>)
      requires ValidAddr(src.addr) && !src.addr.NoAddr? && src.port < 65536
      ensures sent.Some? <==> !peer.addr.NoAddr? && peer.port != 0 && IsLoopback(Unmap(peer.addr))
      ensures sent.Some? ==>
                && sent.value.1 == peer && IsLoopback(Unmap(sent.value.1.addr))
                && forall parse :: ParseUDPHeader(sent.value.0, parse)
                     == if src.port > 0 then Ok((Destination([], Plain(Unmap(src.addr)), src.port), data)) else Err(PortZero)
    {
      if peer.addr.NoAddr? || peer.port == 0 {
        return None;
      }
      var out := BuildUDPHeader([], src) + data;
      forall parse
        ensures ParseUDPHeader(out, parse)
                == if src.port > 0 then Ok((Destination([], Plain(Unmap(src.addr)), src.port), data)) else Err(PortZero)
      {
        ReplyRoundTrip(src, data, parse);
      }
      sent := WriteToClient(out, peer);
    }
  }

  /** `loopbackPacketConn.WriteToUDPAddrPort`. */
  method WriteToClient(b: Bytes, addr: AddrPort) returns (sent: Option<(Bytes, AddrPort)>)
    ensures sent == if IsLoopback(Unmap(addr.addr)) then Some((b, addr)) else None
  {
    if !IsLoopback(Unmap(addr.addr)) {
      return None;
    }
    return Some((b, addr));
  }

  /** The verdicts on a sequence of datagrams. */
  function Verdicts(peer: AddrPort, froms: seq<AddrPort>): seq<bool>
    decreases |froms|
  {
    if froms == [] then []
    else [Accepts(peer, froms[0])] + Verdicts(Latch(peer, froms[0]), froms[1..])
  }

  lemma {:induction false} ClaimedForGood(peer: AddrPort, froms: seq<AddrPort>)
    requires !Unclaimed(peer)
    ensures |Verdicts(peer, froms)| == |froms|
    ensures forall i :: 0 <= i < |froms| ==>
        (Verdicts(peer, froms)[i] <==> froms[i] == peer && IsLoopback(Unmap(peer.addr)))
    decreases |froms|
  {
    if froms != [] {
      ClaimedForGood(peer, froms[1..]);
    }
  }

  lemma LoopbackIsSpecified(a: Addr)
    requires IsLoopback(Unmap(a))
    ensures !a.NoAddr? && !IsUnspecified(a)
  {
    if a.V6? {
      var zeros: Bytes := seq(16, _ => 0);
      assert zeros[12] == 0 && zeros[15] == 0;
      if Is4In6(a) {
        assert a.ip[12] == a.ip[12..][0] == 127;
      } else {
        assert a.ip[15] == 1;
      }
    }
  }

  /** One client per association: a declared address is the only one accepted, and otherwise the
      first datagram with a port claims the association, after which exactly the datagrams from
      that very address and port are accepted. */
  lemma {:induction false} OneClient(peer: AddrPort, froms: seq<AddrPort>, i: nat, j: nat)
    requires i < j < |froms|
    ensures |Verdicts(peer, froms)| == |froms|
    ensures !Unclaimed(peer) && Verdicts(peer, froms)[i] ==> froms[i] == peer
    ensures Verdicts(peer, froms)[i] && froms[i].port != 0 ==> (Verdicts(peer, froms)[j] <==> froms[j] == froms[i])
    decreases |froms|
  {
    var next := Latch(peer, froms[0]);
    if !Unclaimed(peer) {
      ClaimedForGood(peer, froms);
    } else {
      VerdictsLength(next, froms[1..]);
      if i > 0 {
        OneClient(next, froms[1..], i - 1, j - 1);
      } else if Verdicts(peer, froms)[0] && froms[0].port != 0 {
        LoopbackIsSpecified(froms[0].addr);
        ClaimedForGood(next, froms[1..]);
        assert froms[1..][j - 1] == froms[j];
      }
    }
  }

  lemma {:induction false} VerdictsLength(peer: AddrPort, froms: seq<AddrPort>)
    ensures |Verdicts(peer, froms)| == |froms|
    decreases |froms|
  {
    if froms != [] {
      VerdictsLength(Latch(peer, froms[0]), froms[1..]);
    }
  }

  /** The latch after a sequence of datagrams. */
  function Latched(peer: AddrPort, froms: seq<AddrPort>): AddrPort
    decreases |froms|
  {
    if froms == [] then peer else Latched(Latch(peer, froms[0]), froms[1..])
  }

  /** Replies go to the client whose datagrams are accepted, and to nobody else. */
  lemma {:induction false} RepliesGoToTheClient(peer: AddrPort, froms: seq<AddrPort>, i: nat)
    requires i < |froms| && |Verdicts(peer, froms)| == |froms| && Verdicts(peer, froms)[i] && froms[i].port != 0
    ensures Latched(peer, froms) == froms[i]
    decreases |froms|
  {
    var next := Latch(peer, froms[0]);
    LoopbackOnly(peer, froms, i);
    LoopbackIsSpecified(froms[i].addr);
    if i == 0 {
      LatchedStays(next, froms[1..]);
    } else {
      RepliesGoToTheClient(next, froms[1..], i - 1);
    }
  }

  lemma {:induction false} LoopbackOnly(peer: AddrPort, froms: seq<AddrPort>, i: nat)
    requires i < |froms| && |Verdicts(peer, froms)| == |froms| && Verdicts(peer, froms)[i]
    ensures IsLoopback(Unmap(froms[i].addr))
    decreases |froms|
  {
    if i > 0 {
      LoopbackOnly(Latch(peer, froms[0]), froms[1..], i - 1);
    }
  }

  lemma {:induction false} LatchedStays(peer: AddrPort, froms: seq<AddrPort>)
    requires !Unclaimed(peer)
    ensures Latched(peer, froms) == peer
    decreases |froms|
  {
    if froms != [] {
      LatchedStays(peer, froms[1..]);
    }
  }
}
