/** The readiness channel of internal/awg/tunnel.go: `Start`, `Stop`, the supervisor, a reload
    over UAPI, and any number of `WaitReady` callers, one step per critical section of `mu` and
    per channel operation. Callers of `Start` and `Stop` are serialised, as `startMu` does. */
module Readiness {
  import opened Basics

  type Tid = nat
  type Chan = nat

  const STALE_AFTER: int := 180

  datatype Status = Stopped | Connecting | Connected | Reconnecting | Broken

  /** A supervisor tick: the newest handshake, and when it was looked at. */
  datatype Tick = Tick(handshake: int, seenAt: int)

  predicate Fresh(k: Tick) {
    k.seenAt - k.handshake < STALE_AFTER
  }

  /** The one caller that may be inside `Start` or `Stop`. */
  datatype Life = Resting | Building | Recorded | StopWaiting | StopEnding

  datatype Supervisor =
    | NoSupervisor
    | Sleeping                         // select: ctx, kick, ticker
    | Looking                          // about to read the device statistics
    | Judging(handshake: Option<int>)  // about to compare it with the clock
    | Healthy                          // about to set StateConnected
    | Marking                          // about to call markReady
    | Stale                            // about to call markNotReady
    | Kicked                           // about to check running in performReconnect
    | Dropping                         // past that check, about to call markNotReady
    | Announcing(status: Status)       // after markNotReady, about to set the state

  datatype Waiter =
    | Entering
    | Waiting(ch: Chan, started: nat)       // select: ready, ctx
    | Rechecking(ch: Chan, started: nat)
    | Succeeded(byDeadline: bool)
    | TunnelDown
    | NotReady

  /** `closed` lists the closes in order: closing a channel twice would panic. `started` counts
      the incarnations, `first` is the channel the current one began with, and `seen` the last
      healthy tick of the current one. */
  datatype State = State(
    running: bool,
    ready: Chan,
    next: Chan,
    closed: seq<Chan>,
    status: Status,
    now: int,
    started: nat,
    first: Chan,
    seen: Option<Tick>,
    life: Life,
    sup: Supervisor,
    waiters: map<Tid, Waiter>)

  datatype Label =
    | StartBegin | BuildFails | StartRecord | SpawnSupervisor
    | StopBegin | StopReap | StopEnd
    | SupDone | SupKick | SupTick
    | SupLook(handshake: Option<int>) | SupJudge | SupConnected | SupMarkReady
    | SupMarkNotReady(status: Status) | SupReconnect | SupDrop | SupAnnounce
    | ReloadMarkNotReady | ReloadStatus(failed: bool)
    | Clock(step: nat)
    | Call(t: Tid) | Read(t: Tid) | SeeClosed(t: Tid) | SeeDeadline(t: Tid) | Recheck(t: Tid)

  function Init(): State {
    State(false, 0, 1, [], Stopped, 0, 0, 0, None, Resting, NoSupervisor, map[])
  }

  predicate IsClosed(s: State, ch: Chan) {
    ch in s.closed
  }

  /** `markReady`: closes the channel if it is still open. */
  function MarkReady(s: State): State {
    if IsClosed(s, s.ready) then s else s.(closed := s.closed + [s.ready])
  }

  /** `markNotReady`: replaces a closed channel while the tunnel runs. */
  function MarkNotReady(s: State): State {
    if s.running && IsClosed(s, s.ready) then s.(ready := s.next, next := s.next + 1) else s
  }

  predicate Enabled(s: State, l: Label) {
    match l
    case StartBegin => s.life.Resting? && !s.running
    case BuildFails => s.life.Building?
    case StartRecord => s.life.Building?
    case SpawnSupervisor => s.life.Recorded?
    case StopBegin => s.life.Resting? && s.running
    case StopReap => s.life.StopWaiting? && s.sup.NoSupervisor?
    case StopEnd => s.life.StopEnding?
    case SupDone => s.sup.Sleeping? && s.life.StopWaiting?
    case SupKick => s.sup.Sleeping?
    case SupTick => s.sup.Sleeping?
    case SupLook(h) => s.sup.Looking?
    case SupJudge => s.sup.Judging?
    case SupConnected => s.sup.Healthy?
    case SupMarkReady => s.sup.Marking?
    case SupMarkNotReady(status) => s.sup.Stale? && (status.Connecting? || status.Reconnecting?)
    case SupReconnect => s.sup.Kicked?
    case SupDrop => s.sup.Dropping?
    case SupAnnounce => s.sup.Announcing?
    case ReloadMarkNotReady => true
    case ReloadStatus(failed) => true
    case Clock(step) => true
    case Call(t) => t !in s.waiters
    case Read(t) => t in s.waiters && s.waiters[t].Entering?
    case SeeClosed(t) => t in s.waiters && s.waiters[t].Waiting? && IsClosed(s, s.waiters[t].ch)
    case SeeDeadline(t) => t in s.waiters && s.waiters[t].Waiting?
    case Recheck(t) => t in s.waiters && s.waiters[t].Rechecking?
  }

  function Apply(s: State, l: Label): State
    requires Enabled(s, l)
  {
    match l
    case StartBegin => s.(status := Connecting, life := Building)
    case BuildFails => s.(status := Broken, life := Resting)
    case StartRecord =>
      s.(running := true, ready := s.next, next := s.next + 1, first := s.next, started := s.started + 1,
      seen := None, life := Recorded)
    case SpawnSupervisor => s.(sup := Sleeping, life := Resting)
    case StopBegin => MarkReady(s.(running := false, life := StopWaiting))
    case StopReap => s.(life := StopEnding)
    case StopEnd => s.(status := Stopped, life := Resting)
    case SupDone => s.(sup := NoSupervisor)
    case SupKick => s.(sup := Kicked)
    case SupTick => s.(sup := Looking)
    case SupLook(h) => s.(sup := if s.running then Judging(h) else Sleeping)
    case SupJudge =>
      if s.sup.handshake.Some? && Fresh(Tick(s.sup.handshake.value, s.now))
      then s.(sup := Healthy, seen := Some(Tick(s.sup.handshake.value, s.now)))
      else s.(sup := Stale)
    case SupConnected => s.(status := Connected, sup := Marking)
    case SupMarkReady => MarkReady(s).(sup := Sleeping)
    case SupMarkNotReady(status) => MarkNotReady(s).(sup := Announcing(status))
    case SupReconnect => s.(sup := if s.running then Dropping else Sleeping)
    case SupDrop => MarkNotReady(s).(sup := Announcing(Reconnecting))
    case SupAnnounce => s.(status := s.sup.status, sup := Sleeping)
    case ReloadMarkNotReady => MarkNotReady(s)
    case ReloadStatus(failed) => s.(status := if failed then Broken else Connecting)
    case Clock(step) => s.(now := s.now + step)
    case Call(t) => s.(waiters := s.waiters[t := Entering])
    case Read(t) => s.(waiters := s.waiters[t := if s.running then Waiting(s.ready, s.started) else TunnelDown])
    case SeeClosed(t) => s.(waiters := s.waiters[t := Rechecking(s.waiters[t].ch, s.waiters[t].started)])
    case SeeDeadline(t) =>
      s.(waiters := s.waiters[t := if s.status.Connected? then Succeeded(true) else NotReady])
    case Recheck(t) =>
      s.(waiters := s.waiters[t := if !s.running then TunnelDown
                                   else if s.ready == s.waiters[t].ch then Succeeded(false) else Entering])
  }

  predicate Executable(s: State, ls: seq<Label>)
    decreases |ls|
  {
    ls == [] || (Enabled(s, ls[0]) && Executable(Apply(s, ls[0]), ls[1..]))
  }

  function Exec(s: State, ls: seq<Label>): State
    requires Executable(s, ls)
    decreases |ls|
  {
    if ls == [] then s else Exec(Apply(s, ls[0]), ls[1..])
  }

  // --- Invariants -----------------------------------------------------------------------

  /** Nothing is closed twice, and only channels already made are. */
  ghost predicate Channels(s: State) {
    && s.first <= s.ready < s.next
    && (forall i :: 0 <= i < |s.closed| ==> s.closed[i] < s.next)
    && (forall i, j :: 0 <= i < j < |s.closed| ==> s.closed[i] != s.closed[j])
  }

  /** What rests on a healthy tick of the current incarnation. */
  ghost predicate Evidence(s: State) {
    && (s.seen.Some? ==> Fresh(s.seen.value))
    && (s.sup.Healthy? || s.sup.Marking? ==> s.seen.Some?)
    && (s.status.Connected? ==> s.seen.Some?)
    && (s.sup.Announcing? ==> !s.sup.status.Connected?)
    && (s.running && IsClosed(s, s.ready) ==> s.seen.Some?)
    && (s.life.Building? ==> !s.status.Connected?)
    && (s.life.Building? || s.life.Recorded? || s.life.StopEnding? ==> s.sup.NoSupervisor?)
    && (s.life.Resting? && !s.running ==> s.sup.NoSupervisor? && !s.status.Connected?)
    && (s.life.Building? || s.life.StopWaiting? || s.life.StopEnding? ==> !s.running)
    && (s.life.Recorded? ==> s.running)
  }

  ghost predicate WaiterOk(s: State, w: Waiter) {
    w.Waiting? || w.Rechecking? ==>
      && w.ch < s.next && w.started <= s.started
      && (w.started < s.started ==> w.ch < s.first)
      && (w.Rechecking? ==> IsClosed(s, w.ch))
  }

  ghost predicate Inv(s: State) {
    Channels(s) && Evidence(s) && forall t :: t in s.waiters ==> WaiterOk(s, s.waiters[t])
  }

  lemma EvidenceStep(s: State, l: Label)
    requires Inv(s) && Enabled(s, l)
    ensures Evidence(Apply(s, l))
  {
  }

  lemma MarkedOnce(s: State)
    requires Channels(s)
    ensures Channels(MarkReady(s))
  {
  }

  lemma ChannelsStep(s: State, l: Label)
    requires Channels(s) && Enabled(s, l)
    ensures Channels(Apply(s, l))
  {
    if l.StopBegin? || l.SupMarkReady? {
      MarkedOnce(s);
    }
  }

  lemma WaitersStep(s: State, l: Label, t: Tid)
    requires Inv(s) && Enabled(s, l) && t in Apply(s, l).waiters
    ensures WaiterOk(Apply(s, l), Apply(s, l).waiters[t])
  {
    if t in s.waiters {
      assert WaiterOk(s, s.waiters[t]);
    }
  }

  lemma InvStep(s: State, l: Label)
    requires Inv(s) && Enabled(s, l)
    ensures Inv(Apply(s, l))
  {
    EvidenceStep(s, l);
    ChannelsStep(s, l);
    forall t | t in Apply(s, l).waiters ensures WaiterOk(Apply(s, l), Apply(s, l).waiters[t]) {
      WaitersStep(s, l, t);
    }
  }

  lemma {:induction false} InvRun(s: State, ls: seq<Label>)
    requires Inv(s) && Executable(s, ls)
    ensures Inv(Exec(s, ls))
    decreases |ls|
  {
    if ls != [] {
      InvStep(s, ls[0]);
      InvRun(Apply(s, ls[0]), ls[1..]);
    }
  }

  // --- What every run keeps -------------------------------------------------------------

  /** No interleaving of `Stop`, `markReady` and `markNotReady` closes a channel twice. */
  lemma NoDoubleClose(ls: seq<Label>)
    requires Executable(Init(), ls)
    ensures var closed := Exec(Init(), ls).closed;
      forall i, j :: 0 <= i < j < |closed| ==> closed[i] != closed[j]
  {
    InvRun(Init(), ls);
  }

  /** While the tunnel runs, a closed readiness channel means that a supervisor tick of this very
      incarnation saw a handshake younger than 180 seconds. */
  lemma ReadyRestsOnTick(ls: seq<Label>)
    requires Executable(Init(), ls)
    ensures var s := Exec(Init(), ls);
      s.running && IsClosed(s, s.ready) ==>
        s.seen.Some? && s.seen.value.seenAt - s.seen.value.handshake < 180
  {
    InvRun(Init(), ls);
  }

  /** The waiter that a step makes succeed. */
  predicate Succeeds(s: State, l: Label, t: Tid)
    requires Enabled(s, l)
  {
    (l == SeeDeadline(t) || l == Recheck(t)) && Apply(s, l).waiters[t].Succeeded?
  }

  /** Every success of `WaitReady` rests on such a tick. A success through the channel comes from
      a running tunnel and on its current channel, and the caller read that channel in the same
      incarnation: a `Stop` and a `Start` between its two reads never let it through. A success
      at the deadline needs only StateConnected. */
  lemma SuccessRestsOnTick(ls: seq<Label>, l: Label, t: Tid)
    requires Executable(Init(), ls) && Enabled(Exec(Init(), ls), l) && Succeeds(Exec(Init(), ls), l, t)
    ensures var s := Exec(Init(), ls);
      && s.seen.Some? && Fresh(s.seen.value)
      && (l.Recheck? ==> s.running && s.waiters[t].ch == s.ready && IsClosed(s, s.ready)
                         && s.waiters[t].started == s.started)
      && (l.SeeDeadline? ==> s.status.Connected?)
  {
    InvRun(Init(), ls);
    var s := Exec(Init(), ls);
    assert WaiterOk(s, s.waiters[t]);
  }

  /** `WaitReady` succeeds on a tunnel that is down exactly when it leaves at its deadline while
      `Stop` is between clearing `running` and setting StateStopped. */
  lemma SuccessWhileDown(ls: seq<Label>, l: Label, t: Tid)
    requires Executable(Init(), ls) && Enabled(Exec(Init(), ls), l) && (l == SeeDeadline(t) || l == Recheck(t))
    ensures var s := Exec(Init(), ls);
      !s.running ==>
        (Succeeds(s, l, t) <==> l.SeeDeadline? && s.status.Connected? && (s.life.StopWaiting? || s.life.StopEnding?))
  {
    InvRun(Init(), ls);
  }

  // --- Where the code falls short -------------------------------------------------------

  ghost predicate Reaches(s0: State, ls: seq<Label>, s: State) {
    Executable(s0, ls) && Exec(s0, ls) == s
  }

  lemma {:induction false} Take(s0: State, ls: seq<Label>, s: State, l: Label) returns (longer: seq<Label>, next: State)
    requires Reaches(s0, ls, s) && Enabled(s, l)
    ensures Reaches(s0, longer, next) && next == Apply(s, l)
    decreases |ls|
  {
    longer, next := ls + [l], Apply(s, l);
    if ls == [] {
      assert longer == [l] && longer[1..] == [];
    } else {
      var rest, last := Take(Apply(s0, ls[0]), ls[1..], s, l);
      longer := [ls[0]] + rest;
      assert longer[1..] == rest;
    }
  }

  /** A tunnel that came up and saw a handshake. */
  lemma ConnectedRun(s0: State) returns (ls: seq<Label>, s: State)
    requires s0 == Init()
    ensures Reaches(s0, ls, s) && s.waiters == map[]
    ensures s.running && s.ready == 1 && s.life.Resting? && s.status.Connected?
  {
    ls, s := Take(s0, [], s0, StartBegin);
    ls, s := Take(s0, ls, s, StartRecord);
    ls, s := Take(s0, ls, s, SpawnSupervisor);
    ls, s := Take(s0, ls, s, SupTick);
    ls, s := Take(s0, ls, s, SupLook(Some(0)));
    ls, s := Take(s0, ls, s, SupJudge);
    ls, s := Take(s0, ls, s, SupConnected);
    ls, s := Take(s0, ls, s, SupMarkReady);
  }

  /** Contrary to its comment, `WaitReady` can succeed while the tunnel is down: the caller's
      deadline passes while `Stop` has not reached StateStopped yet. */
  lemma DeadlineSuccessWhileDown() returns (ls: seq<Label>)
    ensures Executable(Init(), ls)
    ensures var s := Exec(Init(), ls);
      !s.running && Enabled(s, SeeDeadline(0)) && Succeeds(s, SeeDeadline(0), 0)
  {
    var s;
    ls, s := ConnectedRun(Init());
    ls := StopUnderWaiter(Init(), ls, s);
  }

  lemma StopUnderWaiter(s0: State, ls0: seq<Label>, s1: State) returns (ls: seq<Label>)
    requires Reaches(s0, ls0, s1) && s1.waiters == map[] && s1.running && s1.life.Resting? && s1.status.Connected?
    ensures Executable(s0, ls)
    ensures var s := Exec(s0, ls); !s.running && Enabled(s, SeeDeadline(0)) && Succeeds(s, SeeDeadline(0), 0)
  {
    var s;
    ls, s := Take(s0, ls0, s1, Call(0));
    ls, s := Take(s0, ls, s, Read(0));
    ls := StopBegins(s0, ls, s);
  }

  lemma StopBegins(s0: State, ls0: seq<Label>, s1: State) returns (ls: seq<Label>)
    requires Reaches(s0, ls0, s1) && s1.running && s1.life.Resting? && s1.status.Connected?
    requires 0 in s1.waiters && s1.waiters[0].Waiting?
    ensures Executable(s0, ls)
    ensures var s := Exec(s0, ls); !s.running && Enabled(s, SeeDeadline(0)) && Succeeds(s, SeeDeadline(0), 0)
  {
    var s;
    ls, s := Take(s0, ls0, s1, StopBegin);
  }

  // --- The tunnel object ----------------------------------------------------------------

  lemma {:induction false} ExecGrow(s: State, ls: seq<Label>, l: Label)
    requires Executable(s, ls) && Enabled(Exec(s, ls), l)
    ensures Executable(s, ls + [l]) && Exec(s, ls + [l]) == Apply(Exec(s, ls), l)
    decreases |ls|
  {
    if ls == [] {
      assert ls + [l] == [l] && [l][1..] == [];
    } else {
      ExecGrow(Apply(s, ls[0]), ls[1..], l);
      assert (ls + [l])[1..] == ls[1..] + [l];
    }
  }

  /** A step of another goroutine than waiter `t`. */
  predicate Theirs(t: Tid, l: Label) {
    match l
    case Call(u) => u != t
    case Read(u) => u != t
    case SeeClosed(u) => u != t
    case SeeDeadline(u) => u != t
    case Recheck(u) => u != t
    case _ => true
  }

  lemma TheirsKeeps(s: State, l: Label, t: Tid)
    requires Enabled(s, l) && Theirs(t, l) && t in s.waiters
    ensures t in Apply(s, l).waiters && Apply(s, l).waiters[t] == s.waiters[t]
  {
  }

  /** One pass of a waiter through its loop: what the others do before its first read, while it
      waits, and before its second read; and whether its context ends the wait. */
  datatype Turn = Turn(before: seq<Label>, during: seq<Label>, deadline: bool, after: seq<Label>)

  /** The exit that the caller's context takes. */
  predicate AtDeadline(r: Waiter) {
    r == Succeeded(true) || r.NotReady?
  }

  /** The readiness fields of `Tunnel`, with the goroutines that use them. The ghost run ties the
      fields to the machine. */
  class Tunnel {
    var running: bool
    var ready: Chan
    var next: Chan
    var closed: seq<Chan>
    var status: Status
    var now: int
    var started: nat
    var first: Chan
    var seen: Option<Tick>
    var life: Life
    var sup: Supervisor
    var waiters: map<Tid, Waiter>
    ghost var run: seq<Label>

    function View(): State
      reads this
    {
      State(running, ready, next, closed, status, now, started, first, seen, life, sup, waiters)
    }

    ghost predicate Valid()
      reads this
    {
      Executable(Init(), run) && Exec(Init(), run) == View()
    }

    constructor ()
      ensures Valid() && View() == Init()
    {
      running, ready, next, closed, status, now := false, 0, 1, [], Stopped, 0;
      started, first, seen, life, sup, waiters, run := 0, 0, None, Resting, NoSupervisor, map[], [];
    }

    ghost method Book(before: State, l: Label)
      requires Executable(Init(), run) && Exec(Init(), run) == before && Enabled(before, l) && Apply(before, l) == View()
      modifies `run
      ensures Valid() && run == old(run) + [l]
    {
      ExecGrow(Init(), run, l);
      run := run + [l];
    }

    method Adopt(s: State)
      modifies this
      ensures View() == s && run == old(run)
    {
      running, ready, next, closed, status, now := s.running, s.ready, s.next, s.closed, s.status, s.now;
      started, first, seen, life, sup, waiters := s.started, s.first, s.seen, s.life, s.sup, s.waiters;
    }

    /** The others take whichever of the scheduled steps they can. */
    method Elsewhere(t: Tid, schedule: seq<Label>)
      requires Valid() && t in waiters
      modifies this
      ensures Valid() && old(run) <= run && t in waiters && waiters[t] == old(waiters)[t]
    {
      for i := 0 to |schedule|
        invariant Valid() && old(run) <= run && t in waiters && waiters[t] == old(waiters)[t]
      {
        var l := schedule[i];
        if Theirs(t, l) && Enabled(View(), l) {
          ghost var before := View();
          TheirsKeeps(before, l, t);
          Adopt(Apply(View(), l));
          Book(before, l);
        }
      }
    }

    /** `markReady`, by the supervisor after a healthy tick: the channel is closed now, and was not
        closed twice. */
    method MarkReadyAfterTick()
      requires Valid() && sup.Marking?
      modifies `closed, `sup, `run
      ensures Valid() && sup.Sleeping? && ready in closed && seen.Some?
      ensures closed == if ready in old(closed) then old(closed) else old(closed) + [ready]
      ensures forall i, j :: 0 <= i < j < |closed| ==> closed[i] != closed[j]
    {
      ghost var before := View();
      InvRun(Init(), run);
      if ready !in closed {
        closed := closed + [ready];
      }
      sup := Sleeping;
      Book(before, SupMarkReady);
    }

    /** `markNotReady`, by a reload: new callers block again. */
    method MarkNotReadyByReload()
      requires Valid()
      modifies `ready, `next, `run
      ensures Valid() && (running ==> ready !in closed) && (!running ==> ready == old(ready))
    {
      ghost var before := View();
      InvRun(Init(), run);
      if running && ready in closed {
        ready := next;
        next := next + 1;
      }
      Book(before, ReloadMarkNotReady);
    }

    /** The critical section of `Stop`: waiters are released, and find the tunnel down. */
    method BeginStop()
      requires Valid() && life.Resting? && running
      modifies `running, `life, `closed, `run
      ensures Valid() && !running && ready in closed
      ensures forall i, j :: 0 <= i < j < |closed| ==> closed[i] != closed[j]
    {
      ghost var before := View();
      running, life := false, StopWaiting;
      if ready !in closed {
        closed := closed + [ready];
      }
      Book(before, StopBegin);
      InvRun(Init(), run);
    }

    /** `WaitReady`: `r` is its result, or where it still waits when the schedule ends. A success is
        through the current, closed channel of a running tunnel, or at the deadline of a connected
        one, and rests on a healthy tick of this incarnation either way. It leaves at the deadline in the
        first pass that has one, unless the tunnel is down, and in no other; and it goes on waiting only
        while its channel is open. `passes` is how many passes it began. */
    method WaitReady(t: Tid, turns: seq<Turn>) returns (r: Waiter, passes: nat)
      requires Valid() && t !in waiters
      modifies this
      ensures Valid() && t in waiters && waiters[t] == r && !r.Rechecking?
      ensures r.TunnelDown? ==> !running
      ensures r.Succeeded? ==> seen.Some? && Fresh(seen.value)
      ensures r == Succeeded(false) ==> running && ready in closed
      ensures r == Succeeded(true) ==> status.Connected?
      ensures r.NotReady? ==> !status.Connected?
      ensures r.Waiting? ==> r.ch !in closed
      ensures r == Entering ==> passes == |turns| && (passes > 0 ==> running)
      ensures r != Entering ==>
                0 < passes <= |turns| && if turns[passes - 1].deadline then r.TunnelDown? || AtDeadline(r) else !AtDeadline(r)
      ensures forall i :: 0 <= i < passes - 1 ==> !turns[i].deadline
      ensures r == Entering && passes > 0 ==> !turns[passes - 1].deadline
    {
      ghost var before := View();
      waiters := waiters[t := Entering];
      Book(before, Call(t));
      r, passes := Entering, 0;
      for i := 0 to |turns|
        invariant Valid() && t in waiters && waiters[t] == Entering && r == Entering && passes == i && (i > 0 ==> running)
        invariant forall k :: 0 <= k < i ==> !turns[k].deadline
      {
        passes := i + 1;
        ghost var ch;
        r, ch := WaitOnce(t, turns[i]);
        if r != Entering {
          return;
        }
      }
    }

    /** One pass through its loop. With a deadline it leaves there, unless its first read finds the tunnel
        down. Without one, it waits as long as the channel of its first read, `ch`, is open, and once it
        is closed its second read decides: down, a success if `ch` is still current, or round again. */
    method WaitOnce(t: Tid, turn: Turn) returns (r: Waiter, ghost ch: Chan)
      requires Valid() && t in waiters && waiters[t] == Entering
      modifies this
      ensures Valid() && t in waiters && waiters[t] == r && !r.Rechecking?
      ensures if turn.deadline then r.TunnelDown? || AtDeadline(r) else !AtDeadline(r)
      ensures AtDeadline(r) ==> (r == Succeeded(true) <==> status.Connected?)
      ensures r.TunnelDown? ==> !running
      ensures r.Waiting? ==> r.ch == ch && ch !in closed
      ensures r == Entering || r == Succeeded(false) ==> running && (r == Entering <==> ready != ch)
      ensures r.Succeeded? ==> seen.Some? && Fresh(seen.value)
      ensures r == Succeeded(false) ==> running && ready in closed
    {
      Elsewhere(t, turn.before);
      ch := ready;
      r := ReadOnce(t);
      if r.TunnelDown? {
        return;
      }
      Elsewhere(t, turn.during);
      if turn.deadline {
        r := GiveUp(t);
      } else if r.ch in closed {
        Wake(t);
        Elsewhere(t, turn.after);
        r := ReadTwice(t);
      }
    }

    /** The first locked read. */
    method ReadOnce(t: Tid) returns (r: Waiter)
      requires Valid() && t in waiters && waiters[t].Entering?
      modifies `waiters, `run
      ensures Valid() && t in waiters && waiters[t] == r
      ensures if running then r.Waiting? && r.ch == ready else r.TunnelDown?
    {
      ghost var before := View();
      r := if running then Waiting(ready, started) else TunnelDown;
      waiters := waiters[t := r];
      Book(before, Read(t));
    }

    method Wake(t: Tid)
      requires Valid() && t in waiters && waiters[t].Waiting? && waiters[t].ch in closed
      modifies `waiters, `run
      ensures Valid() && t in waiters && waiters[t] == Rechecking(old(waiters)[t].ch, old(waiters)[t].started)
    {
      ghost var before := View();
      waiters := waiters[t := Rechecking(waiters[t].ch, waiters[t].started)];
      Book(before, SeeClosed(t));
    }

    /** The context ended. */
    method GiveUp(t: Tid) returns (r: Waiter)
      requires Valid() && t in waiters && waiters[t].Waiting?
      modifies `waiters, `run
      ensures Valid() && t in waiters && waiters[t] == r
      ensures r == if status.Connected? then Succeeded(true) else NotReady
      ensures r.Succeeded? ==> seen.Some? && Fresh(seen.value)
    {
      ghost var before := View();
      InvRun(Init(), run);
      r := if status.Connected? then Succeeded(true) else NotReady;
      waiters := waiters[t := r];
      Book(before, SeeDeadline(t));
    }

    /** The second locked read. */
    method ReadTwice(t: Tid) returns (r: Waiter)
      requires Valid() && t in waiters && waiters[t].Rechecking?
      modifies `waiters, `run
      ensures Valid() && t in waiters && waiters[t] == r
      ensures r == if !running then TunnelDown else if ready == old(waiters)[t].ch then Succeeded(false) else Entering
      ensures r.Succeeded? ==> ready in closed && seen.Some? && Fresh(seen.value)
    {
      ghost var before := View();
      InvRun(Init(), run);
      assert WaiterOk(before, waiters[t]);
      r := if !running then TunnelDown else if ready == waiters[t].ch then Succeeded(false) else Entering;
      waiters := waiters[t := r];
      Book(before, Recheck(t));
    }
  }
}
