/** What can override a pause or a stop of the service, and what can build a second device: for each
    the exact condition, over every reachable state and every continuation, and a run. */
module Overrides {
  import opened Basics
  import opened Lifecycle
  import opened ServiceManager

  // --- A pause --------------------------------------------------------------------------

  /** A pause is in force from here to the end of the run. */
  ghost predicate PausedThroughout(s: State, ls: seq<Label>)
    decreases |ls|
  {
    PauseInForce(s) && (ls == [] || (Enabled(s, ls[0]) && PausedThroughout(Apply(s, ls[0]), ls[1..])))
  }

  /** Between a rebuilding reload's look at `running` and the end of its last start. */
  predicate Rebuilding(pc: Pc) {
    pc.RebuildStop? || pc.RebuildClose? || pc.RebuildCheck? || pc.RebuildBuild?
  }

  /** How far a rebuild is from the end of its first start. */
  function StepsToGo(pc: Pc): nat {
    if pc.RebuildStop? then 3 else if pc.RebuildClose? then 2 else if pc.RebuildCheck? then 1 else 0
  }

  ghost predicate SomeRebuilding(s: State) {
    exists t :: t in s.threads && Rebuilding(s.threads[t])
  }

  ghost predicate CanRiseUnderPause(s: State) {
    exists more :: PausedThroughout(s, more) && Executable(s, more) && Exec(s, more).sh.running
  }

  lemma CheckRebuildsNothing(sh: Shared, t: Tid, pc: Pc, c: Choice)
    requires CanGo(sh, pc, c) && InCheck(pc)
    ensures !Rebuilding(ReactCheck(sh, t, pc, c).1)
  {
  }

  lemma RebuildingStep(sh: Shared, t: Tid, pc: Pc, c: Choice)
    requires CanGo(sh, pc, c) && !Rebuilding(pc) && !sh.running
    ensures !Rebuilding(React(sh, t, pc, c).1)
  {
    if InCheck(pc) {
      CheckRebuildsNothing(sh, t, pc, c);
    }
  }

  lemma {:induction false} DownWithoutRebuild(s: State, more: seq<Label>)
    requires Inv(s) && !s.sh.running && !SomeRebuilding(s) && PausedThroughout(s, more) && Executable(s, more)
    ensures !Exec(s, more).sh.running
    decreases |more|
  {
    if more != [] {
      var l := more[0];
      var s' := Apply(s, l);
      PauseInForceIsDone(s);
      InvStep(s, l);
      if l.Go? {
        assert ThreadOk(s.sh, l.t, s.threads[l.t]);
        NoStartWhilePaused(s.sh, l.t, s.threads[l.t], l.c);
        RebuildingStep(s.sh, l.t, s.threads[l.t], l.c);
      }
      forall u | u in s'.threads
        ensures !Rebuilding(s'.threads[u])
      {
        ThreadsAfter(s, l, u);
      }
      DownWithoutRebuild(s', more[1..]);
    }
  }

  /** One step of a rebuilding thread, which the pause survives. */
  lemma PausedStep(s: State, t: Tid, c: Choice)
    requires PauseInForce(s) && t in s.threads && Rebuilding(s.threads[t]) && CanGo(s.sh, s.threads[t], c) && !c.Child?
    ensures PauseInForce(Apply(s, Go(t, c)))
  {
  }

  lemma RebuildRises(s: State, t: Tid) returns (more: seq<Label>)
    requires PauseInForce(s) && !s.sh.running && t in s.threads && Rebuilding(s.threads[t])
    ensures PausedThroughout(s, more) && Executable(s, more) && Exec(s, more).sh.running
    decreases StepsToGo(s.threads[t])
  {
    var c := if s.threads[t].RebuildBuild? then Outcome(true) else Plain;
    PausedStep(s, t, c);
    var s' := Apply(s, Go(t, c));
    if s.threads[t].RebuildBuild? {
      more := [Go(t, c)];
      assert more[1..] == [];
    } else {
      var rest := RebuildRises(s', t);
      more := [Go(t, c)] + rest;
      assert more[1..] == rest;
    }
  }

  /** When the tunnel can come up under a pause, however long the pause lasts and whoever else acts:
      exactly while a reload that had seen the tunnel running is still rebuilding it. */
  lemma PauseOverriddenOnlyByRebuild(wanted: bool, ls: seq<Label>)
    requires Executable(Init(wanted), ls) && PauseInForce(Exec(Init(wanted), ls)) && !Exec(Init(wanted), ls).sh.running
    ensures CanRiseUnderPause(Exec(Init(wanted), ls)) <==> SomeRebuilding(Exec(Init(wanted), ls))
  {
    InvRun(Init(wanted), ls);
    var s := Exec(Init(wanted), ls);
    if SomeRebuilding(s) {
      var t :| t in s.threads && Rebuilding(s.threads[t]);
      var more := RebuildRises(s, t);
    } else {
      forall more | PausedThroughout(s, more) && Executable(s, more)
        ensures !Exec(s, more).sh.running
      {
        DownWithoutRebuild(s, more);
      }
    }
  }

  /** ... and in the very next step exactly if such a reload is past its check of `running`. */
  lemma PauseOverriddenNext(wanted: bool, ls: seq<Label>)
    requires Executable(Init(wanted), ls) && PauseInForce(Exec(Init(wanted), ls)) && !Exec(Init(wanted), ls).sh.running
    ensures var s := Exec(Init(wanted), ls);
      (exists l :: Enabled(s, l) && Apply(s, l).sh.running) <==> (exists t :: t in s.threads && s.threads[t].RebuildBuild?)
  {
    var s := Exec(Init(wanted), ls);
    if t :| t in s.threads && s.threads[t].RebuildBuild? {
      assert Enabled(s, Go(t, Outcome(true))) && Apply(s, Go(t, Outcome(true))).sh.running;
    }
    if l :| Enabled(s, l) && Apply(s, l).sh.running {
      PauseAllowsNoStart(wanted, ls, l);
    }
  }

  // --- Devices --------------------------------------------------------------------------

  /** Past the check in `Tunnel.Start`, before the record: a device is being built. */
  predicate Building(pc: Pc) {
    pc.Starting? || pc.RebuildBuild?
  }

  /** In a `Tunnel.Stop` that has cleared `running` and has its device still to close. */
  predicate Closing(pc: Pc) {
    pc.PauseClose? || pc.StopClose? || pc.RebuildClose? || pc.DownClose?
  }

  predicate Holding(pc: Pc) {
    Building(pc) || Closing(pc)
  }

  ghost function Holders(s: State): set<Tid> {
    set t | t in s.threads && Holding(s.threads[t])
  }

  /** Devices that are being built, on record, or being closed. */
  ghost function LiveDevices(s: State): nat {
    |Holders(s)| + if s.sh.running then 1 else 0
  }

  predicate Checks(pc: Pc) {
    pc.StartCheck? || pc.RebuildCheck?
  }

  predicate Stops(pc: Pc) {
    pc.PauseStop? || pc.StopDown? || pc.RebuildStop?
  }

  /** The check in `Tunnel.Start` passes while another start has passed it and not recorded yet, or a
      Stop has cleared `running` and not closed its device yet. */
  ghost predicate Overlaps(s: State, l: Label)
    requires Enabled(s, l)
  {
    && l.Go? && Checks(s.threads[l.t]) && !s.sh.running
    && exists u :: u in s.threads && u != l.t && Holding(s.threads[u])
  }

  ghost predicate NeverOverlaps(s: State, ls: seq<Label>)
    requires Executable(s, ls)
    decreases |ls|
  {
    ls == [] || (!Overlaps(s, ls[0]) && NeverOverlaps(Apply(s, ls[0]), ls[1..]))
  }

  ghost predicate OneDeviceThroughout(s: State, ls: seq<Label>)
    requires Executable(s, ls)
    decreases |ls|
  {
    LiveDevices(s) <= 1 && (ls == [] || OneDeviceThroughout(Apply(s, ls[0]), ls[1..]))
  }

  /** At most one device, without counting. */
  ghost predicate OneDevice(s: State) {
    && (forall t, u :: t in s.threads && u in s.threads && Holding(s.threads[t]) && Holding(s.threads[u]) ==> t == u)
    && (forall t :: t in s.threads && Holding(s.threads[t]) ==> !s.sh.running)
  }

  lemma OneDeviceCounts(s: State)
    ensures OneDevice(s) <==> LiveDevices(s) <= 1
  {
    var b := Holders(s);
    assert forall t :: t in s.threads && Holding(s.threads[t]) ==> t in b;
    if OneDevice(s) {
      if b != {} {
        var t :| t in b;
        assert b == {t};
      }
    } else if s.sh.running && b != {} {
      var t :| t in b;
      SubsetSize({t}, b);
    } else {
      var t, u :| t in s.threads && u in s.threads && Holding(s.threads[t]) && Holding(s.threads[u]) && t != u;
      assert {t, u} <= b;
      SubsetSize({t, u}, b);
    }
  }

  /** What a step does to the devices its thread holds, and to the one on record. */
  predicate HandsOver(sh: Shared, pc: Pc, sh': Shared, pc': Pc) {
    && (Holding(pc') <==> (Checks(pc) && !sh.running) || (Stops(pc) && sh.running))
    && (sh'.running && !sh.running ==> Building(pc))
    && (Stops(pc) ==> !sh'.running)
  }

  lemma CheckHandsOver(sh: Shared, t: Tid, pc: Pc, c: Choice)
    requires CanGo(sh, pc, c) && InCheck(pc)
    ensures var (sh', pc') := ReactCheck(sh, t, pc, c); HandsOver(sh, pc, sh', pc')
  {
  }

  lemma StartHandsOver(sh: Shared, t: Tid, pc: Pc, c: Choice)
    requires CanGo(sh, pc, c) && InStart(pc)
    ensures var (sh', pc') := ReactStart(sh, t, pc, c); HandsOver(sh, pc, sh', pc')
  {
  }

  lemma OtherHandsOver(sh: Shared, t: Tid, pc: Pc, c: Choice)
    requires CanGo(sh, pc, c) && !InCheck(pc) && !InStart(pc) && !InLoop(pc)
    ensures var (sh', pc') := ReactOther(sh, t, pc, c); HandsOver(sh, pc, sh', pc')
  {
  }

  lemma HoldingStep(sh: Shared, t: Tid, pc: Pc, c: Choice)
    requires CanGo(sh, pc, c)
    ensures var (sh', pc') := React(sh, t, pc, c); HandsOver(sh, pc, sh', pc')
  {
    if InCheck(pc) {
      CheckHandsOver(sh, t, pc, c);
    } else if InStart(pc) {
      StartHandsOver(sh, t, pc, c);
    } else if !InLoop(pc) {
      OtherHandsOver(sh, t, pc, c);
    }
  }

  /** The holders after a step: those before it, except that the acting thread comes or goes. */
  lemma HoldersAfter(s: State, l: Label, u: Tid)
    requires Enabled(s, l)
    ensures u in Apply(s, l).threads && Holding(Apply(s, l).threads[u]) ==>
              || (u in s.threads && Holding(s.threads[u]) && (l.Go? ==> u != l.t))
              || (l.Go? && u == l.t && Checks(s.threads[u]) && !s.sh.running)
              || ((l.Go? || l.TunnelDown?) && u == l.t && s.sh.running && !Apply(s, l).sh.running)
    ensures l.Go? && u in s.threads && u != l.t ==> u in Apply(s, l).threads && Apply(s, l).threads[u] == s.threads[u]
  {
    if u in Apply(s, l).threads {
      ThreadsAfter(s, l, u);
      if l.Go? {
        HoldingStep(s.sh, l.t, s.threads[l.t], l.c);
      }
    }
  }

  lemma OverlapMeansTwo(s: State, l: Label)
    requires Enabled(s, l) && Overlaps(s, l)
    ensures !OneDevice(Apply(s, l))
  {
    var u :| u in s.threads && u != l.t && Holding(s.threads[u]);
    HoldersAfter(s, l, u);
    HoldingStep(s.sh, l.t, s.threads[l.t], l.c);
    assert Apply(s, l).threads[l.t] == React(s.sh, l.t, s.threads[l.t], l.c).1;
  }

  lemma OneDeviceStep(s: State, l: Label)
    requires OneDevice(s) && Enabled(s, l)
    ensures OneDevice(Apply(s, l)) <==> !Overlaps(s, l)
  {
    var s' := Apply(s, l);
    if Overlaps(s, l) {
      OverlapMeansTwo(s, l);
    } else {
      forall t, u | t in s'.threads && u in s'.threads && Holding(s'.threads[t]) && Holding(s'.threads[u])
        ensures t == u
      {
        HoldersAfter(s, l, t);
        HoldersAfter(s, l, u);
      }
      forall t | t in s'.threads && Holding(s'.threads[t])
        ensures !s'.sh.running
      {
        HoldersAfter(s, l, t);
        if l.Go? {
          HoldingStep(s.sh, l.t, s.threads[l.t], l.c);
        }
      }
    }
  }

  lemma {:induction false} OneDeviceRun(s: State, ls: seq<Label>)
    requires OneDevice(s) && Executable(s, ls)
    ensures OneDeviceThroughout(s, ls) <==> NeverOverlaps(s, ls)
    decreases |ls|
  {
    OneDeviceCounts(s);
    if ls != [] {
      OneDeviceStep(s, ls[0]);
      OneDeviceCounts(Apply(s, ls[0]));
      if OneDevice(Apply(s, ls[0])) {
        OneDeviceRun(Apply(s, ls[0]), ls[1..]);
      }
    }
  }

  /** A run has one device at most, at every moment, if and only if the check in `Tunnel.Start` never
      passes while another start is between its check and its record, or a Stop between clearing
      `running` and closing its device. */
  lemma SecondDeviceExactly(wanted: bool, ls: seq<Label>)
    requires Executable(Init(wanted), ls)
    ensures OneDeviceThroughout(Init(wanted), ls) <==> NeverOverlaps(Init(wanted), ls)
  {
    OneDeviceRun(Init(wanted), ls);
  }

  lemma OverlapInvolvesReload(s: State, l: Label, u: Tid)
    requires Inv(s) && OverInv(s) && Enabled(s, l) && Overlaps(s, l)
    requires u in s.threads && u != l.t && Holding(s.threads[u])
    ensures s.threads[l.t].RebuildCheck? || s.threads[u].RebuildBuild? || s.threads[u].RebuildClose?
  {
    assert ThreadOk(s.sh, l.t, s.threads[l.t]) && ThreadOk(s.sh, u, s.threads[u]);
  }

  /** One of the two is then a rebuilding reload: `startMu` keeps everyone else apart, and the service
      stops its tunnel for the last time when nobody is left to start it. */
  lemma OverlapNeedsReload(wanted: bool, ls: seq<Label>, l: Label)
    requires Executable(Init(wanted), ls) && Enabled(Exec(Init(wanted), ls), l) && Overlaps(Exec(Init(wanted), ls), l)
    ensures var s := Exec(Init(wanted), ls);
      || s.threads[l.t].RebuildCheck?
      || exists u :: u in s.threads && u != l.t && (s.threads[u].RebuildBuild? || s.threads[u].RebuildClose?)
  {
    InvRun(Init(wanted), ls);
    OverRun(Init(wanted), ls);
    var s := Exec(Init(wanted), ls);
    var u :| u in s.threads && u != l.t && Holding(s.threads[u]);
    OverlapInvolvesReload(s, l, u);
  }

  lemma {:induction false} NoReloadNoOverlap(s: State, ls: seq<Label>)
    requires Inv(s) && OverInv(s) && NoRebuild(s) && Executable(s, ls) && AtomicReloads(ls)
    ensures NeverOverlaps(s, ls)
    decreases |ls|
  {
    if ls != [] {
      if Overlaps(s, ls[0]) {
        var u :| u in s.threads && u != ls[0].t && Holding(s.threads[u]);
        OverlapInvolvesReload(s, ls[0], u);
      }
      InvStep(s, ls[0]);
      OverStep(s, ls[0]);
      NoRebuildStep(s, ls[0]);
      NoReloadNoOverlap(Apply(s, ls[0]), ls[1..]);
    }
  }

  /** So without such reloads there is never a second device, at any moment of the run: `startMu`
      closes the gap between the check and the record, and the one between clearing and closing. */
  lemma NeverTwoDevices(wanted: bool, ls: seq<Label>)
    requires Executable(Init(wanted), ls) && AtomicReloads(ls)
    ensures OneDeviceThroughout(Init(wanted), ls)
  {
    NoReloadNoOverlap(Init(wanted), ls);
    SecondDeviceExactly(wanted, ls);
  }

  /** A rebuilding reload and a manual start, both past the check. */
  lemma TwoDevices() returns (ls: seq<Label>)
    ensures Executable(Init(false), ls) && LiveDevices(Exec(Init(false), ls)) == 2
  {
    var s0 := Init(false);
    var up := s0.sh.(running := true, wanted := true);
    var down := Stopped(up);
    var held := down.(locks := Locks(Some(2), None));
    var first := map[0 := Finished];
    ls := ManualStart(s0);
    ls := ReloadToBuilding(s0, ls, up, first, 1);
    ls := ManualToBuilding(s0, ls, down, first[1 := RebuildBuild(false)], 2);
    var s := State(held, first[1 := RebuildBuild(false)][2 := Starting(Manual)]);
    assert Holders(s) == {1, 2};
  }

  /** A rebuilding reload whose Stop is still closing the device, and a manual start past the check:
      two devices, though no two starts overlap. */
  lemma DeviceStillClosing() returns (ls: seq<Label>)
    ensures Executable(Init(false), ls)
    ensures var s := Exec(Init(false), ls);
      LiveDevices(s) == 2 && forall t, u :: t in s.threads && u in s.threads && Building(s.threads[t]) && Building(s.threads[u]) ==> t == u
  {
    var s0 := Init(false);
    var up := s0.sh.(running := true, wanted := true);
    var first := map[0 := Finished];
    var rest := first[1 := RebuildClose];
    ls := ManualStart(s0);
    ls := ReloadToClosing(s0, ls, up, first, 1);
    ls := ManualToBuilding(s0, ls, Stopped(up), rest, 2);
    var s := State(Stopped(up).(locks := Locks(Some(2), None)), rest[2 := Starting(Manual)]);
    assert Holders(s) == {1, 2};
  }

  lemma ReloadToBuilding(s0: State, ls0: seq<Label>, sh: Shared, rest: map<Tid, Pc>, t: Tid) returns (ls: seq<Label>)
    requires Reaches(s0, ls0, State(sh, rest)) && t !in rest && sh.running && !sh.over
    ensures Reaches(s0, ls, State(Stopped(sh), rest[t := RebuildBuild(false)]))
  {
    ls := Enter(s0, ls0, sh, rest, t, ReloadRead);
    ls := Walk(s0, ls, sh, rest, t, ReloadRead, Plain, sh, RebuildStop);
    ls := StopToBuilding(s0, ls, sh, rest, t);
  }

  lemma ReloadToClosing(s0: State, ls0: seq<Label>, sh: Shared, rest: map<Tid, Pc>, t: Tid) returns (ls: seq<Label>)
    requires Reaches(s0, ls0, State(sh, rest)) && t !in rest && sh.running && !sh.over
    ensures Reaches(s0, ls, State(Stopped(sh), rest[t := RebuildClose]))
  {
    ls := Enter(s0, ls0, sh, rest, t, ReloadRead);
    ls := Walk(s0, ls, sh, rest, t, ReloadRead, Plain, sh, RebuildStop);
    ls := Walk(s0, ls, sh, rest, t, RebuildStop, Plain, Stopped(sh), RebuildClose);
  }

  lemma StopToBuilding(s0: State, ls0: seq<Label>, sh: Shared, rest: map<Tid, Pc>, t: Tid) returns (ls: seq<Label>)
    requires Reaches(s0, ls0, State(sh, rest[t := RebuildStop]))
    ensures Reaches(s0, ls, State(Stopped(sh), rest[t := RebuildBuild(false)]))
  {
    ls := RebuildStops(s0, ls0, sh, rest, t);
    ls := Walk(s0, ls, Stopped(sh), rest, t, RebuildCheck(false), Plain, Stopped(sh), RebuildBuild(false));
  }

  /** A manual start by thread `t` up to the point where it builds. */
  lemma ManualToBuilding(s0: State, ls0: seq<Label>, sh: Shared, rest: map<Tid, Pc>, t: Tid) returns (ls: seq<Label>)
    requires Reaches(s0, ls0, State(sh, rest)) && t !in rest && sh.locks.start.None? && !sh.running && sh.pause.on.None?
    requires sh.wanted && !sh.over
    ensures Reaches(s0, ls, State(sh.(locks := sh.locks.(start := Some(t))), rest[t := Starting(Manual)]))
  {
    ls := Enter(s0, ls0, sh, rest, t, ManualWant);
    ls := Walk(s0, ls, sh, rest, t, ManualWant, Plain, sh, ManualTest);
    ls := Walk(s0, ls, sh, rest, t, ManualTest, Plain, sh, StartLock(Manual));
    ls := LockToBuilding(s0, ls, sh, rest, t, Manual);
  }

  lemma LockToBuilding(s0: State, ls0: seq<Label>, sh: Shared, rest: map<Tid, Pc>, t: Tid, w: Caller) returns (ls: seq<Label>)
    requires Reaches(s0, ls0, State(sh, rest[t := StartLock(w)])) && sh.locks.start.None? && !sh.running && sh.pause.on.None?
    ensures Reaches(s0, ls, State(sh.(locks := sh.locks.(start := Some(t))), rest[t := Starting(w)]))
  {
    var held := sh.(locks := sh.locks.(start := Some(t)));
    ls := Walk(s0, ls0, sh, rest, t, StartLock(w), Plain, held, StartRead(w));
    ls := Walk(s0, ls, held, rest, t, StartRead(w), Plain, held, StartTest(w, false));
    ls := Walk(s0, ls, held, rest, t, StartTest(w, false), Plain, held, StartCheck(w));
    ls := Walk(s0, ls, held, rest, t, StartCheck(w), Plain, held, Starting(w));
  }

  // --- A stop ---------------------------------------------------------------------------

  /** A thread that can still bring a stopped, unwanted tunnel up: a resume or an automatic start
      about to record a retry, a retry loop that has not given up, a caller of `startTunnelOnce` that
      has not been refused, a manual start past its request, a rebuilding reload, or the automatic
      start itself. (A caller about to look at `pausedBy` during a pause that is still waiting for
      its mutex is treated apart: it is bound to be refused. So is every thread when the service is
      over: the pause is never lifted then.) */
  predicate Reviving(r: Retry, pc: Pc) {
    match pc
    case ResumeRetry(_) => true
    case AutoRetry => true
    case LoopWait(_, _) => true
    case LoopTest(_, _) => true
    case LoopReturned(g, _, a) => a.Failed? && !IsCancelled(r, g)
    case StartLock(_) => true
    case StartRead(_) => true
    case StartTest(_, paused) => !paused
    case StartCheck(_) => true
    case Starting(_) => true
    case StartUnlock(w, a) => a.Failed? && (w.Auto? || (w.Loop? && !IsCancelled(r, w.gen)))
    case ManualTest => true
    case RebuildStop => true
    case RebuildClose => true
    case RebuildCheck(_) => true
    case RebuildBuild(_) => true
    case _ => InCheck(pc) && pc.k.AutoCheck?
  }

  /** A pause is on record but has not stopped the tunnel yet. */
  predicate MidPause(sh: Shared) {
    sh.pause.on.Some? && !sh.pause.done
  }

  predicate Revives(sh: Shared, pc: Pc) {
    Reviving(sh.retry, pc) && !(pc.StartRead? && MidPause(sh)) && !Sealed(sh)
  }

  /** A pause that nobody is left to lift. */
  predicate Sealed(sh: Shared) {
    sh.over && sh.pause.done
  }

  ghost predicate SomeReviving(s: State) {
    exists t :: t in s.threads && Revives(s.sh, s.threads[t])
  }

  /** Some continuation in which nobody asks for the tunnel brings it up. */
  ghost predicate CanRiseUnasked(s: State) {
    exists more :: Executable(s, more) && Asks(s, more) == 0 && Exec(s, more).sh.running
  }

  lemma QuietCheck(sh: Shared, t: Tid, pc: Pc, c: Choice)
    requires CanGo(sh, pc, c) && !Revives(sh, pc) && !Sealed(sh) && !sh.running && !sh.wanted && InCheck(pc)
    ensures var (sh', pc') := ReactCheck(sh, t, pc, c);
      !sh'.running && !sh'.wanted && !Revives(sh', pc') && !c.Child?
  {
  }

  lemma QuietStart(sh: Shared, t: Tid, pc: Pc, c: Choice)
    requires CanGo(sh, pc, c) && !Revives(sh, pc) && !Sealed(sh) && !sh.running && !sh.wanted && InStart(pc)
    ensures var (sh', pc') := ReactStart(sh, t, pc, c);
      !sh'.running && !sh'.wanted && !Revives(sh', pc') && !c.Child?
  {
  }

  lemma QuietLoop(sh: Shared, t: Tid, pc: Pc, c: Choice)
    requires CanGo(sh, pc, c) && !Revives(sh, pc) && !Sealed(sh) && !sh.running && !sh.wanted && InLoop(pc)
    ensures var (sh', pc') := ReactLoop(sh, pc, c);
      !sh'.running && !sh'.wanted && !Revives(sh', pc') && !c.Child?
  {
  }

  lemma QuietOrdinary(sh: Shared, t: Tid, pc: Pc, c: Choice)
    requires CanGo(sh, pc, c) && !Revives(sh, pc) && !Sealed(sh) && !pc.ManualWant? && !sh.running && !sh.wanted
    requires !InCheck(pc) && !InStart(pc) && !InLoop(pc)
    ensures var (sh', pc') := ReactOther(sh, t, pc, c);
      !sh'.running && !sh'.wanted && !Revives(sh', pc') && !c.Child?
  {
  }

  lemma QuietStep(sh: Shared, t: Tid, pc: Pc, c: Choice)
    requires CanGo(sh, pc, c) && !Revives(sh, pc) && !Sealed(sh) && !pc.ManualWant? && !sh.running && !sh.wanted
    ensures var (sh', pc') := React(sh, t, pc, c);
      !sh'.running && !sh'.wanted && !Revives(sh', pc') && !c.Child?
  {
    if InCheck(pc) {
      QuietCheck(sh, t, pc, c);
    } else if InStart(pc) {
      QuietStart(sh, t, pc, c);
    } else if InLoop(pc) {
      QuietLoop(sh, t, pc, c);
    } else {
      QuietOrdinary(sh, t, pc, c);
    }
  }

  lemma {:induction false} SealedRun(s: State, more: seq<Label>)
    requires Inv(s) && OverInv(s) && !s.sh.running && Sealed(s.sh) && Executable(s, more)
    ensures !Exec(s, more).sh.running
    decreases |more|
  {
    if more != [] {
      var l := more[0];
      InvStep(s, l);
      OverStep(s, l);
      if l.Go? {
        assert ThreadOk(s.sh, l.t, s.threads[l.t]);
        NoStartWhilePaused(s.sh, l.t, s.threads[l.t], l.c);
        DoneUntilResume(s.sh, l.t, s.threads[l.t], l.c);
        OverUnchanged(s.sh, l.t, s.threads[l.t], l.c);
      }
      SealedRun(Apply(s, l), more[1..]);
    }
  }

  lemma {:induction false} QuietRun(s: State, more: seq<Label>)
    requires Inv(s) && OverInv(s) && !s.sh.running && !s.sh.wanted && !SomeReviving(s)
    requires Executable(s, more) && Asks(s, more) == 0
    ensures !Exec(s, more).sh.running
    decreases |more|
  {
    if Sealed(s.sh) {
      SealedRun(s, more);
    } else if more != [] {
      var l := more[0];
      var s' := Apply(s, l);
      InvStep(s, l);
      OverStep(s, l);
      if l.Go? {
        QuietStep(s.sh, l.t, s.threads[l.t], l.c);
      }
      forall u | u in s'.threads
        ensures !Revives(s'.sh, s'.threads[u])
      {
        ThreadsAfter(s, l, u);
        if u in s.threads && (l.Go? ==> u != l.t) {
          QuietOther(s, l, u);
        }
      }
      QuietRun(s', more[1..]);
    }
  }

  /** No other thread is revived: contexts stay cancelled, and a pause that waits for its mutex goes
      on waiting while a caller of `startTunnelOnce` holds it. */
  lemma QuietOther(s: State, l: Label, u: Tid)
    requires Inv(s) && Enabled(s, l) && u in s.threads && (l.Go? ==> u != l.t) && !Revives(s.sh, s.threads[u]) && !Sealed(s.sh)
    ensures !Revives(Apply(s, l).sh, s.threads[u])
  {
    assert ThreadOk(s.sh, u, s.threads[u]);
    if l.Go? {
      var pc := s.threads[l.t];
      assert ThreadOk(s.sh, l.t, pc);
      if s.threads[u].StartRead? {
        MidPauseStays(s.sh, l.t, pc, l.c);
      } else if LoopOf(s.threads[u]).Some? {
        CancelledStays(s.sh, l.t, pc, l.c, LoopOf(s.threads[u]).value);
      }
    }
  }

  lemma MidPauseStays(sh: Shared, t: Tid, pc: Pc, c: Choice)
    requires CanGo(sh, pc, c) && ThreadOk(sh, t, pc) && SharedOk(sh) && MidPause(sh) && sh.locks.start != Some(t)
    ensures MidPause(React(sh, t, pc, c).0)
  {
  }

  // The other direction: whoever else holds the locks can be brought to release them, and then the
  // thread gets its way.

  lemma {:induction false} FreshTid(m: map<Tid, Pc>, avoid: Tid) returns (t: Tid)
    ensures t !in m && t != avoid
  {
    t := Above(m.Keys);
    if t <= avoid {
      t := avoid + 1;
    }
  }

  lemma {:induction false} Above(keys: set<Tid>) returns (t: Tid)
    ensures forall k :: k in keys ==> k < t
    decreases |keys|
  {
    if k :| k in keys {
      var u := Above(keys - {k});
      assert forall x :: x in keys ==> x == k || x in keys - {k};
      t := if u <= k then k + 1 else u;
    } else {
      t := 0;
    }
  }

  /** A run that nobody asked for and that ends with the tunnel up. */
  ghost predicate Rises(s0: State, ls: seq<Label>) {
    Executable(s0, ls) && Asks(s0, ls) == 0 && Exec(s0, ls).sh.running
  }

  /** The tunnel is down and unwanted, and no pause is on record. */
  predicate Idle(sh: Shared) {
    !sh.running && !sh.wanted && sh.pause.on.None?
  }

  lemma RiseFromLock(s0: State, ls0: seq<Label>, sh: Shared, rest: map<Tid, Pc>, t: Tid, w: Caller) returns (ls: seq<Label>)
    requires Reaches(s0, ls0, State(sh, rest[t := StartLock(w)])) && Asks(s0, ls0) == 0
    requires Idle(sh) && sh.locks.start.None?
    ensures Rises(s0, ls)
  {
    ls := SoloStart(s0, ls0, sh, rest, t, w, true);
  }

  lemma RiseFromWait(s0: State, ls0: seq<Label>, sh: Shared, rest: map<Tid, Pc>, t: Tid, g: Gen, d: nat) returns (ls: seq<Label>)
    requires Reaches(s0, ls0, State(sh, rest[t := LoopWait(g, d)])) && Asks(s0, ls0) == 0
    requires Idle(sh) && sh.locks.start.None?
    ensures Rises(s0, ls)
  {
    ls := Walk(s0, ls0, sh, rest, t, LoopWait(g, d), OnTimer, sh, LoopTest(g, d));
    ls := RiseFromTest(s0, ls, sh, rest, t, g, d);
  }

  lemma RiseFromTest(s0: State, ls0: seq<Label>, sh: Shared, rest: map<Tid, Pc>, t: Tid, g: Gen, d: nat) returns (ls: seq<Label>)
    requires Reaches(s0, ls0, State(sh, rest[t := LoopTest(g, d)])) && Asks(s0, ls0) == 0
    requires Idle(sh) && sh.locks.start.None?
    ensures Rises(s0, ls)
  {
    var counted := sh.(retry := CountLate(sh.retry, g));
    ls := Walk(s0, ls0, sh, rest, t, LoopTest(g, d), Plain, counted, StartLock(Loop(g, d)));
    ls := RiseFromLock(s0, ls, counted, rest, t, Loop(g, d));
  }

  lemma RiseFromReturned(s0: State, ls0: seq<Label>, sh: Shared, rest: map<Tid, Pc>, t: Tid, g: Gen, d: nat) returns (ls: seq<Label>)
    requires Reaches(s0, ls0, State(sh, rest[t := LoopReturned(g, d, Failed)])) && Asks(s0, ls0) == 0
    requires Idle(sh) && sh.locks.start.None? && !IsCancelled(sh.retry, g)
    ensures Rises(s0, ls)
  {
    ls := Walk(s0, ls0, sh, rest, t, LoopReturned(g, d, Failed), Plain, sh, LoopWait(g, NextDelay(d)));
    ls := RiseFromWait(s0, ls, sh, rest, t, g, NextDelay(d));
  }

  /** A thread about to record a retry. */
  lemma RiseFromSpawn(s0: State, ls0: seq<Label>, s: State, t: Tid) returns (ls: seq<Label>)
    requires Reaches(s0, ls0, s) && Asks(s0, ls0) == 0 && t in s.threads && Spawns(s.threads[t])
    requires Idle(s.sh) && s.sh.locks.start.None?
    ensures Rises(s0, ls)
  {
    var child := FreshTid(s.threads, t);
    var next;
    ls, next := Take(s0, ls0, s, Go(t, Child(child)));
    assert next.threads == next.threads[child := LoopWait(next.sh.retry.gen, RETRY_MIN)];
    ls := RiseFromWait(s0, ls, next.sh, next.threads, child, next.sh.retry.gen, RETRY_MIN);
  }

  lemma RiseFromCheck(s0: State, ls0: seq<Label>, sh: Shared, rest: map<Tid, Pc>, t: Tid, w: Caller) returns (ls: seq<Label>)
    requires Reaches(s0, ls0, State(sh, rest[t := StartCheck(w)])) && Asks(s0, ls0) == 0 && !sh.running
    ensures Rises(s0, ls)
  {
    ls := Walk(s0, ls0, sh, rest, t, StartCheck(w), Plain, sh, Starting(w));
    ls := RiseFromBuild(s0, ls, sh, rest, t, w);
  }

  lemma RiseFromBuild(s0: State, ls0: seq<Label>, sh: Shared, rest: map<Tid, Pc>, t: Tid, w: Caller) returns (ls: seq<Label>)
    requires Reaches(s0, ls0, State(sh, rest[t := Starting(w)])) && Asks(s0, ls0) == 0
    ensures Rises(s0, ls)
  {
    ls := Walk(s0, ls0, sh, rest, t, Starting(w), Outcome(true), sh.(running := true), StartUnlock(w, Up));
  }

  /** A caller of `startTunnelOnce` that holds `startMu`. */
  lemma HolderRises(s0: State, ls0: seq<Label>, s: State, t: Tid) returns (ls: seq<Label>)
    requires Reaches(s0, ls0, s) && Asks(s0, ls0) == 0 && t in s.threads && Reviving(s.sh.retry, s.threads[t])
    requires Idle(s.sh) && InStart(s.threads[t]) && !s.threads[t].StartLock?
    ensures Rises(s0, ls)
  {
    var sh, rest, pc := s.sh, s.threads, s.threads[t];
    assert rest == rest[t := pc];
    match pc
    case StartRead(w) =>
      ls := Walk(s0, ls0, sh, rest, t, pc, Plain, sh, StartTest(w, false));
      ls := Walk(s0, ls, sh, rest, t, StartTest(w, false), Plain, sh, StartCheck(w));
      ls := RiseFromCheck(s0, ls, sh, rest, t, w);
    case StartTest(w, _) =>
      ls := Walk(s0, ls0, sh, rest, t, pc, Plain, sh, StartCheck(w));
      ls := RiseFromCheck(s0, ls, sh, rest, t, w);
    case StartCheck(w) =>
      ls := RiseFromCheck(s0, ls0, sh, rest, t, w);
    case Starting(w) =>
      ls := RiseFromBuild(s0, ls0, sh, rest, t, w);
    case StartUnlock(w, r) =>
      ls := UnlockRises(s0, ls0, sh, rest, t, w);
  }

  lemma UnlockRises(s0: State, ls0: seq<Label>, sh: Shared, rest: map<Tid, Pc>, t: Tid, w: Caller) returns (ls: seq<Label>)
    requires Reaches(s0, ls0, State(sh, rest[t := StartUnlock(w, Failed)])) && Asks(s0, ls0) == 0 && Idle(sh)
    requires w.Auto? || (w.Loop? && !IsCancelled(sh.retry, w.gen))
    ensures Rises(s0, ls)
  {
    var free := sh.(locks := sh.locks.(start := None));
    ls := Walk(s0, ls0, sh, rest, t, StartUnlock(w, Failed), Plain, free, AfterStart(w, Failed));
    if w.Auto? {
      ls := RiseFromSpawn(s0, ls, State(free, rest[t := AutoRetry]), t);
    } else {
      ls := RiseFromReturned(s0, ls, free, rest, t, w.gen, w.delay);
    }
  }

  /** A rebuilding reload needs no lock. */
  lemma ReloadRises(s0: State, ls0: seq<Label>, s: State, t: Tid) returns (ls: seq<Label>)
    requires Reaches(s0, ls0, s) && Asks(s0, ls0) == 0 && t in s.threads && Rebuilding(s.threads[t]) && !s.sh.running
    ensures Rises(s0, ls)
    decreases StepsToGo(s.threads[t])
  {
    var next;
    if s.threads[t].RebuildBuild? {
      ls, next := Take(s0, ls0, s, Go(t, Outcome(true)));
    } else {
      ls, next := Take(s0, ls0, s, Go(t, Plain));
      ls := ReloadRises(s0, ls, next, t);
    }
  }

  /** The holder of `startMu` brings the tunnel up or lets go of the mutex. */
  lemma FreeStart(s0: State, ls0: seq<Label>, s: State, u: Tid) returns (ls: seq<Label>, next: State)
    requires Reaches(s0, ls0, s) && Asks(s0, ls0) == 0 && Inv(s) && Idle(s.sh) && s.sh.locks.start == Some(u)
    ensures Rises(s0, ls) || (Reaches(s0, ls, next) && Asks(s0, ls) == 0 && next.sh == s.sh.(locks := s.sh.locks.(start := None)))
    ensures next.threads.Keys == s.threads.Keys && forall t :: t in s.threads && t != u ==> next.threads[t] == s.threads[t]
  {
    var sh, rest, pc := s.sh, s.threads, s.threads[u];
    assert rest == rest[u := pc];
    assert ThreadOk(sh, u, pc);
    next := s;
    if InStart(pc) && Reviving(sh.retry, pc) {
      ls := HolderRises(s0, ls0, s, u);
    } else if pc.StartTest? || pc.StopDown? || pc.StopClose? {
      var pc' := if pc.StartTest? then StartUnlock(pc.w, Paused) else StopUnlock;
      ls := Walk(s0, ls0, sh, rest, u, pc, Plain, sh, pc');
      ls, next := LetGo(s0, ls, State(sh, rest[u := pc']), u);
    } else {
      ls, next := LetGo(s0, ls0, s, u);
    }
  }

  lemma LetGo(s0: State, ls0: seq<Label>, s: State, u: Tid) returns (ls: seq<Label>, next: State)
    requires Reaches(s0, ls0, s) && Asks(s0, ls0) == 0 && u in s.threads
    requires s.threads[u].StartUnlock? || s.threads[u].StopUnlock?
    ensures Reaches(s0, ls, next) && Asks(s0, ls) == 0 && next.sh == s.sh.(locks := s.sh.locks.(start := None))
    ensures next.threads.Keys == s.threads.Keys && forall t :: t in s.threads && t != u ==> next.threads[t] == s.threads[t]
  {
    ls, next := Take(s0, ls0, s, Go(u, Plain));
  }

  // --- The automatic start --------------------------------------------------------------

  lemma RiseFromUnlock(s0: State, ls0: seq<Label>, sh: Shared, rest: map<Tid, Pc>, t: Tid, paused: bool) returns (ls: seq<Label>)
    requires Reaches(s0, ls0, State(sh, rest[t := CheckUnlock(AutoCheck, paused)])) && Asks(s0, ls0) == 0
    requires Idle(sh) && sh.locks.start.None?
    ensures Rises(s0, ls)
  {
    var free := sh.(locks := sh.locks.(conflict := None));
    ls := Walk(s0, ls0, sh, rest, t, CheckUnlock(AutoCheck, paused), Plain, free, StartLock(Auto));
    ls := RiseFromLock(s0, ls, free, rest, t, Auto);
  }

  /** A start that was paused by its own check gets its way once the pause is lifted. */
  lemma RiseAfterPause(s0: State, ls0: seq<Label>, sh: Shared, rest: map<Tid, Pc>, t: Tid) returns (ls: seq<Label>)
    requires Reaches(s0, ls0, State(sh, rest[t := StartLock(Auto)])) && Asks(s0, ls0) == 0
    requires !sh.running && !sh.wanted && sh.pause.on.Some? && sh.locks == Free() && !sh.over
    ensures Rises(s0, ls)
  {
    var all := rest[t := StartLock(Auto)];
    var u := FreshTid(all, t);
    var child := FreshTid(all, u);
    var others;
    ls, others := SoloCheck(s0, ls0, sh, all, u, WatcherCheck, Listed(None), child);
    var threads := others[u := Finished];
    assert threads == threads[t := StartLock(Auto)];
    ls := RiseFromLock(s0, ls, ResumedAlone(sh), threads, t, Auto);
  }

  lemma AutoRises(s0: State, ls0: seq<Label>, s: State, t: Tid) returns (ls: seq<Label>)
    requires Reaches(s0, ls0, s) && Asks(s0, ls0) == 0 && Inv(s) && Idle(s.sh) && s.sh.locks.start.None?
    requires t in s.threads && InCheck(s.threads[t]) && s.threads[t].k.AutoCheck? && !s.threads[t].CheckLock? && !s.sh.over
    ensures Rises(s0, ls)
  {
    var sh, rest, pc := s.sh, s.threads, s.threads[t];
    assert rest == rest[t := pc];
    assert ThreadOk(sh, t, pc);
    match pc
    case CheckRead(_) =>
      ls := Walk(s0, ls0, sh, rest, t, pc, Plain, sh, CheckList(AutoCheck, false));
      ls := Walk(s0, ls, sh, rest, t, CheckList(AutoCheck, false), ListFailed, sh, CheckUnlock(AutoCheck, false));
      ls := RiseFromUnlock(s0, ls, sh, rest, t, false);
    case CheckList(_, was) =>
      ls := Walk(s0, ls0, sh, rest, t, pc, ListFailed, sh, CheckUnlock(AutoCheck, was));
      ls := RiseFromUnlock(s0, ls, sh, rest, t, was);
    case CheckUnlock(_, paused) =>
      ls := RiseFromUnlock(s0, ls0, sh, rest, t, paused);
    case ResumeRetry(_) =>
      ls := RiseFromSpawn(s0, ls0, s, t);
    case PauseSet(_, hit) =>
      ls := PausedAutoRises(s0, ls0, sh, rest, t, hit);
  }

  lemma PausedAutoRises(s0: State, ls0: seq<Label>, sh: Shared, rest: map<Tid, Pc>, t: Tid, hit: Adapter) returns (ls: seq<Label>)
    requires Reaches(s0, ls0, State(sh, rest[t := PauseSet(AutoCheck, hit)])) && Asks(s0, ls0) == 0
    requires Idle(sh) && !sh.pause.done && sh.locks == Locks(None, Some(t)) && !sh.over
    ensures Rises(s0, ls)
  {
    ls := SoloPause(s0, ls0, sh, rest, t, AutoCheck, hit);
    var paused := PausedAlone(sh, hit);
    var free := paused.(locks := Free());
    ls := Walk(s0, ls, paused, rest, t, CheckUnlock(AutoCheck, true), Plain, free, StartLock(Auto));
    ls := RiseAfterPause(s0, ls, free, rest, t);
  }

  /** The holder of `conflictMu` brings the tunnel up or lets go of the mutex, maybe leaving a pause. */
  lemma FreeConflict(s0: State, ls0: seq<Label>, s: State, u: Tid) returns (ls: seq<Label>, next: State)
    requires Reaches(s0, ls0, s) && Asks(s0, ls0) == 0 && Inv(s) && Idle(s.sh) && s.sh.locks == Locks(None, Some(u))
    ensures Rises(s0, ls) || (Reaches(s0, ls, next) && Asks(s0, ls) == 0 && !next.sh.running && !next.sh.wanted && next.sh.locks == Free()
                              && (next.sh.pause.on.None? ==> !next.sh.pause.done))
    ensures next.threads.Keys == s.threads.Keys && forall t :: t in s.threads && t != u ==> next.threads[t] == s.threads[t]
  {
    var sh, rest, pc := s.sh, s.threads, s.threads[u];
    assert rest == rest[u := pc];
    assert ThreadOk(sh, u, pc);
    next := s;
    match pc
    case CheckRead(k) =>
      ls := Walk(s0, ls0, sh, rest, u, pc, Plain, sh, CheckList(k, false));
      ls := Walk(s0, ls, sh, rest, u, CheckList(k, false), ListFailed, sh, CheckUnlock(k, false));
      ls, next := ReleaseConflict(s0, ls, sh, rest, u, k, false);
    case CheckList(k, was) =>
      ls := Walk(s0, ls0, sh, rest, u, pc, ListFailed, sh, CheckUnlock(k, was));
      ls, next := ReleaseConflict(s0, ls, sh, rest, u, k, was);
    case CheckUnlock(k, paused) =>
      ls, next := ReleaseConflict(s0, ls0, sh, rest, u, k, paused);
    case ResumeRetry(_) =>
      ls := RiseFromSpawn(s0, ls0, s, u);
    case PauseSet(k, hit) =>
      ls := SoloPause(s0, ls0, sh, rest, u, k, hit);
      ls, next := ReleaseConflict(s0, ls, PausedAlone(sh, hit), rest, u, k, true);
  }

  lemma ReleaseConflict(s0: State, ls0: seq<Label>, sh: Shared, rest: map<Tid, Pc>, u: Tid, k: Checker, paused: bool)
    returns (ls: seq<Label>, next: State)
    requires Reaches(s0, ls0, State(sh, rest[u := CheckUnlock(k, paused)])) && Asks(s0, ls0) == 0 && u in rest
    ensures Reaches(s0, ls, next) && Asks(s0, ls) == 0
    ensures next == State(sh.(locks := sh.locks.(conflict := None)), rest[u := AfterCheck(k, paused)])
  {
    next := State(sh.(locks := sh.locks.(conflict := None)), rest[u := AfterCheck(k, paused)]);
    ls := Walk(s0, ls0, sh, rest, u, CheckUnlock(k, paused), Plain, next.sh, AfterCheck(k, paused));
  }

  /** The automatic start at the door of its own check. */
  lemma AutoEnters(s0: State, ls0: seq<Label>, s: State, t: Tid) returns (ls: seq<Label>)
    requires Reaches(s0, ls0, s) && Asks(s0, ls0) == 0 && !s.sh.running && !s.sh.wanted && s.sh.locks == Free()
    requires s.sh.pause.on.None? ==> !s.sh.pause.done
    requires t in s.threads && s.threads[t] == CheckLock(AutoCheck)
    ensures Rises(s0, ls)
  {
    var child := FreshTid(s.threads, t);
    var others;
    assert s.threads == s.threads[t := CheckLock(AutoCheck)];
    ls, others := SoloCheckFrom(s0, ls0, s.sh, s.threads, t, AutoCheck, Listed(None), child);
    ls := RiseFromLock(s0, ls, CheckedAlone(s.sh, Listed(None)), others, t, Auto);
  }

  // --- Every thread that can, does ------------------------------------------------------

  /** With `startMu` free. */
  lemma UnlockedRises(s0: State, ls0: seq<Label>, s: State, t: Tid) returns (ls: seq<Label>)
    requires Reaches(s0, ls0, s) && Asks(s0, ls0) == 0 && Inv(s) && Idle(s.sh) && s.sh.locks.start.None?
    requires t in s.threads && Reviving(s.sh.retry, s.threads[t]) && !Rebuilding(s.threads[t])
    requires InCheck(s.threads[t]) ==> !s.sh.over
    ensures Rises(s0, ls)
  {
    var sh, rest, pc := s.sh, s.threads, s.threads[t];
    assert rest == rest[t := pc];
    assert ThreadOk(sh, t, pc);
    if InCheck(pc) && pc.k.AutoCheck? {
      if pc.CheckLock? {
        if sh.locks.conflict.Some? {
          var u := sh.locks.conflict.value;
          assert ThreadOk(sh, u, s.threads[u]);
          var next;
          ls, next := FreeConflict(s0, ls0, s, u);
          if !Rises(s0, ls) {
            ls := AutoEnters(s0, ls, next, t);
          }
        } else {
          ls := AutoEnters(s0, ls0, s, t);
        }
      } else {
        ls := AutoRises(s0, ls0, s, t);
      }
    } else if Spawns(pc) {
      ls := RiseFromSpawn(s0, ls0, s, t);
    } else {
      match pc
      case StartLock(w) => ls := RiseFromLock(s0, ls0, sh, rest, t, w);
      case LoopWait(g, d) => ls := RiseFromWait(s0, ls0, sh, rest, t, g, d);
      case LoopTest(g, d) => ls := RiseFromTest(s0, ls0, sh, rest, t, g, d);
      case LoopReturned(g, d, _) => ls := RiseFromReturned(s0, ls0, sh, rest, t, g, d);
      case ManualTest =>
        ls := Walk(s0, ls0, sh, rest, t, pc, Plain, sh, StartLock(Manual));
        ls := RiseFromLock(s0, ls, sh, rest, t, Manual);
    }
  }

  /** With no pause on record. */
  lemma IdleRises(s0: State, ls0: seq<Label>, s: State, t: Tid) returns (ls: seq<Label>)
    requires Reaches(s0, ls0, s) && Asks(s0, ls0) == 0 && Inv(s0) && Inv(s) && Idle(s.sh)
    requires t in s.threads && Reviving(s.sh.retry, s.threads[t]) && (InCheck(s.threads[t]) ==> !s.sh.over)
    ensures Rises(s0, ls)
  {
    var pc := s.threads[t];
    assert ThreadOk(s.sh, t, pc);
    if Rebuilding(pc) {
      ls := ReloadRises(s0, ls0, s, t);
    } else if InStart(pc) && !pc.StartLock? {
      ls := HolderRises(s0, ls0, s, t);
    } else if s.sh.locks.start.Some? {
      var u := s.sh.locks.start.value;
      var next;
      ls, next := FreeStart(s0, ls0, s, u);
      if !Rises(s0, ls) {
        InvRun(s0, ls);
        ls := FreedRises(s0, ls, s, next, t, u);
      }
    } else {
      ls := UnlockedRises(s0, ls0, s, t);
    }
  }

  lemma FreedRises(s0: State, ls0: seq<Label>, s: State, next: State, t: Tid, u: Tid) returns (ls: seq<Label>)
    requires Reaches(s0, ls0, next) && Asks(s0, ls0) == 0 && Inv(s) && Inv(next) && Idle(s.sh)
    requires s.sh.locks.start == Some(u) && next.sh == s.sh.(locks := s.sh.locks.(start := None))
    requires next.threads.Keys == s.threads.Keys && forall v :: v in s.threads && v != u ==> next.threads[v] == s.threads[v]
    requires t in s.threads && Reviving(s.sh.retry, s.threads[t]) && !Rebuilding(s.threads[t])
    requires t != u && (InCheck(s.threads[t]) ==> !s.sh.over)
    ensures Rises(s0, ls)
  {
    assert ThreadOk(s.sh, t, s.threads[t]);
    ls := UnlockedRises(s0, ls0, next, t);
  }

  // --- ... and under a pause, once it is lifted -----------------------------------------

  /** A thread that gets its way whatever happens to the retry record: only locks are in its way. */
  predicate Robust(pc: Pc) {
    pc.LoopWait? || pc.LoopTest? || pc.StartLock? || pc.StartRead? || pc.ManualTest? || (InCheck(pc) && pc.k.AutoCheck?)
  }

  /** The tunnel is down and unwanted, the service is not over, and `t` is such a thread. */
  predicate Waiting(s: State, t: Tid) {
    !s.sh.running && !s.sh.wanted && !s.sh.over && t in s.threads && Robust(s.threads[t])
  }

  /** A thread past the look at `pausedBy` is not stopped by a pause. */
  lemma CommittedRises(s0: State, ls0: seq<Label>, s: State, t: Tid) returns (ls: seq<Label>)
    requires Reaches(s0, ls0, s) && Asks(s0, ls0) == 0 && t in s.threads && Committed(s.threads[t]) && !s.sh.running
    ensures Rises(s0, ls)
  {
    var sh, rest, pc := s.sh, s.threads, s.threads[t];
    assert rest == rest[t := pc];
    match pc
    case StartTest(w, _) =>
      ls := Walk(s0, ls0, sh, rest, t, pc, Plain, sh, StartCheck(w));
      ls := RiseFromCheck(s0, ls, sh, rest, t, w);
    case StartCheck(w) =>
      ls := RiseFromCheck(s0, ls0, sh, rest, t, w);
    case Starting(w) =>
      ls := RiseFromBuild(s0, ls0, sh, rest, t, w);
  }

  /** A thread that may lose its context goes to its next wait first. */
  lemma Settle(s: State, t: Tid) returns (ls: seq<Label>, next: State, t': Tid)
    requires !s.sh.running && !s.sh.wanted && t in s.threads && Reviving(s.sh.retry, s.threads[t])
    requires !Rebuilding(s.threads[t]) && !Committed(s.threads[t]) && !s.sh.over
    ensures Reaches(s, ls, next) && Asks(s, ls) == 0 && Waiting(next, t') && next.sh.pause == s.sh.pause
    ensures next.threads[t'].StartRead? ==> s.threads[t].StartRead?
  {
    var sh, rest, pc := s.sh, s.threads, s.threads[t];
    assert rest == rest[t := pc];
    match pc
    case LoopReturned(g, d, _) =>
      ls := Walk(s, [], sh, rest, t, pc, Plain, sh, LoopWait(g, NextDelay(d)));
      next, t' := State(sh, rest[t := LoopWait(g, NextDelay(d))]), t;
    case StartUnlock(w, _) =>
      var free := sh.(locks := sh.locks.(start := None));
      ls := Walk(s, [], sh, rest, t, pc, Plain, free, AfterStart(w, Failed));
      if w.Auto? {
        ls, next, t' := SpawnLoop(s, ls, State(free, rest[t := AutoRetry]), t);
      } else {
        var wait := LoopWait(w.gen, NextDelay(w.delay));
        ls := Walk(s, ls, free, rest, t, LoopReturned(w.gen, w.delay, Failed), Plain, free, wait);
        next, t' := State(free, rest[t := wait]), t;
      }
    case AutoRetry =>
      ls, next, t' := SpawnLoop(s, [], s, t);
    case ResumeRetry(_) =>
      ls, next, t' := SpawnLoop(s, [], s, t);
    case _ =>
      ls, next, t' := [], s, t;
  }

  lemma SpawnLoop(s0: State, ls0: seq<Label>, s: State, t: Tid) returns (ls: seq<Label>, next: State, child: Tid)
    requires Reaches(s0, ls0, s) && Asks(s0, ls0) == 0 && t in s.threads && Spawns(s.threads[t])
    requires !s.sh.running && !s.sh.wanted && !s.sh.over
    ensures Reaches(s0, ls, next) && Asks(s0, ls) == 0 && Waiting(next, child) && next.sh.pause == s.sh.pause
    ensures next.threads[child].LoopWait?
  {
    child := FreshTid(s.threads, t);
    ls, next := Take(s0, ls0, s, Go(t, Child(child)));
  }

  /** A step of another thread, or of `t` inside its own check. */
  lemma StillWaiting(s0: State, ls0: seq<Label>, s: State, t: Tid, u: Tid, c: Choice) returns (ls: seq<Label>, next: State)
    requires Reaches(s0, ls0, s) && Asks(s0, ls0) == 0 && Waiting(s, t) && Enabled(s, Go(u, c)) && !c.Child?
    requires u != t || InCheck(s.threads[u])
    requires !s.threads[u].ManualWant? && !Apply(s, Go(u, c)).sh.running && !Apply(s, Go(u, c)).sh.wanted
    ensures Reaches(s0, ls, next) && Asks(s0, ls) == 0 && Waiting(next, t) && next == Apply(s, Go(u, c))
  {
    OverUnchanged(s.sh, u, s.threads[u], c);
    ls, next := Take(s0, ls0, s, Go(u, c));
  }

  /** The holder of `startMu` gets out of a pause's way, or brings the tunnel up. */
  lemma MakeWay(s0: State, ls0: seq<Label>, s: State, t: Tid, v: Tid) returns (ls: seq<Label>, next: State)
    requires Reaches(s0, ls0, s) && Asks(s0, ls0) == 0 && Inv(s) && Waiting(s, t) && MidPause(s.sh)
    requires s.sh.locks.start == Some(v) && t != v && !Pausing(s.threads[v])
    ensures Rises(s0, ls) || (Reaches(s0, ls, next) && Asks(s0, ls) == 0 && Waiting(next, t)
                              && next.sh == s.sh.(locks := s.sh.locks.(start := None)))
    ensures next.threads.Keys == s.threads.Keys && forall u :: u in s.threads && u != v ==> next.threads[u] == s.threads[u]
    decreases if s.threads[v].StartRead? then 3 else if s.threads[v].StartUnlock? || s.threads[v].StopUnlock? then 1 else 2
  {
    assert ThreadOk(s.sh, v, s.threads[v]);
    next := s;
    if Committed(s.threads[v]) {
      ls := CommittedRises(s0, ls0, s, v);
    } else {
      ls, next := StillWaiting(s0, ls0, s, t, v, Plain);
      if s.threads[v].StartRead? || s.threads[v].StartTest? || s.threads[v].StopDown? || s.threads[v].StopClose? {
        InvStep(s, Go(v, Plain));
        ls, next := MakeWay(s0, ls, next, t, v);
      }
    }
  }

  /** A pause that is under way finishes. */
  lemma FinishPause(s0: State, ls0: seq<Label>, s: State, t: Tid) returns (ls: seq<Label>, next: State)
    requires Inv(s0) && Reaches(s0, ls0, s) && Asks(s0, ls0) == 0 && Inv(s) && Waiting(s, t) && MidPause(s.sh)
    requires !s.threads[t].StartRead?
    ensures Rises(s0, ls) || (Reaches(s0, ls, next) && Asks(s0, ls) == 0 && Waiting(next, t) && next.sh.pause.done)
  {
    var u := s.sh.locks.conflict.value;
    assert ThreadOk(s.sh, u, s.threads[u]);
    ls, next := ToMutex(s0, ls0, s, t, u);
    InvRun(s0, ls);
    if next.threads[u].PauseLock? {
      ls, next := PauseLocks(s0, ls, next, t, u);
    }
    if !Rises(s0, ls) {
      ls, next := StillWaiting(s0, ls, next, t, u, Plain);
    }
  }

  /** The pause takes and cancels the retry on record. */
  lemma ToMutex(s0: State, ls0: seq<Label>, s: State, t: Tid, u: Tid) returns (ls: seq<Label>, next: State)
    requires Reaches(s0, ls0, s) && Asks(s0, ls0) == 0 && Waiting(s, t) && MidPause(s.sh)
    requires u in s.threads && Pausing(s.threads[u]) && !s.threads[t].StartRead?
    ensures Reaches(s0, ls, next) && Asks(s0, ls) == 0 && Waiting(next, t) && MidPause(next.sh) && !next.threads[t].StartRead?
    ensures u in next.threads && (next.threads[u].PauseLock? || next.threads[u].PauseStop?)
    decreases if s.threads[u].PauseTake? then 2 else if s.threads[u].PauseCancel? then 1 else 0
  {
    if s.threads[u].PauseTake? || s.threads[u].PauseCancel? {
      ls, next := StillWaiting(s0, ls0, s, t, u, Plain);
      ls, next := ToMutex(s0, ls, next, t, u);
    } else {
      ls, next := ls0, s;
    }
  }

  /** ... and its mutex. */
  lemma PauseLocks(s0: State, ls0: seq<Label>, s: State, t: Tid, u: Tid) returns (ls: seq<Label>, next: State)
    requires Reaches(s0, ls0, s) && Asks(s0, ls0) == 0 && Inv(s) && Waiting(s, t) && MidPause(s.sh)
    requires u in s.threads && s.threads[u].PauseLock? && !s.threads[t].StartRead?
    ensures Rises(s0, ls) || (Reaches(s0, ls, next) && Asks(s0, ls) == 0 && Waiting(next, t))
    ensures Rises(s0, ls) || (u in next.threads && next.threads[u].PauseStop? && next.sh.pause.on.Some?)
  {
    assert ThreadOk(s.sh, u, s.threads[u]) && ThreadOk(s.sh, t, s.threads[t]);
    ls, next := ls0, s;
    if s.sh.locks.start.Some? {
      var v := s.sh.locks.start.value;
      assert ThreadOk(s.sh, v, s.threads[v]);
      ls, next := MakeWay(s0, ls0, s, t, v);
    }
    if !Rises(s0, ls) {
      ls, next := StillWaiting(s0, ls, next, t, u, Plain);
    }
  }

  /** A finished pause is lifted, by whoever holds `conflictMu` or by the network watcher. */
  lemma LiftPause(s0: State, ls0: seq<Label>, s: State, t: Tid) returns (ls: seq<Label>, next: State)
    requires Inv(s0) && Reaches(s0, ls0, s) && Asks(s0, ls0) == 0 && Inv(s) && Waiting(s, t) && s.sh.pause.done
    ensures Reaches(s0, ls, next) && Asks(s0, ls) == 0 && Waiting(next, t) && Idle(next.sh)
  {
    var u;
    if s.sh.locks.conflict.Some? {
      u := s.sh.locks.conflict.value;
      assert ThreadOk(s.sh, u, s.threads[u]);
      ls, next := ToNextCheck(s0, ls0, s, t, u);
    } else {
      ls, next := ls0, s;
    }
    if next.sh.locks.conflict.None? {
      InvRun(s0, ls);
      ls, next, u := WatcherEnters(s0, ls, next, t);
    }
    InvRun(s0, ls);
    ls, next := ToResume(s0, ls, next, t, u);
  }

  /** A holder of `conflictMu` that has decided already lets go of it. */
  lemma ToNextCheck(s0: State, ls0: seq<Label>, s: State, t: Tid, u: Tid) returns (ls: seq<Label>, next: State)
    requires Inv(s0) && Reaches(s0, ls0, s) && Asks(s0, ls0) == 0 && Inv(s) && Waiting(s, t) && s.sh.pause.done
    requires u in s.threads && s.sh.locks.conflict == Some(u)
    ensures Reaches(s0, ls, next) && Asks(s0, ls) == 0 && Waiting(next, t) && next.sh.pause.done
    ensures next.sh.locks.conflict.None? || (u in next.threads && Deciding(next.threads[u]))
    decreases if s.threads[u].CheckUnlock? then 1 else if s.threads[u].PauseClose? then 3 else 2
  {
    assert ThreadOk(s.sh, u, s.threads[u]);
    if Deciding(s.threads[u]) {
      ls, next := ls0, s;
    } else {
      ls, next := StillWaiting(s0, ls0, s, t, u, Plain);
      if !s.threads[u].CheckUnlock? {
        InvRun(s0, ls);
        ls, next := ToNextCheck(s0, ls, next, t, u);
      }
    }
  }

  /** A check that may still decide to resume. */
  predicate Deciding(pc: Pc) {
    pc.CheckRead? || pc.CheckList? || pc.ResumeClear?
  }

  lemma WatcherEnters(s0: State, ls0: seq<Label>, s: State, t: Tid) returns (ls: seq<Label>, next: State, u: Tid)
    requires Reaches(s0, ls0, s) && Asks(s0, ls0) == 0 && Waiting(s, t) && s.sh.pause.done && s.sh.locks.conflict.None?
    ensures Reaches(s0, ls, next) && Asks(s0, ls) == 0 && Waiting(next, t) && next.sh.pause.done
    ensures u in next.threads && Deciding(next.threads[u])
  {
    u := FreshTid(s.threads, t);
    ls := Enter(s0, ls0, s.sh, s.threads, u, CheckLock(WatcherCheck));
    ls, next := StillWaiting(s0, ls, State(s.sh, s.threads[u := CheckLock(WatcherCheck)]), t, u, Plain);
  }

  lemma ToResume(s0: State, ls0: seq<Label>, s: State, t: Tid, u: Tid) returns (ls: seq<Label>, next: State)
    requires Inv(s0) && Reaches(s0, ls0, s) && Asks(s0, ls0) == 0 && Inv(s) && Waiting(s, t) && s.sh.pause.done
    requires u in s.threads && Deciding(s.threads[u])
    ensures Reaches(s0, ls, next) && Asks(s0, ls) == 0 && Waiting(next, t) && Idle(next.sh)
    decreases if s.threads[u].CheckRead? then 2 else if s.threads[u].CheckList? then 1 else 0
  {
    assert ThreadOk(s.sh, u, s.threads[u]);
    ls, next := StillWaiting(s0, ls0, s, t, u, if s.threads[u].CheckList? then Listed(None) else Plain);
    if !s.threads[u].ResumeClear? {
      InvRun(s0, ls);
      ls, next := ToResume(s0, ls, next, t, u);
    }
  }

  /** A pause is not sealed unless it is done: whoever is still at it keeps the service from being over. */
  lemma PauseNotSealed(s: State)
    requires Inv(s) && OverInv(s) && s.sh.pause.on.Some? && !Sealed(s.sh)
    ensures !s.sh.over
  {
    if s.sh.locks.conflict.Some? {
      var u := s.sh.locks.conflict.value;
      assert ThreadOk(s.sh, u, s.threads[u]);
      assert s.sh.over ==> LastOne(s.threads[u]);
    }
  }

  /** Whatever the pause, whoever holds the locks: the thread can be led to bring the tunnel up. */
  lemma ThreadRises(s: State, t: Tid) returns (ls: seq<Label>)
    requires Inv(s) && OverInv(s) && !s.sh.running && !s.sh.wanted && t in s.threads && Revives(s.sh, s.threads[t])
    ensures Rises(s, ls)
  {
    if Rebuilding(s.threads[t]) {
      ls := ReloadRises(s, [], s, t);
    } else if Committed(s.threads[t]) {
      ls := CommittedRises(s, [], s, t);
    } else if s.sh.pause.on.None? {
      ls := IdleRises(s, [], s, t);
    } else {
      PauseNotSealed(s);
      var next, t';
      ls, next, t' := Settle(s, t);
      InvRun(s, ls);
      if MidPause(s.sh) {
        ls, next := FinishPause(s, ls, next, t');
      }
      if !Rises(s, ls) {
        InvRun(s, ls);
        ls, next := LiftPause(s, ls, next, t');
        InvRun(s, ls);
        ls := IdleRises(s, ls, next, t');
      }
    }
  }

  /** What a stop is worth: from a state with the tunnel down and unwanted, the tunnel can come up
      without being asked for if and only if one of these threads is still under way. */
  lemma StopOverriddenExactly(wanted: bool, ls: seq<Label>)
    requires Executable(Init(wanted), ls) && !Exec(Init(wanted), ls).sh.running && !Exec(Init(wanted), ls).sh.wanted
    ensures CanRiseUnasked(Exec(Init(wanted), ls)) <==> SomeReviving(Exec(Init(wanted), ls))
  {
    InvRun(Init(wanted), ls);
    OverRun(Init(wanted), ls);
    var s := Exec(Init(wanted), ls);
    if SomeReviving(s) {
      var t :| t in s.threads && Revives(s.sh, s.threads[t]);
      var more := ThreadRises(s, t);
    } else {
      forall more | Executable(s, more) && Asks(s, more) == 0
        ensures !Exec(s, more).sh.running
      {
        QuietRun(s, more);
      }
    }
  }

  /** A whole `StopTunnel` fits into a `resume` that had found the tunnel wanted: afterwards a retry is
      recorded all the same, and brings the tunnel up though nobody asked for it. */
  lemma ResumeOverridesStop() returns (stopped: seq<Label>, more: seq<Label>)
    ensures Executable(Init(true), stopped)
    ensures var s := Exec(Init(true), stopped);
      && 3 in s.threads && s.threads[3] == Finished && !s.sh.running && !s.sh.wanted && s.sh.retry.cancel.None?
      && Rises(s, more)
  {
    var s0 := Init(true);
    var paused := Stopped(s0.sh).(pause := Pause(Some(7), true));
    var first: map<Tid, Pc> := map[1 := Finished];
    stopped := WholePause(s0, [], s0.sh, map[], 1);
    assert map[][1 := Finished] == first;
    stopped := ResumeBegun(s0, stopped, paused, first, 2);
    var resuming := paused.(pause := Pause(None, false), locks := Locks(None, Some(2)));
    var rest := first[2 := ResumeRetry(WatcherCheck)];
    stopped := SoloStop(s0, stopped, resuming, rest, 3);
    var s := Exec(s0, stopped);
    assert s == State(StoppedAlone(resuming), rest[3 := Finished]);
    more := RiseFromSpawn(s, [], s, 2);
  }

  lemma ResumeBegun(s0: State, ls0: seq<Label>, sh: Shared, rest: map<Tid, Pc>, t: Tid) returns (ls: seq<Label>)
    requires Reaches(s0, ls0, State(sh, rest)) && t !in rest && sh.locks == Free() && sh.pause.on.Some? && sh.wanted && !sh.over
    ensures Reaches(s0, ls, State(sh.(pause := Pause(None, false), locks := Locks(None, Some(t))),
                                  rest[t := ResumeRetry(WatcherCheck)]))
  {
    var k := WatcherCheck;
    var one := sh.(locks := Locks(None, Some(t)));
    ls := Enter(s0, ls0, sh, rest, t, CheckLock(k));
    ls := Walk(s0, ls, sh, rest, t, CheckLock(k), Plain, one, CheckRead(k));
    ls := Walk(s0, ls, one, rest, t, CheckRead(k), Plain, one, CheckList(k, true));
    ls := Walk(s0, ls, one, rest, t, CheckList(k, true), Listed(None), one, ResumeClear(k));
    ls := Walk(s0, ls, one, rest, t, ResumeClear(k), Plain, one.(pause := Pause(None, false)), ResumeRetry(k));
  }
}
