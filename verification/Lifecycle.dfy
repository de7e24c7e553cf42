/** Start, pause, resume, stop and background retry of internal/service/manager.go, as a step
    machine: any number of threads, one step per critical section of `mu`, per lock operation
    on `startMu` or `conflictMu`, and per operation of the tunnel. */
module Lifecycle {
  import opened Basics

  type Tid = nat
  type Gen = nat
  type Adapter = nat

  const RETRY_MIN: nat := 1
  const RETRY_MAX: nat := 60

  /** Who called `startTunnelOnce`, and so where it returns to. */
  datatype Caller = Auto | Manual | Loop(gen: Gen, delay: nat)

  /** Who called `checkConflict`. */
  datatype Checker = AutoCheck | WatcherCheck | SettleCheck

  datatype Attempt = Up | Failed | Paused

  /** A `Tunnel.Stop` that finds the tunnel running clears `running` in one step and has the device
      still to close in the next; one that does not returns at once. */
  datatype Pc =
    // checkConflict
    | CheckLock(k: Checker) | CheckRead(k: Checker) | CheckList(k: Checker, was: bool) | CheckUnlock(k: Checker, paused: bool)
    // pause, and the change of adapter while already paused
    | PauseSet(k: Checker, hit: Adapter) | PauseTake(k: Checker) | PauseCancel(k: Checker, owed: Option<Gen>)
    | PauseLock(k: Checker) | PauseStop(k: Checker) | PauseClose(k: Checker) | PauseUnlock(k: Checker)
    | PauseMove(k: Checker, hit: Adapter)
    // resume
    | ResumeClear(k: Checker) | ResumeRetry(k: Checker)
    // startTunnelOnce
    | StartLock(w: Caller) | StartRead(w: Caller) | StartTest(w: Caller, paused: bool)
    | StartCheck(w: Caller) | Starting(w: Caller)      // in Tunnel.Start: its check of running, and past it
    | StartUnlock(w: Caller, r: Attempt)
    | AutoRetry
    // StartTunnel, StopTunnel, networkSettled, Reload
    | ManualWant | ManualTest
    | StopWant | StopTake | StopCancel(owed: Option<Gen>) | StopLock | StopDown | StopClose | StopUnlock
    | SettleTest
    | ReloadTunnel                   // a whole reload as one step
    // a reload step by step: it reads running, and to rebuild the tunnel stops it and starts it with
    // the new configuration or, again, with the previous one
    | ReloadRead | RebuildStop | RebuildClose | RebuildCheck(again: bool) | RebuildBuild(again: bool)
    | DownClose                      // the service's last Stop
    // the retry loop
    | LoopWait(gen: Gen, delay: nat) | LoopTest(gen: Gen, delay: nat) | LoopReturned(gen: Gen, delay: nat, r: Attempt)
    | LoopCancel(gen: Gen) | LoopClear(gen: Gen)
    | Finished

  datatype Locks = Locks(start: Option<Tid>, conflict: Option<Tid>)

  /** `pausedBy`, and whether the pause on record has stopped the tunnel (a history). */
  datatype Pause = Pause(on: Option<Adapter>, done: bool)

  /** `retryGen` and `retryCancel`, the contexts cancelled so far, and `down` for the service's
      own context, parent of all the others. `late` is a history: the start attempts a retry
      loop began after its context was cancelled. */
  datatype Retry = Retry(gen: Gen, cancel: Option<Gen>, cancelled: set<Gen>, down: bool, late: map<Gen, nat>)

  /** `rebuilt` is a history: a reload has restarted the tunnel since it was last stopped. `over` says
      that the service has begun its last Stop of the tunnel. */
  datatype Shared =
    Shared(locks: Locks, pause: Pause, running: bool, rebuilt: bool, wanted: bool, wake: bool, over: bool, retry: Retry)

  datatype State = State(sh: Shared, threads: map<Tid, Pc>)

  datatype Choice =
    | Plain
    | ListFailed | Listed(hit: Option<Adapter>)   // the adapters, and the conflict found on one
    | Outcome(ok: bool)                           // of a start, or whether a reload left it running
    | Child(t: Tid)                               // the new goroutine
    | OnDone | OnWake | OnTimer                   // the retry loop's select

  datatype Label =
    | Spawn(t: Tid, pc: Pc)
    | Go(t: Tid, c: Choice)
    | ServiceDown          // Manager.Stop, or a failed Manager.Start, cancels the service context
    | TunnelDown(t: Tid)   // ... and then stops the tunnel, outside startMu

  function Init(wanted: bool): State {
    State(Shared(Locks(None, None), Pause(None, false), false, false, wanted, false, false, Retry(0, None, {}, false, map[])), map[])
  }

  // --- The critical sections of the retry bookkeeping -----------------------------------

  predicate IsCancelled(r: Retry, g: Gen) {
    r.down || g in r.cancelled
  }

  /** `cancelRetry` takes the pending cancel function; calling it comes later. */
  function TakeRetry(r: Retry): Retry {
    r.(cancel := None)
  }

  function CancelContext(r: Retry, owed: Option<Gen>): Retry {
    match owed
    case Some(g) => r.(cancelled := r.cancelled + {g})
    case None => r
  }

  /** `retryStart`: cancels the loop on record and records a new generation. */
  function RecordRetry(r: Retry): Retry {
    CancelContext(r, r.cancel).(gen := r.gen + 1, cancel := Some(r.gen + 1))
  }

  /** `clearRetry`, under `mu`. */
  function ClearRetry(r: Retry, g: Gen): Retry {
    if r.gen == g then r.(cancel := None) else r
  }

  function NextDelay(d: nat): nat {
    if 2 * d > RETRY_MAX then RETRY_MAX else 2 * d
  }

  function Late(r: Retry, g: Gen): nat {
    if g in r.late then r.late[g] else 0
  }

  function CountLate(r: Retry, g: Gen): Retry {
    if IsCancelled(r, g) then r.(late := r.late[g := Late(r, g) + 1]) else r
  }

  // --- Steps ----------------------------------------------------------------------------

  /** Where `checkConflict` returns to. */
  function AfterCheck(k: Checker, paused: bool): Pc {
    match k
    case AutoCheck => StartLock(Auto)
    case WatcherCheck => Finished
    case SettleCheck => if paused then Finished else SettleTest
  }

  /** Where `startTunnelOnce` returns to. */
  function AfterStart(w: Caller, r: Attempt): Pc {
    match w
    case Auto => if r.Failed? then AutoRetry else Finished
    case Manual => Finished
    case Loop(g, d) => LoopReturned(g, d, r)
  }

  /** After a start of a rebuilding reload: success with the new configuration goes on to the check,
      failure to the previous configuration, and that one ends the reload with an error. */
  function AfterRebuild(again: bool, ok: bool): Pc {
    if again then Finished else if ok then CheckLock(WatcherCheck) else RebuildCheck(true)
  }

  predicate InCheck(pc: Pc) {
    pc.CheckLock? || pc.CheckRead? || pc.CheckList? || pc.CheckUnlock? || pc.PauseSet? || pc.PauseTake? || pc.PauseCancel?
    || pc.PauseLock? || pc.PauseStop? || pc.PauseClose? || pc.PauseUnlock? || pc.PauseMove? || pc.ResumeClear? || pc.ResumeRetry?
  }

  predicate InStart(pc: Pc) {
    pc.StartLock? || pc.StartRead? || pc.StartTest? || pc.StartCheck? || pc.Starting? || pc.StartUnlock?
  }

  predicate InLoop(pc: Pc) {
    pc.LoopWait? || pc.LoopTest? || pc.LoopReturned? || pc.LoopCancel? || pc.LoopClear?
  }

  predicate Reloading(pc: Pc) {
    pc.ReloadRead? || pc.RebuildStop? || pc.RebuildClose? || pc.RebuildCheck? || pc.RebuildBuild?
  }

  predicate Spawns(pc: Pc) {
    pc.ResumeRetry? || pc.AutoRetry?
  }

  function Stopped(sh: Shared): Shared {
    sh.(running := false, rebuilt := false)
  }

  /** Whether thread `t` at `pc` can take the step `c`. */
  predicate CanGo(sh: Shared, pc: Pc, c: Choice) {
    match pc
    case CheckLock(_) => sh.locks.conflict.None? && c.Plain?
    case CheckList(_, _) => c.ListFailed? || c.Listed?
    case PauseLock(_) => sh.locks.start.None? && c.Plain?
    case StopLock => sh.locks.start.None? && c.Plain?
    case StartLock(_) => sh.locks.start.None? && c.Plain?
    case Starting(_) => c.Outcome?
    case ReloadTunnel => c.Outcome?
    case RebuildBuild(_) => c.Outcome?
    case ResumeRetry(_) => c.Child?
    case AutoRetry => c.Child?
    case LoopWait(g, _) => (c.OnDone? && IsCancelled(sh.retry, g)) || (c.OnWake? && sh.wake) || c.OnTimer?
    case Finished => false
    case _ => c.Plain?
  }

  /** What the step does: the shared part and where the thread goes. A spawning step also
      starts a loop of the generation it records. */
  function React(sh: Shared, t: Tid, pc: Pc, c: Choice): (Shared, Pc)
    requires CanGo(sh, pc, c)
  {
    if InCheck(pc) then ReactCheck(sh, t, pc, c)
    else if InStart(pc) then ReactStart(sh, t, pc, c)
    else if InLoop(pc) then ReactLoop(sh, pc, c)
    else ReactOther(sh, t, pc, c)
  }

  function ReactCheck(sh: Shared, t: Tid, pc: Pc, c: Choice): (Shared, Pc)
    requires InCheck(pc) && CanGo(sh, pc, c)
  {
    match pc
    case CheckLock(k) => (sh.(locks := sh.locks.(conflict := Some(t))), CheckRead(k))
    case CheckRead(k) => (sh, CheckList(k, sh.pause.on.Some?))
    case CheckList(k, was) =>
      if c.ListFailed? then (sh, CheckUnlock(k, was))
      else (match c.hit
            case Some(a) => (sh, if was then PauseMove(k, a) else PauseSet(k, a))
            case None => (sh, if was then ResumeClear(k) else CheckUnlock(k, false)))
    case PauseMove(k, a) => (sh.(pause := sh.pause.(on := Some(a))), CheckUnlock(k, true))
    case PauseSet(k, a) => (sh.(pause := sh.pause.(on := Some(a))), PauseTake(k))
    case PauseTake(k) => (sh.(retry := TakeRetry(sh.retry)), PauseCancel(k, sh.retry.cancel))
    case PauseCancel(k, owed) => (sh.(retry := CancelContext(sh.retry, owed)), PauseLock(k))
    case PauseLock(k) => (sh.(locks := sh.locks.(start := Some(t))), PauseStop(k))
    case PauseStop(k) =>
      (Stopped(sh).(pause := sh.pause.(done := true)), if sh.running then PauseClose(k) else PauseUnlock(k))
    case PauseClose(k) => (sh, PauseUnlock(k))
    case PauseUnlock(k) => (sh.(locks := sh.locks.(start := None)), CheckUnlock(k, true))
    case ResumeClear(k) =>
      (sh.(pause := Pause(None, false)), if sh.wanted then ResumeRetry(k) else CheckUnlock(k, false))
    case ResumeRetry(k) => (sh.(retry := RecordRetry(sh.retry)), CheckUnlock(k, false))
    case CheckUnlock(k, paused) => (sh.(locks := sh.locks.(conflict := None)), AfterCheck(k, paused))
  }

  function ReactStart(sh: Shared, t: Tid, pc: Pc, c: Choice): (Shared, Pc)
    requires InStart(pc) && CanGo(sh, pc, c)
  {
    match pc
    case StartLock(w) => (sh.(locks := sh.locks.(start := Some(t))), StartRead(w))
    case StartRead(w) => (sh, StartTest(w, sh.pause.on.Some?))
    case StartTest(w, paused) =>
      (sh, if paused then StartUnlock(w, Paused) else if sh.running then StartUnlock(w, Up) else StartCheck(w))
    case StartCheck(w) => (sh, if sh.running then StartUnlock(w, Failed) else Starting(w))
    case Starting(w) =>
      if c.ok then (sh.(running := true), StartUnlock(w, Up)) else (sh, StartUnlock(w, Failed))
    case StartUnlock(w, r) => (sh.(locks := sh.locks.(start := None)), AfterStart(w, r))
  }

  function ReactLoop(sh: Shared, pc: Pc, c: Choice): (Shared, Pc)
    requires InLoop(pc) && CanGo(sh, pc, c)
  {
    match pc
    case LoopWait(g, d) =>
      if c.OnDone? then (sh, LoopCancel(g))
      else (if c.OnWake? then sh.(wake := false) else sh, LoopTest(g, d))
    case LoopTest(g, d) =>
      if sh.running then (sh, LoopCancel(g)) else (sh.(retry := CountLate(sh.retry, g)), StartLock(Loop(g, d)))
    case LoopReturned(g, d, r) =>
      (sh, if IsCancelled(sh.retry, g) || !r.Failed? then LoopCancel(g) else LoopWait(g, NextDelay(d)))
    case LoopCancel(g) => (sh.(retry := CancelContext(sh.retry, Some(g))), LoopClear(g))
    case LoopClear(g) => (sh.(retry := ClearRetry(sh.retry, g)), Finished)
  }

  function ReactOther(sh: Shared, t: Tid, pc: Pc, c: Choice): (Shared, Pc)
    requires !InCheck(pc) && !InStart(pc) && !InLoop(pc) && CanGo(sh, pc, c)
  {
    match pc
    case AutoRetry => (sh.(retry := RecordRetry(sh.retry)), Finished)
    case ManualWant => (sh.(wanted := true), ManualTest)
    case ManualTest => (sh, if sh.running then Finished else StartLock(Manual))
    case StopWant => (sh.(wanted := false), StopTake)
    case StopTake => (sh.(retry := TakeRetry(sh.retry)), StopCancel(sh.retry.cancel))
    case StopCancel(owed) => (sh.(retry := CancelContext(sh.retry, owed)), StopLock)
    case StopLock => (sh.(locks := sh.locks.(start := Some(t))), StopDown)
    case StopDown => (Stopped(sh), if sh.running then StopClose else StopUnlock)
    case StopClose => (sh, StopUnlock)
    case StopUnlock => (sh.(locks := sh.locks.(start := None)), Finished)
    case SettleTest => (if sh.running then sh else sh.(wake := true), Finished)
    case ReloadTunnel => if c.ok then (sh, CheckLock(WatcherCheck)) else (Stopped(sh), Finished)
    case ReloadRead => (sh, if sh.running then RebuildStop else CheckLock(WatcherCheck))
    case RebuildStop => (Stopped(sh), if sh.running then RebuildClose else RebuildCheck(false))
    case RebuildClose => (sh, RebuildCheck(false))
    case DownClose => (sh, Finished)
    case RebuildCheck(again) => (sh, if !sh.running then RebuildBuild(again) else AfterRebuild(again, false))
    case RebuildBuild(again) => (if c.ok then sh.(running := true, rebuilt := true) else sh, AfterRebuild(again, c.ok))
  }

  predicate IsEntry(pc: Pc) {
    pc.CheckLock? || pc == ManualWant || pc == StopWant || pc == ReloadTunnel || pc == ReloadRead
  }

  /** A thread that starts nothing any more once the service's context is cancelled. */
  predicate Spent(pc: Pc) {
    pc.Finished? || pc.LoopReturned? || pc.LoopCancel? || pc.LoopClear? || (pc.StartUnlock? && pc.w.Loop?)
  }

  /** When the service stops the tunnel for good. `Manager.Stop` has waited for the pipe, the watcher and
      every retry loop by then. A failed `Manager.Start` waits for nothing, but there is nothing but the
      retry of its own automatic start, which has not brought the tunnel up, or is done. */
  predicate AllQuiet(s: State) {
    forall u :: u in s.threads ==> Spent(s.threads[u]) || (!s.sh.running && LoopOf(s.threads[u]).Some?)
  }

  predicate Enabled(s: State, l: Label) {
    match l
    case Spawn(t, pc) => t !in s.threads && IsEntry(pc) && !s.sh.over
    case ServiceDown => true
    case TunnelDown(t) => s.sh.retry.down && !s.sh.over && t !in s.threads && AllQuiet(s)
    case Go(t, c) => t in s.threads && CanGo(s.sh, s.threads[t], c) && (c.Child? ==> c.t !in s.threads)
  }

  function Apply(s: State, l: Label): State
    requires Enabled(s, l)
  {
    match l
    case Spawn(t, pc) => s.(threads := s.threads[t := pc])
    case ServiceDown => s.(sh := s.sh.(retry := s.sh.retry.(down := true)))
    case TunnelDown(t) =>
      State(Stopped(s.sh).(over := true), s.threads[t := if s.sh.running then DownClose else Finished])
    case Go(t, c) =>
      var (sh, pc) := React(s.sh, t, s.threads[t], c);
      var threads := s.threads[t := pc];
      State(sh, if c.Child? then threads[c.t := LoopWait(sh.retry.gen, RETRY_MIN)] else threads)
  }

  // --- Runs -----------------------------------------------------------------------------

  predicate Executable(s: State, ls: seq<Label>)
    decreases |ls|
  {
    ls == [] || (Enabled(s, ls[0]) && Executable(Apply(s, ls[0]), ls[1..]))
  }

  function Exec(s: State, ls: seq<Label>): State
    requires Executable(s, ls)
    decreases |ls|
  {
    if ls == [] then s else Exec(Apply(s, ls[0]), ls[1..])
  }

  /** Whether a step asks for the tunnel: it makes it wanted, or is the beginning of the automatic
      start. */
  predicate IsAsk(s: State, l: Label)
    requires Enabled(s, l)
  {
    (l.Go? && s.threads[l.t].ManualWant?) || (l.Spawn? && l.pc == CheckLock(AutoCheck))
  }

  function Asks(s: State, ls: seq<Label>): nat
    requires Executable(s, ls)
    decreases |ls|
  {
    if ls == [] then 0 else (if IsAsk(s, ls[0]) then 1 else 0) + Asks(Apply(s, ls[0]), ls[1..])
  }

  ghost predicate Reaches(s0: State, ls: seq<Label>, s: State) {
    Executable(s0, ls) && Exec(s0, ls) == s
  }

  /** A run grown by one step, for building runs one step at a time. */
  lemma {:induction false} Take(s0: State, ls: seq<Label>, s: State, l: Label) returns (longer: seq<Label>, next: State)
    requires Reaches(s0, ls, s) && Enabled(s, l)
    ensures Reaches(s0, longer, next) && next == Apply(s, l)
    ensures Asks(s0, longer) == Asks(s0, ls) + if IsAsk(s, l) then 1 else 0
    decreases |ls|
  {
    longer, next := ls + [l], Apply(s, l);
    if ls == [] {
      assert longer == [l] && longer[1..] == [];
    } else {
      var rest, last := Take(Apply(s0, ls[0]), ls[1..], s, l);
      longer := [ls[0]] + rest;
      assert longer[1..] == rest;
    }
  }

  /** Every reload in the run is one atomic step: none rebuilds the tunnel with other threads moving
      in between. */
  predicate AtomicReloads(ls: seq<Label>) {
    forall l :: l in ls && l.Spawn? ==> l.pc != ReloadRead
  }

  // --- What each thread may assume ------------------------------------------------------

  predicate HoldsStart(pc: Pc) {
    pc.StartRead? || pc.StartTest? || pc.StartCheck? || pc.Starting? || pc.StartUnlock? || pc.PauseStop? || pc.PauseClose?
    || pc.PauseUnlock? || pc.StopDown? || pc.StopClose? || pc.StopUnlock?
  }

  predicate HoldsConflict(pc: Pc) {
    InCheck(pc) && !pc.CheckLock?
  }

  /** Between setting `pausedBy` and stopping the tunnel. */
  predicate Pausing(pc: Pc) {
    pc.PauseTake? || pc.PauseCancel? || pc.PauseLock? || pc.PauseStop?
  }

  /** Past the check of `pausedBy`, not having seen a pause. */
  predicate Committed(pc: Pc) {
    (pc.StartTest? && !pc.paused) || pc.StartCheck? || pc.Starting?
  }

  /** The loop a thread is running, if it is one. */
  function LoopOf(pc: Pc): Option<Gen> {
    match pc
    case LoopWait(g, _) => Some(g)
    case LoopTest(g, _) => Some(g)
    case LoopReturned(g, _, _) => Some(g)
    case LoopCancel(g) => Some(g)
    case LoopClear(g) => Some(g)
    case StartLock(w) => LoopOfCaller(w)
    case StartRead(w) => LoopOfCaller(w)
    case StartTest(w, _) => LoopOfCaller(w)
    case StartCheck(w) => LoopOfCaller(w)
    case Starting(w) => LoopOfCaller(w)
    case StartUnlock(w, _) => LoopOfCaller(w)
    case _ => None
  }

  function LoopOfCaller(w: Caller): Option<Gen> {
    if w.Loop? then Some(w.gen) else None
  }

  /** Still to be called by a `cancelRetry` in flight. */
  function Owes(pc: Pc): Option<Gen> {
    if pc.PauseCancel? || pc.StopCancel? then pc.owed else None
  }

  /** Locks, knowledge of the pause, and starting only from a stopped tunnel. */
  predicate ThreadOk(sh: Shared, t: Tid, pc: Pc) {
    && (HoldsStart(pc) <==> sh.locks.start == Some(t))
    && (HoldsConflict(pc) <==> sh.locks.conflict == Some(t))
    && (pc.CheckList? ==> pc.was == sh.pause.on.Some?)
    && (pc.PauseSet? || pc.ResumeRetry? ==> sh.pause.on.None?)
    && (pc.PauseMove? || pc.ResumeClear? ==> sh.pause.on.Some?)
    && (Pausing(pc) ==> sh.pause.on.Some? && !sh.pause.done)
    && (HoldsConflict(pc) && !Pausing(pc) && sh.pause.on.Some? ==> sh.pause.done)
    && (pc.PauseClose? || pc.PauseUnlock? ==> sh.pause.done)
    && (Committed(pc) ==> !sh.pause.done)
    && (pc.Starting? && sh.running ==> sh.rebuilt)
  }

  predicate SharedOk(sh: Shared) {
    && (sh.pause.done ==> sh.pause.on.Some?)
    && (sh.pause.done && sh.running ==> sh.rebuilt)
    && (sh.rebuilt ==> sh.running)
    && (sh.locks.conflict.None? && sh.pause.on.Some? ==> sh.pause.done)
  }

  predicate InPause(pc: Pc) {
    pc.PauseSet? || pc.PauseTake? || pc.PauseCancel? || pc.PauseLock? || pc.PauseStop?
    || pc.PauseClose? || pc.PauseUnlock? || pc.PauseMove?
  }

  lemma PauseKeepsSelf(sh: Shared, t: Tid, pc: Pc, c: Choice)
    requires CanGo(sh, pc, c) && ThreadOk(sh, t, pc) && SharedOk(sh) && InPause(pc)
    ensures var (sh', pc') := ReactCheck(sh, t, pc, c); ThreadOk(sh', t, pc') && SharedOk(sh')
  {
  }

  lemma CheckKeepsSelf(sh: Shared, t: Tid, pc: Pc, c: Choice)
    requires CanGo(sh, pc, c) && ThreadOk(sh, t, pc) && SharedOk(sh) && InCheck(pc) && !InPause(pc)
    ensures var (sh', pc') := ReactCheck(sh, t, pc, c); ThreadOk(sh', t, pc') && SharedOk(sh')
  {
  }

  lemma BuildKeepsSelf(sh: Shared, t: Tid, pc: Pc, c: Choice)
    requires CanGo(sh, pc, c) && ThreadOk(sh, t, pc) && SharedOk(sh) && pc.RebuildBuild?
    ensures var (sh', pc') := ReactOther(sh, t, pc, c); ThreadOk(sh', t, pc') && SharedOk(sh')
  {
  }

  lemma TearDownKeepsSelf(sh: Shared, t: Tid, pc: Pc, c: Choice)
    requires CanGo(sh, pc, c) && ThreadOk(sh, t, pc) && SharedOk(sh) && (pc.RebuildStop? || pc.RebuildClose?)
    ensures var (sh', pc') := ReactOther(sh, t, pc, c); ThreadOk(sh', t, pc') && SharedOk(sh')
  {
  }

  lemma ReloadKeepsSelf(sh: Shared, t: Tid, pc: Pc, c: Choice)
    requires CanGo(sh, pc, c) && ThreadOk(sh, t, pc) && SharedOk(sh) && (pc.ReloadTunnel? || Reloading(pc))
    ensures var (sh', pc') := ReactOther(sh, t, pc, c); ThreadOk(sh', t, pc') && SharedOk(sh')
  {
    if pc.RebuildBuild? {
      BuildKeepsSelf(sh, t, pc, c);
    } else if pc.RebuildStop? || pc.RebuildClose? {
      TearDownKeepsSelf(sh, t, pc, c);
    }
  }

  lemma StartKeepsSelf(sh: Shared, t: Tid, pc: Pc, c: Choice)
    requires CanGo(sh, pc, c) && ThreadOk(sh, t, pc) && SharedOk(sh) && InStart(pc)
    ensures var (sh', pc') := ReactStart(sh, t, pc, c); ThreadOk(sh', t, pc') && SharedOk(sh')
  {
  }

  lemma LoopKeepsSelf(sh: Shared, t: Tid, pc: Pc, c: Choice)
    requires CanGo(sh, pc, c) && ThreadOk(sh, t, pc) && SharedOk(sh) && InLoop(pc)
    ensures var (sh', pc') := ReactLoop(sh, pc, c); ThreadOk(sh', t, pc') && SharedOk(sh')
  {
  }

  lemma OtherKeepsSelf(sh: Shared, t: Tid, pc: Pc, c: Choice)
    requires CanGo(sh, pc, c) && ThreadOk(sh, t, pc) && SharedOk(sh) && !InCheck(pc) && !InStart(pc) && !InLoop(pc)
    requires !pc.ReloadTunnel? && !Reloading(pc)
    ensures var (sh', pc') := ReactOther(sh, t, pc, c); ThreadOk(sh', t, pc') && SharedOk(sh')
  {
  }

  lemma StepKeepsSelf(sh: Shared, t: Tid, pc: Pc, c: Choice)
    requires CanGo(sh, pc, c) && ThreadOk(sh, t, pc) && SharedOk(sh)
    ensures var (sh', pc') := React(sh, t, pc, c); ThreadOk(sh', t, pc') && SharedOk(sh')
  {
    if InPause(pc) {
      PauseKeepsSelf(sh, t, pc, c);
    } else if InCheck(pc) {
      CheckKeepsSelf(sh, t, pc, c);
    } else if InStart(pc) {
      StartKeepsSelf(sh, t, pc, c);
    } else if InLoop(pc) {
      LoopKeepsSelf(sh, t, pc, c);
    } else if pc.ReloadTunnel? || Reloading(pc) {
      ReloadKeepsSelf(sh, t, pc, c);
    } else {
      OtherKeepsSelf(sh, t, pc, c);
    }
  }

  lemma PauseKeepsOthers(sh: Shared, t: Tid, pc: Pc, c: Choice, u: Tid, other: Pc)
    requires CanGo(sh, pc, c) && ThreadOk(sh, t, pc) && SharedOk(sh) && ThreadOk(sh, u, other) && t != u && InPause(pc)
    ensures ThreadOk(ReactCheck(sh, t, pc, c).0, u, other)
  {
  }

  lemma CheckKeepsOthers(sh: Shared, t: Tid, pc: Pc, c: Choice, u: Tid, other: Pc)
    requires CanGo(sh, pc, c) && ThreadOk(sh, t, pc) && SharedOk(sh) && ThreadOk(sh, u, other) && t != u && InCheck(pc)
    ensures ThreadOk(ReactCheck(sh, t, pc, c).0, u, other)
  {
    if InPause(pc) {
      PauseKeepsOthers(sh, t, pc, c, u, other);
    }
  }

  lemma StepKeepsOthers(sh: Shared, t: Tid, pc: Pc, c: Choice, u: Tid, other: Pc)
    requires CanGo(sh, pc, c) && ThreadOk(sh, t, pc) && SharedOk(sh) && ThreadOk(sh, u, other) && t != u
    ensures ThreadOk(React(sh, t, pc, c).0, u, other)
  {
    if InCheck(pc) {
      CheckKeepsOthers(sh, t, pc, c, u, other);
    }
  }

  /** A lock field names the acting thread, nobody, or whom it named before. */
  predicate OwnersKept(sh: Shared, sh': Shared, t: Tid) {
    && (sh'.locks.start == sh.locks.start || sh'.locks.start == None || sh'.locks.start == Some(t))
    && (sh'.locks.conflict == sh.locks.conflict || sh'.locks.conflict == None || sh'.locks.conflict == Some(t))
  }

  lemma CheckKeepsOwners(sh: Shared, t: Tid, pc: Pc, c: Choice)
    requires CanGo(sh, pc, c) && InCheck(pc)
    ensures OwnersKept(sh, ReactCheck(sh, t, pc, c).0, t)
  {
  }

  lemma StepKeepsOwners(sh: Shared, t: Tid, pc: Pc, c: Choice)
    requires CanGo(sh, pc, c)
    ensures OwnersKept(sh, React(sh, t, pc, c).0, t)
  {
    if InCheck(pc) {
      CheckKeepsOwners(sh, t, pc, c);
    }
  }

  /** A step moves the acting thread, may add one loop, and leaves every other thread alone. */
  lemma ThreadsAfter(s: State, l: Label, u: Tid)
    requires Enabled(s, l) && u in Apply(s, l).threads
    ensures var pc := Apply(s, l).threads[u];
      || (u in s.threads && (l.Go? ==> u != l.t) && pc == s.threads[u])
      || (l.Go? && u == l.t && pc == React(s.sh, l.t, s.threads[l.t], l.c).1)
      || (l.Go? && l.c.Child? && u == l.c.t && pc == LoopWait(Apply(s, l).sh.retry.gen, RETRY_MIN))
      || (l.Spawn? && u == l.t && pc == l.pc)
      || (l.TunnelDown? && u == l.t && (pc.DownClose? || pc.Finished?))
  {
  }

  ghost predicate Owned(s: State) {
    && (s.sh.locks.start.Some? ==> s.sh.locks.start.value in s.threads)
    && (s.sh.locks.conflict.Some? ==> s.sh.locks.conflict.value in s.threads)
  }

  ghost predicate Inv(s: State) {
    && SharedOk(s.sh) && Owned(s)
    && forall t :: t in s.threads ==> ThreadOk(s.sh, t, s.threads[t])
  }

  lemma GoKeepsThread(s: State, t: Tid, c: Choice, u: Tid)
    requires Inv(s) && Enabled(s, Go(t, c)) && u in Apply(s, Go(t, c)).threads
    ensures ThreadOk(Apply(s, Go(t, c)).sh, u, Apply(s, Go(t, c)).threads[u])
  {
    var pc := s.threads[t];
    ThreadsAfter(s, Go(t, c), u);
    if u == t {
      StepKeepsSelf(s.sh, t, pc, c);
    } else if u in s.threads {
      StepKeepsOthers(s.sh, t, pc, c, u, s.threads[u]);
    } else {
      StepKeepsOwners(s.sh, t, pc, c);
    }
  }

  lemma GoStep(s: State, t: Tid, c: Choice)
    requires Inv(s) && Enabled(s, Go(t, c))
    ensures Inv(Apply(s, Go(t, c)))
  {
    var s' := Apply(s, Go(t, c));
    StepKeepsSelf(s.sh, t, s.threads[t], c);
    StepKeepsOwners(s.sh, t, s.threads[t], c);
    forall u | u in s'.threads ensures ThreadOk(s'.sh, u, s'.threads[u]) {
      GoKeepsThread(s, t, c, u);
    }
  }

  lemma TunnelDownStep(s: State, t: Tid)
    requires Inv(s) && Enabled(s, TunnelDown(t))
    ensures Inv(Apply(s, TunnelDown(t)))
  {
    var s' := Apply(s, TunnelDown(t));
    forall u | u in s.threads ensures ThreadOk(s'.sh, u, s.threads[u]) {
      StoppedKeeps(s.sh, u, s.threads[u]);
    }
    assert s'.sh.locks.start != Some(t) && s'.sh.locks.conflict != Some(t);
  }

  lemma StoppedKeeps(sh: Shared, u: Tid, pc: Pc)
    requires ThreadOk(sh, u, pc)
    ensures ThreadOk(Stopped(sh).(over := true), u, pc)
  {
  }

  lemma SpawnStep(s: State, t: Tid, pc: Pc)
    requires Inv(s) && Enabled(s, Spawn(t, pc))
    ensures Inv(Apply(s, Spawn(t, pc)))
  {
  }

  lemma InvStep(s: State, l: Label)
    requires Inv(s) && Enabled(s, l)
    ensures Inv(Apply(s, l))
  {
    if l.Go? {
      GoStep(s, l.t, l.c);
    } else if l.TunnelDown? {
      TunnelDownStep(s, l.t);
    } else if l.Spawn? {
      SpawnStep(s, l.t, l.pc);
    }
  }

  lemma {:induction false} InvRun(s: State, ls: seq<Label>)
    requires Inv(s) && Executable(s, ls)
    ensures Inv(Exec(s, ls))
    decreases |ls|
  {
    if ls != [] {
      InvStep(s, ls[0]);
      InvRun(Apply(s, ls[0]), ls[1..]);
    }
  }

  // --- Pause ----------------------------------------------------------------------------

  /** `pausedBy` is set and no `pause` is still to stop the tunnel: the pause is past that, and `resume`
      has not begun to undo it. */
  ghost predicate PauseInForce(s: State) {
    s.sh.pause.on.Some? && forall t :: t in s.threads ==> !Pausing(s.threads[t])
  }

  lemma PauseInForceIsDone(s: State)
    requires Inv(s)
    ensures PauseInForce(s) <==> s.sh.pause.done
  {
    if PauseInForce(s) && s.sh.locks.conflict.Some? {
      assert ThreadOk(s.sh, s.sh.locks.conflict.value, s.threads[s.sh.locks.conflict.value]);
    }
    if s.sh.pause.done {
      forall t | t in s.threads ensures !Pausing(s.threads[t]) {
        assert ThreadOk(s.sh, t, s.threads[t]);
      }
    }
  }

  /** Inside a call of `startTunnel`, which is `Tunnel.Start`. */
  predicate InTunnelStart(pc: Pc) {
    pc.StartCheck? || pc.Starting?
  }

  /** A step that begins such a call. */
  predicate BeginsStart(s: State, l: Label)
    requires Enabled(s, l)
  {
    l.Go? && !InTunnelStart(s.threads[l.t]) && InTunnelStart(Apply(s, l).threads[l.t])
  }

  lemma NoStartWhilePaused(sh: Shared, t: Tid, pc: Pc, c: Choice)
    requires CanGo(sh, pc, c) && ThreadOk(sh, t, pc) && SharedOk(sh) && sh.pause.done
    ensures var (sh', pc') := React(sh, t, pc, c);
      !InTunnelStart(pc') && (sh'.running && !sh.running ==> pc.RebuildBuild?)
  {
    StepKeepsSelf(sh, t, pc, c);
  }

  /** While a pause is in force no start is in progress and none can begin, whatever automatic
      starts, retries, manual starts, stops, reloads and checks are under way: an attempt that
      had missed the pause is over by then, and what it built was stopped. The tunnel runs under a
      pause exactly when a rebuilding reload has brought it up since, and nothing else can. */
  lemma PauseAllowsNoStart(wanted: bool, ls: seq<Label>, l: Label)
    requires Executable(Init(wanted), ls) && PauseInForce(Exec(Init(wanted), ls))
    ensures var s := Exec(Init(wanted), ls);
      && (s.sh.running <==> s.sh.rebuilt)
      && (forall t :: t in s.threads ==> !InTunnelStart(s.threads[t]))
      && (Enabled(s, l) ==> !BeginsStart(s, l))
      && (Enabled(s, l) && !s.sh.running && Apply(s, l).sh.running ==> l.Go? && s.threads[l.t].RebuildBuild?)
  {
    InvRun(Init(wanted), ls);
    var s := Exec(Init(wanted), ls);
    PauseInForceIsDone(s);
    forall t | t in s.threads ensures !InTunnelStart(s.threads[t]) {
      assert ThreadOk(s.sh, t, s.threads[t]);
    }
    if Enabled(s, l) && l.Go? {
      assert ThreadOk(s.sh, l.t, s.threads[l.t]);
      NoStartWhilePaused(s.sh, l.t, s.threads[l.t], l.c);
      ThreadsAfter(s, l, l.t);
    }
  }

  /** Without such reloads the tunnel never runs under a pause. */
  lemma PausedTunnelStaysDown(wanted: bool, ls: seq<Label>)
    requires Executable(Init(wanted), ls) && AtomicReloads(ls) && PauseInForce(Exec(Init(wanted), ls))
    ensures !Exec(Init(wanted), ls).sh.running
  {
    PauseAllowsNoStart(wanted, ls, ServiceDown);
    NoRebuildRun(Init(wanted), ls);
  }

  ghost predicate NoRebuild(s: State) {
    !s.sh.rebuilt && forall t :: t in s.threads ==> !Reloading(s.threads[t])
  }

  lemma NoRebuildCheck(sh: Shared, t: Tid, pc: Pc, c: Choice)
    requires CanGo(sh, pc, c) && !sh.rebuilt && InCheck(pc)
    ensures var (sh', pc') := ReactCheck(sh, t, pc, c); !sh'.rebuilt && !Reloading(pc')
  {
  }

  lemma NoRebuildGo(sh: Shared, t: Tid, pc: Pc, c: Choice)
    requires CanGo(sh, pc, c) && !sh.rebuilt && !Reloading(pc)
    ensures var (sh', pc') := React(sh, t, pc, c); !sh'.rebuilt && !Reloading(pc')
  {
    if InCheck(pc) {
      NoRebuildCheck(sh, t, pc, c);
    }
  }

  lemma NoRebuildStep(s: State, l: Label)
    requires NoRebuild(s) && Enabled(s, l) && (l.Spawn? ==> l.pc != ReloadRead)
    ensures NoRebuild(Apply(s, l))
  {
    var s' := Apply(s, l);
    if l.Go? {
      NoRebuildGo(s.sh, l.t, s.threads[l.t], l.c);
    }
    forall u | u in s'.threads ensures !Reloading(s'.threads[u]) {
      ThreadsAfter(s, l, u);
    }
  }

  lemma {:induction false} NoRebuildRun(s: State, ls: seq<Label>)
    requires NoRebuild(s) && Executable(s, ls) && AtomicReloads(ls)
    ensures NoRebuild(Exec(s, ls))
    decreases |ls|
  {
    if ls != [] {
      NoRebuildStep(s, ls[0]);
      NoRebuildRun(Apply(s, ls[0]), ls[1..]);
    }
  }

  /** Only `resume` ends a pause. */
  lemma OnlyResumeEndsPause(wanted: bool, ls: seq<Label>, l: Label)
    requires Executable(Init(wanted), ls) && PauseInForce(Exec(Init(wanted), ls)) && Enabled(Exec(Init(wanted), ls), l)
    ensures var s := Exec(Init(wanted), ls);
      !PauseInForce(Apply(s, l)) ==> l.Go? && s.threads[l.t].ResumeClear?
  {
    InvRun(Init(wanted), ls);
    PauseEnds(Exec(Init(wanted), ls), l);
  }

  lemma PauseEnds(s: State, l: Label)
    requires Inv(s) && PauseInForce(s) && Enabled(s, l)
    ensures !PauseInForce(Apply(s, l)) ==> l.Go? && s.threads[l.t].ResumeClear?
  {
    PauseInForceIsDone(s);
    InvStep(s, l);
    PauseInForceIsDone(Apply(s, l));
    if l.Go? {
      DoneUntilResume(s.sh, l.t, s.threads[l.t], l.c);
    }
  }

  lemma DoneUntilResumed(sh: Shared, t: Tid, pc: Pc, c: Choice)
    requires CanGo(sh, pc, c) && sh.pause.done && InCheck(pc)
    ensures !pc.ResumeClear? ==> ReactCheck(sh, t, pc, c).0.pause.done
  {
  }

  lemma DoneUntilResume(sh: Shared, t: Tid, pc: Pc, c: Choice)
    requires CanGo(sh, pc, c) && sh.pause.done
    ensures !pc.ResumeClear? ==> React(sh, t, pc, c).0.pause.done
  {
    if InCheck(pc) {
      DoneUntilResumed(sh, t, pc, c);
    }
  }

  /** At most one start is in progress at any time: `startTunnelOnce` holds `startMu` throughout. */
  lemma OneStartAtATime(wanted: bool, ls: seq<Label>, t: Tid, u: Tid)
    requires Executable(Init(wanted), ls)
    ensures var s := Exec(Init(wanted), ls);
      t in s.threads && u in s.threads && InTunnelStart(s.threads[t]) && InTunnelStart(s.threads[u]) ==> t == u
  {
    InvRun(Init(wanted), ls);
    var s := Exec(Init(wanted), ls);
    assert t in s.threads ==> ThreadOk(s.sh, t, s.threads[t]);
    assert u in s.threads ==> ThreadOk(s.sh, u, s.threads[u]);
  }

  // --- Retry bookkeeping ----------------------------------------------------------------

  predicate Attempting(pc: Pc) {
    InStart(pc) || pc.LoopReturned? || pc.LoopCancel? || pc.LoopClear?
  }

  /** A loop belongs to a generation handed out before, has begun no attempt since it was
      cancelled while it is still waiting, and at most one afterwards. */
  predicate LoopOk(sh: Shared, pc: Pc) {
    LoopOf(pc).Some? ==>
      var g := LoopOf(pc).value;
      && 1 <= g <= sh.retry.gen
      && (pc.LoopWait? || pc.LoopTest? ==> Late(sh.retry, g) == 0)
      && (Attempting(pc) && Late(sh.retry, g) > 0 ==> IsCancelled(sh.retry, g))
  }

  ghost predicate RetryShared(sh: Shared) {
    && (sh.retry.cancel.Some? ==> sh.retry.cancel == Some(sh.retry.gen))
    && (forall g :: g in sh.retry.late ==> g <= sh.retry.gen && sh.retry.late[g] <= 1)
  }

  /** Nobody has forgotten loop `g`: it is the one on record, or cancelled, or `pc` still has to
      call its cancel function. */
  predicate Accounted(sh: Shared, pc: Pc, g: Gen) {
    sh.retry.cancel == Some(g) || IsCancelled(sh.retry, g) || Owes(pc) == Some(g)
  }

  /** What a step does to the retry bookkeeping. */
  function RetryAfter(sh: Shared, pc: Pc): Retry {
    match pc
    case PauseTake(_) => TakeRetry(sh.retry)
    case StopTake => TakeRetry(sh.retry)
    case PauseCancel(_, owed) => CancelContext(sh.retry, owed)
    case StopCancel(owed) => CancelContext(sh.retry, owed)
    case ResumeRetry(_) => RecordRetry(sh.retry)
    case AutoRetry => RecordRetry(sh.retry)
    case LoopTest(g, _) => if sh.running then sh.retry else CountLate(sh.retry, g)
    case LoopCancel(g) => CancelContext(sh.retry, Some(g))
    case LoopClear(g) => ClearRetry(sh.retry, g)
    case _ => sh.retry
  }

  lemma CheckRetryEffect(sh: Shared, t: Tid, pc: Pc, c: Choice)
    requires CanGo(sh, pc, c) && InCheck(pc)
    ensures ReactCheck(sh, t, pc, c).0.retry == RetryAfter(sh, pc)
    ensures Spawns(pc) <==> c.Child?
  {
  }

  lemma RetryEffect(sh: Shared, t: Tid, pc: Pc, c: Choice)
    requires CanGo(sh, pc, c)
    ensures React(sh, t, pc, c).0.retry == RetryAfter(sh, pc)
    ensures Spawns(pc) <==> c.Child?
  {
    if InCheck(pc) {
      CheckRetryEffect(sh, t, pc, c);
    }
  }

  /** A loop stays in its generation, and what a `cancelRetry` took it owes until it has called it. */
  predicate KeepsGeneration(sh: Shared, pc: Pc, pc': Pc) {
    && (LoopOf(pc').Some? ==> LoopOf(pc') == LoopOf(pc))
    && Owes(pc') == (if pc.PauseTake? || pc.StopTake? then sh.retry.cancel else None)
    && (pc'.LoopTest? ==> pc.LoopWait?)
    && (pc'.LoopWait? ==> pc.LoopReturned? && !IsCancelled(sh.retry, pc.gen))
    && (LoopOf(pc').Some? && pc.LoopTest? ==> Attempting(pc'))
    && (Attempting(pc') && LoopOf(pc').Some? && !Attempting(pc) ==> pc.LoopTest? || pc.LoopWait?)
  }

  lemma CheckKeepsGeneration(sh: Shared, t: Tid, pc: Pc, c: Choice)
    requires CanGo(sh, pc, c) && InCheck(pc)
    ensures KeepsGeneration(sh, pc, ReactCheck(sh, t, pc, c).1)
  {
  }

  lemma LoopKeepsGeneration(sh: Shared, pc: Pc, c: Choice)
    requires CanGo(sh, pc, c) && InLoop(pc)
    ensures KeepsGeneration(sh, pc, ReactLoop(sh, pc, c).1)
  {
  }

  lemma StartKeepsGeneration(sh: Shared, t: Tid, pc: Pc, c: Choice)
    requires CanGo(sh, pc, c) && InStart(pc)
    ensures KeepsGeneration(sh, pc, ReactStart(sh, t, pc, c).1)
  {
  }

  lemma OtherKeepsGeneration(sh: Shared, t: Tid, pc: Pc, c: Choice)
    requires CanGo(sh, pc, c) && !InCheck(pc) && !InStart(pc) && !InLoop(pc)
    ensures KeepsGeneration(sh, pc, ReactOther(sh, t, pc, c).1)
  {
  }

  lemma GenerationEffect(sh: Shared, t: Tid, pc: Pc, c: Choice)
    requires CanGo(sh, pc, c)
    ensures KeepsGeneration(sh, pc, React(sh, t, pc, c).1)
  {
    if InCheck(pc) {
      CheckKeepsGeneration(sh, t, pc, c);
    } else if InStart(pc) {
      StartKeepsGeneration(sh, t, pc, c);
    } else if InLoop(pc) {
      LoopKeepsGeneration(sh, pc, c);
    } else {
      OtherKeepsGeneration(sh, t, pc, c);
    }
  }

  lemma RetryKeepsSelf(sh: Shared, t: Tid, pc: Pc, c: Choice)
    requires CanGo(sh, pc, c) && RetryShared(sh) && LoopOk(sh, pc)
    ensures var (sh', pc') := React(sh, t, pc, c);
      && RetryShared(sh') && LoopOk(sh', pc') && sh.retry.gen <= sh'.retry.gen
      && (Spawns(pc) ==> sh'.retry.gen == sh.retry.gen + 1 && Late(sh'.retry, sh'.retry.gen) == 0
                         && sh'.retry.cancel == Some(sh'.retry.gen))
  {
    RetryEffect(sh, t, pc, c);
    GenerationEffect(sh, t, pc, c);
  }

  lemma RetryKeepsOthers(sh: Shared, t: Tid, pc: Pc, c: Choice, other: Pc)
    requires CanGo(sh, pc, c) && LoopOk(sh, other)
    requires LoopOf(other).Some? ==> LoopOf(other) != LoopOf(pc)
    ensures LoopOk(React(sh, t, pc, c).0, other)
  {
    RetryEffect(sh, t, pc, c);
  }

  /** A loop other than the one finishing here stays accounted for. */
  lemma StaysAccounted(sh: Shared, t: Tid, pc: Pc, c: Choice, g: Gen)
    requires CanGo(sh, pc, c) && RetryShared(sh) && Accounted(sh, pc, g)
    requires pc.LoopClear? ==> pc.gen != g
    ensures var (sh', pc') := React(sh, t, pc, c); Accounted(sh', pc', g)
  {
    RetryEffect(sh, t, pc, c);
    GenerationEffect(sh, t, pc, c);
  }

  lemma CancelledStays(sh: Shared, t: Tid, pc: Pc, c: Choice, g: Gen)
    requires CanGo(sh, pc, c)
    ensures IsCancelled(sh.retry, g) || Owes(pc) == Some(g) ==> IsCancelled(React(sh, t, pc, c).0.retry, g)
  {
    RetryEffect(sh, t, pc, c);
  }

  ghost predicate AccountedIn(s: State, g: Gen) {
    || s.sh.retry.cancel == Some(g) || IsCancelled(s.sh.retry, g)
    || exists u :: u in s.threads && Owes(s.threads[u]) == Some(g)
  }

  ghost predicate RetryInv(s: State) {
    && RetryShared(s.sh)
    && (forall t :: t in s.threads ==> LoopOk(s.sh, s.threads[t]))
    && (forall t, u :: t in s.threads && u in s.threads && t != u && LoopOf(s.threads[t]).Some? ==>
          LoopOf(s.threads[t]) != LoopOf(s.threads[u]))
    && (forall t :: t in s.threads && LoopOf(s.threads[t]).Some? ==> AccountedIn(s, LoopOf(s.threads[t]).value))
  }

  lemma AccountedStep(s: State, l: Label, u: Tid, g: Gen)
    requires RetryInv(s) && Enabled(s, l) && u in s.threads && LoopOf(s.threads[u]) == Some(g) && AccountedIn(s, g)
    requires u in Apply(s, l).threads && LoopOf(Apply(s, l).threads[u]) == Some(g)
    ensures AccountedIn(Apply(s, l), g)
  {
    if s.sh.retry.cancel == Some(g) || IsCancelled(s.sh.retry, g) {
      if l.Go? {
        OnRecordStays(s, l, u, g);
      }
    } else {
      var v :| v in s.threads && Owes(s.threads[v]) == Some(g);
      OwedStays(s, l, v, g);
    }
  }

  lemma OnRecordStays(s: State, l: Label, u: Tid, g: Gen)
    requires RetryInv(s) && Enabled(s, l) && l.Go? && u in s.threads && LoopOf(s.threads[u]) == Some(g)
    requires s.sh.retry.cancel == Some(g) || IsCancelled(s.sh.retry, g)
    requires u in Apply(s, l).threads && LoopOf(Apply(s, l).threads[u]) == Some(g)
    ensures AccountedIn(Apply(s, l), g)
  {
    assert l.t != u ==> LoopOf(s.threads[l.t]) != Some(g);
    StaysAccounted(s.sh, l.t, s.threads[l.t], l.c, g);
    assert Apply(s, l).threads[l.t] == React(s.sh, l.t, s.threads[l.t], l.c).1;
  }

  lemma OwedStays(s: State, l: Label, v: Tid, g: Gen)
    requires Enabled(s, l) && v in s.threads && Owes(s.threads[v]) == Some(g)
    ensures AccountedIn(Apply(s, l), g)
  {
    if l.Go? && l.t == v {
      CancelledStays(s.sh, v, s.threads[v], l.c, g);
    } else {
      assert Apply(s, l).threads[v] == s.threads[v];
    }
  }

  /** Every loop of the next state was one before, in the same generation, or is the new one. */
  lemma LoopsAfter(s: State, l: Label, u: Tid)
    requires RetryInv(s) && Enabled(s, l) && u in Apply(s, l).threads
    ensures var s' := Apply(s, l);
      && LoopOk(s'.sh, s'.threads[u])
      && (LoopOf(s'.threads[u]).Some? ==>
            || (u in s.threads && LoopOf(s'.threads[u]) == LoopOf(s.threads[u]))
            || (u !in s.threads && l.Go? && l.c.Child? && u == l.c.t
                && LoopOf(s'.threads[u]) == s'.sh.retry.cancel == Some(s.sh.retry.gen + 1)))
  {
    ThreadsAfter(s, l, u);
    if l.Go? {
      var pc := s.threads[l.t];
      RetryKeepsSelf(s.sh, l.t, pc, l.c);
      RetryEffect(s.sh, l.t, pc, l.c);
      GenerationEffect(s.sh, l.t, pc, l.c);
      if u in s.threads && u != l.t {
        RetryKeepsOthers(s.sh, l.t, pc, l.c, s.threads[u]);
      }
    }
  }

  lemma RetryStep(s: State, l: Label)
    requires RetryInv(s) && Enabled(s, l)
    ensures RetryInv(Apply(s, l))
  {
    var s' := Apply(s, l);
    RetrySharedStep(s, l);
    forall u | u in s'.threads
      ensures LoopOk(s'.sh, s'.threads[u])
      ensures LoopOf(s'.threads[u]).Some? ==> AccountedIn(s', LoopOf(s'.threads[u]).value)
    {
      LoopsAfter(s, l, u);
      if u in s.threads && LoopOf(s'.threads[u]).Some? { AccountedStep(s, l, u, LoopOf(s.threads[u]).value); }
    }
    forall t, u | t in s'.threads && u in s'.threads && t != u && LoopOf(s'.threads[t]).Some?
      ensures LoopOf(s'.threads[t]) != LoopOf(s'.threads[u])
    {
      LoopsAfter(s, l, t);
      LoopsAfter(s, l, u);
    }
  }

  lemma RetrySharedStep(s: State, l: Label)
    requires RetryInv(s) && Enabled(s, l)
    ensures RetryShared(Apply(s, l).sh)
  {
    if l.Go? {
      RetryKeepsSelf(s.sh, l.t, s.threads[l.t], l.c);
    }
  }

  lemma {:induction false} RetryRun(s: State, ls: seq<Label>)
    requires RetryInv(s) && Executable(s, ls)
    ensures RetryInv(Exec(s, ls))
    decreases |ls|
  {
    if ls != [] {
      RetryStep(s, ls[0]);
      RetryRun(Apply(s, ls[0]), ls[1..]);
    }
  }

  lemma RetryReached(wanted: bool, ls: seq<Label>)
    requires Executable(Init(wanted), ls)
    ensures RetryInv(Exec(Init(wanted), ls))
  {
    RetryRun(Init(wanted), ls);
  }

  /** The retry on record is always of the newest generation, and every loop that is not the one
      on record is cancelled already, or will be by a `cancelRetry` still in flight. */
  lemma RetryOnRecord(wanted: bool, ls: seq<Label>, t: Tid)
    requires Executable(Init(wanted), ls)
    ensures var s := Exec(Init(wanted), ls);
      && (s.sh.retry.cancel.Some? ==> s.sh.retry.cancel.value == s.sh.retry.gen)
      && (t in s.threads && LoopOf(s.threads[t]).Some? ==>
            var g := LoopOf(s.threads[t]).value;
            && g <= s.sh.retry.gen
            && (s.sh.retry.cancel != Some(g) ==>
                  || IsCancelled(s.sh.retry, g)
                  || exists u :: u in s.threads && Owes(s.threads[u]) == Some(g)))
  {
    RetryReached(wanted, ls);
  }

  /** A finishing loop never erases its replacement: the record of another generation stays. */
  lemma FinishingLoopSparesReplacement(wanted: bool, ls: seq<Label>, t: Tid)
    requires Executable(Init(wanted), ls) && Enabled(Exec(Init(wanted), ls), Go(t, Plain))
    requires Exec(Init(wanted), ls).threads[t].LoopClear?
    ensures var s := Exec(Init(wanted), ls);
      var g := s.threads[t].gen;
      Apply(s, Go(t, Plain)).sh.retry.cancel == if s.sh.retry.cancel == Some(g) then None else s.sh.retry.cancel
  {
    RetryReached(wanted, ls);
    var s := Exec(Init(wanted), ls);
    RetryEffect(s.sh, t, s.threads[t], Plain);
  }

  /** The start attempts that loop `g` began in a run after its context was cancelled. */
  function LateAttempts(s: State, ls: seq<Label>, g: Gen): nat
    requires Executable(s, ls)
    decreases |ls|
  {
    if ls == [] then 0
    else (if IsLateAttempt(s, ls[0], g) then 1 else 0) + LateAttempts(Apply(s, ls[0]), ls[1..], g)
  }

  predicate IsLateAttempt(s: State, l: Label, g: Gen)
    requires Enabled(s, l)
  {
    l.Go? && s.threads[l.t].LoopTest? && s.threads[l.t].gen == g && Apply(s, l).threads[l.t].StartLock?
    && IsCancelled(s.sh.retry, g)
  }

  lemma LateStep(s: State, l: Label, g: Gen)
    requires Enabled(s, l)
    ensures Late(Apply(s, l).sh.retry, g) == Late(s.sh.retry, g) + if IsLateAttempt(s, l, g) then 1 else 0
  {
    if l.Go? {
      var pc := s.threads[l.t];
      RetryEffect(s.sh, l.t, pc, l.c);
      assert pc.LoopTest? ==> (React(s.sh, l.t, pc, l.c).1.StartLock? <==> !s.sh.running);
    }
  }

  lemma {:induction false} LateCounts(s: State, ls: seq<Label>, g: Gen)
    requires Executable(s, ls)
    ensures Late(Exec(s, ls).sh.retry, g) == Late(s.sh.retry, g) + LateAttempts(s, ls, g)
    decreases |ls|
  {
    if ls != [] {
      LateStep(s, ls[0], g);
      LateCounts(Apply(s, ls[0]), ls[1..], g);
    }
  }

  /** A cancelled retry loop begins at most one more start attempt in the whole run. */
  lemma CancelledLoopTriesOnce(wanted: bool, ls: seq<Label>, g: Gen)
    requires Executable(Init(wanted), ls)
    ensures LateAttempts(Init(wanted), ls, g) <= 1
  {
    RetryReached(wanted, ls);
    LateCounts(Init(wanted), ls, g);
  }

  // --- The end of the service -----------------------------------------------------------

  /** What there is once the service has begun its last Stop. */
  predicate LastOne(pc: Pc) {
    pc.Finished? || pc.DownClose? || LoopOf(pc).Some?
  }

  ghost predicate OverInv(s: State) {
    && (s.sh.over ==> s.sh.retry.down && forall t :: t in s.threads ==> LastOne(s.threads[t]))
    && (forall t :: t in s.threads && s.threads[t].DownClose? ==> s.sh.over)
    && (forall t, u :: t in s.threads && u in s.threads && t != u && s.threads[t].DownClose? ==> Spent(s.threads[u]))
  }

  lemma OverUnchangedByCheck(sh: Shared, t: Tid, pc: Pc, c: Choice)
    requires CanGo(sh, pc, c) && InCheck(pc)
    ensures var (sh', pc') := ReactCheck(sh, t, pc, c); sh'.over == sh.over && !pc'.DownClose?
  {
  }

  lemma OverUnchanged(sh: Shared, t: Tid, pc: Pc, c: Choice)
    requires CanGo(sh, pc, c)
    ensures var (sh', pc') := React(sh, t, pc, c);
      sh'.over == sh.over && sh'.retry.down == sh.retry.down && !pc'.DownClose?
  {
    RetryEffect(sh, t, pc, c);
    if InCheck(pc) {
      OverUnchangedByCheck(sh, t, pc, c);
    }
  }

  lemma LastStartStays(sh: Shared, t: Tid, pc: Pc, c: Choice)
    requires CanGo(sh, pc, c) && LastOne(pc) && InStart(pc)
    ensures LastOne(ReactStart(sh, t, pc, c).1) && (Spent(pc) ==> Spent(ReactStart(sh, t, pc, c).1))
  {
  }

  lemma LastLoopStays(sh: Shared, pc: Pc, c: Choice)
    requires CanGo(sh, pc, c) && InLoop(pc)
    ensures LastOne(ReactLoop(sh, pc, c).1) && (sh.retry.down && Spent(pc) ==> Spent(ReactLoop(sh, pc, c).1))
  {
  }

  lemma LastStays(sh: Shared, t: Tid, pc: Pc, c: Choice)
    requires CanGo(sh, pc, c) && LastOne(pc)
    ensures !c.Child? && LastOne(React(sh, t, pc, c).1)
    ensures sh.retry.down && Spent(pc) ==> Spent(React(sh, t, pc, c).1)
  {
    RetryEffect(sh, t, pc, c);
    if InStart(pc) {
      LastStartStays(sh, t, pc, c);
    } else if InLoop(pc) {
      LastLoopStays(sh, pc, c);
    } else {
      assert pc.DownClose?;
    }
  }

  lemma OverStep(s: State, l: Label)
    requires OverInv(s) && Enabled(s, l)
    ensures OverInv(Apply(s, l))
  {
    if l.Go? {
      OverUnchanged(s.sh, l.t, s.threads[l.t], l.c);
      if s.sh.over {
        LastStays(s.sh, l.t, s.threads[l.t], l.c);
      }
    }
  }

  lemma {:induction false} OverRun(s: State, ls: seq<Label>)
    requires OverInv(s) && Executable(s, ls)
    ensures OverInv(Exec(s, ls))
    decreases |ls|
  {
    if ls != [] {
      OverStep(s, ls[0]);
      OverRun(Apply(s, ls[0]), ls[1..]);
    }
  }

  // --- Where the code falls short -------------------------------------------------------

  /** One step of thread `t` in a run, its place in the program given explicitly. */
  lemma Walk(s0: State, ls: seq<Label>, sh: Shared, others: map<Tid, Pc>, t: Tid, pc: Pc, c: Choice, sh': Shared, pc': Pc)
    returns (longer: seq<Label>)
    requires Reaches(s0, ls, State(sh, others[t := pc]))
    requires CanGo(sh, pc, c) && !c.Child? && React(sh, t, pc, c) == (sh', pc')
    ensures Reaches(s0, longer, State(sh', others[t := pc']))
    ensures Asks(s0, longer) == Asks(s0, ls) + if pc.ManualWant? then 1 else 0
  {
    var s := State(sh, others[t := pc]);
    var next;
    longer, next := Take(s0, ls, s, Go(t, c));
    assert next.threads == others[t := pc'];
  }

  lemma Enter(s0: State, ls: seq<Label>, sh: Shared, others: map<Tid, Pc>, t: Tid, pc: Pc) returns (longer: seq<Label>)
    requires Reaches(s0, ls, State(sh, others)) && t !in others && IsEntry(pc) && !sh.over
    ensures Reaches(s0, longer, State(sh, others[t := pc]))
    ensures Asks(s0, longer) == Asks(s0, ls) + if pc == CheckLock(AutoCheck) then 1 else 0
  {
    var next;
    longer, next := Take(s0, ls, State(sh, others), Spawn(t, pc));
  }

  /** A manual start that brings the tunnel up. */
  lemma ManualStart(s0: State) returns (ls: seq<Label>)
    requires s0 == State(s0.sh, map[]) && s0.sh.locks == Locks(None, None) && s0.sh.pause.on.None? && !s0.sh.running
    requires !s0.sh.over
    ensures Reaches(s0, ls, State(s0.sh.(running := true, wanted := true), map[0 := Finished]))
  {
    var sh := s0.sh.(wanted := true);
    ls := Enter(s0, [], s0.sh, map[], 0, ManualWant);
    ls := Walk(s0, ls, s0.sh, map[], 0, ManualWant, Plain, sh, ManualTest);
    ls := Walk(s0, ls, sh, map[], 0, ManualTest, Plain, sh, StartLock(Manual));
    ls := WholeStart(s0, ls, sh, map[], 0);
  }

  /** `startTunnelOnce` by thread `t`, undisturbed. */
  lemma WholeStart(s0: State, ls0: seq<Label>, sh: Shared, rest: map<Tid, Pc>, t: Tid) returns (ls: seq<Label>)
    requires Reaches(s0, ls0, State(sh, rest[t := StartLock(Manual)]))
    requires sh.locks == Locks(None, None) && sh.pause.on.None? && !sh.running
    ensures Reaches(s0, ls, State(sh.(running := true), rest[t := Finished]))
  {
    var held := sh.(locks := Locks(Some(t), None));
    ls := Walk(s0, ls0, sh, rest, t, StartLock(Manual), Plain, held, StartRead(Manual));
    ls := Walk(s0, ls, held, rest, t, StartRead(Manual), Plain, held, StartTest(Manual, false));
    ls := Walk(s0, ls, held, rest, t, StartTest(Manual, false), Plain, held, StartCheck(Manual));
    ls := Walk(s0, ls, held, rest, t, StartCheck(Manual), Plain, held, Starting(Manual));
    ls := Built(s0, ls, held, rest, t);
  }

  lemma Built(s0: State, ls0: seq<Label>, held: Shared, rest: map<Tid, Pc>, t: Tid) returns (ls: seq<Label>)
    requires Reaches(s0, ls0, State(held, rest[t := Starting(Manual)])) && held.locks == Locks(Some(t), None)
    ensures Reaches(s0, ls, State(held.(locks := Locks(None, None), running := true), rest[t := Finished]))
  {
    var up := held.(running := true);
    ls := Walk(s0, ls0, held, rest, t, Starting(Manual), Outcome(true), up, StartUnlock(Manual, Up));
    ls := Walk(s0, ls, up, rest, t, StartUnlock(Manual, Up), Plain, up.(locks := Locks(None, None)), Finished);
  }

  /** A whole pause by the network watcher, thread `t`, while the other threads rest. */
  lemma WholePause(s0: State, ls0: seq<Label>, sh: Shared, rest: map<Tid, Pc>, t: Tid) returns (ls: seq<Label>)
    requires Reaches(s0, ls0, State(sh, rest)) && t !in rest && !sh.over
    requires sh.locks == Locks(None, None) && sh.pause == Pause(None, false) && sh.retry.cancel.None?
    ensures Reaches(s0, ls, State(Stopped(sh).(pause := Pause(Some(7), true)), rest[t := Finished]))
  {
    var k := WatcherCheck;
    var one := sh.(locks := Locks(None, Some(t)));
    var marked := one.(pause := Pause(Some(7), false));
    ls := Enter(s0, ls0, sh, rest, t, CheckLock(k));
    ls := Walk(s0, ls, sh, rest, t, CheckLock(k), Plain, one, CheckRead(k));
    ls := Walk(s0, ls, one, rest, t, CheckRead(k), Plain, one, CheckList(k, false));
    ls := Walk(s0, ls, one, rest, t, CheckList(k, false), Listed(Some(7)), one, PauseSet(k, 7));
    ls := Walk(s0, ls, one, rest, t, PauseSet(k, 7), Plain, marked, PauseTake(k));
    ls := PauseTail(s0, ls, marked, rest, t);
  }

  lemma PauseTail(s0: State, ls0: seq<Label>, marked: Shared, rest: map<Tid, Pc>, t: Tid) returns (ls: seq<Label>)
    requires Reaches(s0, ls0, State(marked, rest[t := PauseTake(WatcherCheck)]))
    requires marked.locks == Locks(None, Some(t)) && marked.pause == Pause(Some(7), false) && marked.retry.cancel.None?
    ensures Reaches(s0, ls, State(Stopped(marked).(locks := Locks(None, None), pause := Pause(Some(7), true)),
                                  rest[t := Finished]))
  {
    var k := WatcherCheck;
    var both := marked.(locks := Locks(Some(t), Some(t)));
    ls := Walk(s0, ls0, marked, rest, t, PauseTake(k), Plain, marked, PauseCancel(k, None));
    ls := Walk(s0, ls, marked, rest, t, PauseCancel(k, None), Plain, marked, PauseLock(k));
    ls := Walk(s0, ls, marked, rest, t, PauseLock(k), Plain, both, PauseStop(k));
    ls := PauseEnd(s0, ls, both, rest, t);
  }

  lemma PauseEnd(s0: State, ls0: seq<Label>, both: Shared, rest: map<Tid, Pc>, t: Tid) returns (ls: seq<Label>)
    requires Reaches(s0, ls0, State(both, rest[t := PauseStop(WatcherCheck)]))
    requires both.locks == Locks(Some(t), Some(t)) && both.pause == Pause(Some(7), false)
    ensures Reaches(s0, ls, State(Stopped(both).(locks := Locks(None, None), pause := Pause(Some(7), true)),
                                  rest[t := Finished]))
  {
    var k := WatcherCheck;
    var down := Stopped(both).(pause := Pause(Some(7), true));
    var free := down.(locks := Locks(None, Some(t)));
    if both.running {
      ls := Walk(s0, ls0, both, rest, t, PauseStop(k), Plain, down, PauseClose(k));
      ls := Walk(s0, ls, down, rest, t, PauseClose(k), Plain, down, PauseUnlock(k));
    } else {
      ls := Walk(s0, ls0, both, rest, t, PauseStop(k), Plain, down, PauseUnlock(k));
    }
    ls := Walk(s0, ls, down, rest, t, PauseUnlock(k), Plain, free, CheckUnlock(k, true));
    ls := Walk(s0, ls, free, rest, t, CheckUnlock(k, true), Plain, down.(locks := Locks(None, None)), Finished);
  }

  /** A reload that rebuilds the tunnel restarts it outside `startMu`. A whole pause that falls
      between its look at `running` and its `Stop` is overridden: the tunnel comes up under it. */
  lemma RebuildCanOverridePause() returns (ls: seq<Label>)
    ensures Executable(Init(false), ls)
    ensures PauseInForce(Exec(Init(false), ls)) && Exec(Init(false), ls).sh.running
  {
    var s0 := Init(false);
    var up := s0.sh.(running := true, wanted := true);
    var first := map[0 := Finished];
    var paused := Stopped(up).(pause := Pause(Some(7), true));
    ls := ManualStart(s0);
    ls := Enter(s0, ls, up, first, 1, ReloadRead);
    ls := Walk(s0, ls, up, first, 1, ReloadRead, Plain, up, RebuildStop);
    ls := WholePause(s0, ls, up, first[1 := RebuildStop], 2);
    var rest := map[0 := Finished, 2 := Finished];
    assert first[1 := RebuildStop][2 := Finished] == rest[1 := RebuildStop];
    ls := RebuildFrom(s0, ls, paused, rest, 1);
  }

  lemma RebuildStops(s0: State, ls0: seq<Label>, sh: Shared, rest: map<Tid, Pc>, t: Tid) returns (ls: seq<Label>)
    requires Reaches(s0, ls0, State(sh, rest[t := RebuildStop]))
    ensures Reaches(s0, ls, State(Stopped(sh), rest[t := RebuildCheck(false)]))
    ensures Asks(s0, ls) == Asks(s0, ls0)
  {
    if sh.running {
      ls := Walk(s0, ls0, sh, rest, t, RebuildStop, Plain, Stopped(sh), RebuildClose);
      ls := Walk(s0, ls, Stopped(sh), rest, t, RebuildClose, Plain, Stopped(sh), RebuildCheck(false));
    } else {
      ls := Walk(s0, ls0, sh, rest, t, RebuildStop, Plain, Stopped(sh), RebuildCheck(false));
    }
  }

  /** The rest of a rebuilding reload by thread `t`, undisturbed. */
  lemma RebuildFrom(s0: State, ls0: seq<Label>, sh: Shared, rest: map<Tid, Pc>, t: Tid) returns (ls: seq<Label>)
    requires Reaches(s0, ls0, State(sh, rest[t := RebuildStop]))
    ensures Reaches(s0, ls, State(sh.(running := true, rebuilt := true), rest[t := CheckLock(WatcherCheck)]))
    ensures Asks(s0, ls) == Asks(s0, ls0)
  {
    var down := Stopped(sh);
    ls := RebuildStops(s0, ls0, sh, rest, t);
    ls := Walk(s0, ls, down, rest, t, RebuildCheck(false), Plain, down, RebuildBuild(false));
    ls := Walk(s0, ls, down, rest, t, RebuildBuild(false), Outcome(true), sh.(running := true, rebuilt := true),
               CheckLock(WatcherCheck));
  }
}
