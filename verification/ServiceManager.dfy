/** The service object of internal/service/manager.go: the fields behind its locks, and the methods
    that start, pause, resume, stop and retry, each as one undisturbed call. The object carries the
    run of the Lifecycle machine that its calls amount to, so what holds for every run holds for
    it as well. */
module ServiceManager {
  import opened Basics
  import opened Lifecycle

  // --- What undisturbed calls come to ---------------------------------------------------

  /** The lock and the history fields are back where they were; `cancelRetry`. */
  function RetryCancelled(r: Retry): Retry {
    CancelContext(TakeRetry(r), r.cancel)
  }

  function StartResult(sh: Shared, ok: bool): Attempt {
    if sh.pause.on.Some? then Paused else if sh.running || ok then Up else Failed
  }

  function StartedAlone(sh: Shared, ok: bool): Shared {
    if sh.pause.on.None? && !sh.running then sh.(running := ok) else sh
  }

  function StoppedAlone(sh: Shared): Shared {
    Stopped(sh).(wanted := false, retry := RetryCancelled(sh.retry))
  }

  function PausedAlone(sh: Shared, hit: Adapter): Shared {
    Stopped(sh).(pause := Pause(Some(hit), true), retry := RetryCancelled(sh.retry))
  }

  function ResumedAlone(sh: Shared): Shared {
    sh.(pause := Pause(None, false), retry := if sh.wanted then RecordRetry(sh.retry) else sh.retry)
  }

  function CheckedAlone(sh: Shared, list: Choice): Shared
    requires list.ListFailed? || list.Listed?
  {
    if list.ListFailed? then sh
    else
      match list.hit
      case Some(a) => if sh.pause.on.Some? then sh.(pause := sh.pause.(on := Some(a))) else PausedAlone(sh, a)
      case None => if sh.pause.on.Some? then ResumedAlone(sh) else sh
  }

  function Free(): Locks {
    Locks(None, None)
  }

  /** `startTunnelOnce` by thread `t`, from taking `startMu` to releasing it. */
  lemma SoloStart(s0: State, ls0: seq<Label>, sh: Shared, rest: map<Tid, Pc>, t: Tid, w: Caller, ok: bool)
    returns (ls: seq<Label>)
    requires Reaches(s0, ls0, State(sh, rest[t := StartLock(w)])) && sh.locks.start.None?
    ensures Reaches(s0, ls, State(StartedAlone(sh, ok), rest[t := AfterStart(w, StartResult(sh, ok))]))
    ensures Asks(s0, ls) == Asks(s0, ls0)
  {
    var held := sh.(locks := sh.locks.(start := Some(t)));
    var paused := sh.pause.on.Some?;
    ls := Walk(s0, ls0, sh, rest, t, StartLock(w), Plain, held, StartRead(w));
    ls := Walk(s0, ls, held, rest, t, StartRead(w), Plain, held, StartTest(w, paused));
    ls := SoloStartTested(s0, ls, sh, held, rest, t, w, ok);
  }

  lemma SoloStartTested(s0: State, ls0: seq<Label>, sh: Shared, held: Shared, rest: map<Tid, Pc>, t: Tid, w: Caller, ok: bool)
    returns (ls: seq<Label>)
    requires held == sh.(locks := sh.locks.(start := Some(t))) && sh.locks.start.None?
    requires Reaches(s0, ls0, State(held, rest[t := StartTest(w, sh.pause.on.Some?)]))
    ensures Reaches(s0, ls, State(StartedAlone(sh, ok), rest[t := AfterStart(w, StartResult(sh, ok))]))
    ensures Asks(s0, ls) == Asks(s0, ls0)
  {
    var r := StartResult(sh, ok);
    var after := StartedAlone(held, ok);
    if sh.pause.on.Some? || sh.running {
      ls := Walk(s0, ls0, held, rest, t, StartTest(w, sh.pause.on.Some?), Plain, after, StartUnlock(w, r));
    } else {
      ls := Walk(s0, ls0, held, rest, t, StartTest(w, false), Plain, held, StartCheck(w));
      ls := Walk(s0, ls, held, rest, t, StartCheck(w), Plain, held, Starting(w));
      ls := Walk(s0, ls, held, rest, t, Starting(w), Outcome(ok), after, StartUnlock(w, r));
    }
    ls := Walk(s0, ls, after, rest, t, StartUnlock(w, r), Plain, StartedAlone(sh, ok), AfterStart(w, r));
  }

  /** A whole `StartTunnel`. */
  lemma SoloManualStart(s0: State, ls0: seq<Label>, sh: Shared, rest: map<Tid, Pc>, t: Tid, ok: bool)
    returns (ls: seq<Label>)
    requires Reaches(s0, ls0, State(sh, rest)) && t !in rest && sh.locks.start.None? && !sh.over
    ensures Reaches(s0, ls, State(StartedAlone(sh.(wanted := true), ok), rest[t := Finished]))
    ensures Asks(s0, ls) == Asks(s0, ls0) + 1
  {
    var sh1 := sh.(wanted := true);
    ls := Enter(s0, ls0, sh, rest, t, ManualWant);
    ls := Walk(s0, ls, sh, rest, t, ManualWant, Plain, sh1, ManualTest);
    if sh.running {
      ls := Walk(s0, ls, sh1, rest, t, ManualTest, Plain, sh1, Finished);
    } else {
      ls := Walk(s0, ls, sh1, rest, t, ManualTest, Plain, sh1, StartLock(Manual));
      ls := SoloStart(s0, ls, sh1, rest, t, Manual, ok);
    }
  }

  /** A whole `StopTunnel`. */
  lemma SoloStop(s0: State, ls0: seq<Label>, sh: Shared, rest: map<Tid, Pc>, t: Tid) returns (ls: seq<Label>)
    requires Reaches(s0, ls0, State(sh, rest)) && t !in rest && sh.locks.start.None? && !sh.over
    ensures Reaches(s0, ls, State(StoppedAlone(sh), rest[t := Finished]))
    ensures Asks(s0, ls) == Asks(s0, ls0)
  {
    var sh1 := sh.(wanted := false);
    ls := Enter(s0, ls0, sh, rest, t, StopWant);
    ls := Walk(s0, ls, sh, rest, t, StopWant, Plain, sh1, StopTake);
    ls := SoloStopTake(s0, ls, sh1, rest, t);
  }

  lemma SoloStopTake(s0: State, ls0: seq<Label>, sh: Shared, rest: map<Tid, Pc>, t: Tid) returns (ls: seq<Label>)
    requires Reaches(s0, ls0, State(sh, rest[t := StopTake])) && sh.locks.start.None?
    ensures Reaches(s0, ls, State(Stopped(sh).(retry := RetryCancelled(sh.retry)), rest[t := Finished]))
    ensures Asks(s0, ls) == Asks(s0, ls0)
  {
    var sh1 := sh.(retry := TakeRetry(sh.retry));
    var sh2 := sh.(retry := RetryCancelled(sh.retry));
    ls := Walk(s0, ls0, sh, rest, t, StopTake, Plain, sh1, StopCancel(sh.retry.cancel));
    ls := Walk(s0, ls, sh1, rest, t, StopCancel(sh.retry.cancel), Plain, sh2, StopLock);
    ls := SoloStopLocked(s0, ls, sh2, rest, t);
  }

  lemma SoloStopLocked(s0: State, ls0: seq<Label>, sh: Shared, rest: map<Tid, Pc>, t: Tid) returns (ls: seq<Label>)
    requires Reaches(s0, ls0, State(sh, rest[t := StopLock])) && sh.locks.start.None?
    ensures Reaches(s0, ls, State(Stopped(sh), rest[t := Finished]))
    ensures Asks(s0, ls) == Asks(s0, ls0)
  {
    var held := sh.(locks := sh.locks.(start := Some(t)));
    ls := Walk(s0, ls0, sh, rest, t, StopLock, Plain, held, StopDown);
    ls := SoloStopDown(s0, ls, held, rest, t);
    ls := Walk(s0, ls, Stopped(held), rest, t, StopUnlock, Plain, Stopped(sh), Finished);
  }

  /** `Tunnel.Stop`, whether there is a device to close or not. */
  lemma SoloStopDown(s0: State, ls0: seq<Label>, sh: Shared, rest: map<Tid, Pc>, t: Tid) returns (ls: seq<Label>)
    requires Reaches(s0, ls0, State(sh, rest[t := StopDown]))
    ensures Reaches(s0, ls, State(Stopped(sh), rest[t := StopUnlock]))
    ensures Asks(s0, ls) == Asks(s0, ls0)
  {
    if sh.running {
      ls := Walk(s0, ls0, sh, rest, t, StopDown, Plain, Stopped(sh), StopClose);
      ls := Walk(s0, ls, Stopped(sh), rest, t, StopClose, Plain, Stopped(sh), StopUnlock);
    } else {
      ls := Walk(s0, ls0, sh, rest, t, StopDown, Plain, Stopped(sh), StopUnlock);
    }
  }

  /** `pause` under `conflictMu`. */
  lemma SoloPause(s0: State, ls0: seq<Label>, sh: Shared, rest: map<Tid, Pc>, t: Tid, k: Checker, hit: Adapter)
    returns (ls: seq<Label>)
    requires Reaches(s0, ls0, State(sh, rest[t := PauseSet(k, hit)])) && sh.locks.start.None?
    requires !sh.pause.done
    ensures Reaches(s0, ls, State(PausedAlone(sh, hit), rest[t := CheckUnlock(k, true)]))
    ensures Asks(s0, ls) == Asks(s0, ls0)
  {
    var sh1 := sh.(pause := Pause(Some(hit), false));
    var sh2 := sh1.(retry := TakeRetry(sh.retry));
    var sh3 := sh1.(retry := RetryCancelled(sh.retry));
    ls := Walk(s0, ls0, sh, rest, t, PauseSet(k, hit), Plain, sh1, PauseTake(k));
    ls := Walk(s0, ls, sh1, rest, t, PauseTake(k), Plain, sh2, PauseCancel(k, sh.retry.cancel));
    ls := Walk(s0, ls, sh2, rest, t, PauseCancel(k, sh.retry.cancel), Plain, sh3, PauseLock(k));
    ls := SoloPauseLocked(s0, ls, sh3, rest, t, k, hit);
  }

  lemma SoloPauseLocked(s0: State, ls0: seq<Label>, sh: Shared, rest: map<Tid, Pc>, t: Tid, k: Checker, hit: Adapter)
    returns (ls: seq<Label>)
    requires Reaches(s0, ls0, State(sh, rest[t := PauseLock(k)])) && sh.locks.start.None?
    requires sh.pause == Pause(Some(hit), false)
    ensures Reaches(s0, ls, State(Stopped(sh).(pause := Pause(Some(hit), true)), rest[t := CheckUnlock(k, true)]))
    ensures Asks(s0, ls) == Asks(s0, ls0)
  {
    var held := sh.(locks := sh.locks.(start := Some(t)));
    var down := Stopped(held).(pause := Pause(Some(hit), true));
    ls := Walk(s0, ls0, sh, rest, t, PauseLock(k), Plain, held, PauseStop(k));
    ls := SoloPauseStop(s0, ls, held, rest, t, k);
    ls := Walk(s0, ls, down, rest, t, PauseUnlock(k), Plain, Stopped(sh).(pause := Pause(Some(hit), true)), CheckUnlock(k, true));
  }

  lemma SoloPauseStop(s0: State, ls0: seq<Label>, sh: Shared, rest: map<Tid, Pc>, t: Tid, k: Checker) returns (ls: seq<Label>)
    requires Reaches(s0, ls0, State(sh, rest[t := PauseStop(k)]))
    ensures Reaches(s0, ls, State(Stopped(sh).(pause := sh.pause.(done := true)), rest[t := PauseUnlock(k)]))
    ensures Asks(s0, ls) == Asks(s0, ls0)
  {
    var down := Stopped(sh).(pause := sh.pause.(done := true));
    if sh.running {
      ls := Walk(s0, ls0, sh, rest, t, PauseStop(k), Plain, down, PauseClose(k));
      ls := Walk(s0, ls, down, rest, t, PauseClose(k), Plain, down, PauseUnlock(k));
    } else {
      ls := Walk(s0, ls0, sh, rest, t, PauseStop(k), Plain, down, PauseUnlock(k));
    }
  }

  /** The threads after `resume`: it may have started a retry loop. */
  function AfterResume(sh: Shared, rest: map<Tid, Pc>, child: Tid): map<Tid, Pc> {
    if sh.wanted then rest[child := LoopWait(sh.retry.gen + 1, RETRY_MIN)] else rest
  }

  lemma SoloResume(s0: State, ls0: seq<Label>, sh: Shared, rest: map<Tid, Pc>, t: Tid, k: Checker, child: Tid)
    returns (ls: seq<Label>)
    requires Reaches(s0, ls0, State(sh, rest[t := ResumeClear(k)])) && child !in rest && child != t
    ensures Reaches(s0, ls, State(ResumedAlone(sh), AfterResume(sh, rest, child)[t := CheckUnlock(k, false)]))
    ensures Asks(s0, ls) == Asks(s0, ls0)
  {
    ls := SoloClear(s0, ls0, sh, rest, t, k);
    if sh.wanted {
      ls := SoloRetry(s0, ls, sh.(pause := Pause(None, false)), rest, t, k, child);
    }
  }

  lemma SoloClear(s0: State, ls0: seq<Label>, sh: Shared, rest: map<Tid, Pc>, t: Tid, k: Checker) returns (ls: seq<Label>)
    requires Reaches(s0, ls0, State(sh, rest[t := ResumeClear(k)]))
    ensures Reaches(s0, ls, State(sh.(pause := Pause(None, false)),
                                  rest[t := if sh.wanted then ResumeRetry(k) else CheckUnlock(k, false)]))
    ensures Asks(s0, ls) == Asks(s0, ls0)
  {
    var next := if sh.wanted then ResumeRetry(k) else CheckUnlock(k, false);
    ls := Walk(s0, ls0, sh, rest, t, ResumeClear(k), Plain, sh.(pause := Pause(None, false)), next);
  }

  lemma SoloRetry(s0: State, ls0: seq<Label>, sh: Shared, rest: map<Tid, Pc>, t: Tid, k: Checker, child: Tid)
    returns (ls: seq<Label>)
    requires Reaches(s0, ls0, State(sh, rest[t := ResumeRetry(k)])) && child !in rest && child != t
    ensures Reaches(s0, ls, State(sh.(retry := RecordRetry(sh.retry)),
                                  rest[child := LoopWait(sh.retry.gen + 1, RETRY_MIN)][t := CheckUnlock(k, false)]))
    ensures Asks(s0, ls) == Asks(s0, ls0)
  {
    var s := State(sh, rest[t := ResumeRetry(k)]);
    var next;
    ls, next := Take(s0, ls0, s, Go(t, Child(child)));
    assert next.threads == rest[child := LoopWait(sh.retry.gen + 1, RETRY_MIN)][t := CheckUnlock(k, false)];
  }

  /** The threads of `rest` are where they were. */
  predicate Keeps(rest: map<Tid, Pc>, others: map<Tid, Pc>) {
    forall u :: u in rest ==> u in others && others[u] == rest[u]
  }

  /** A whole `checkConflict`. */
  lemma SoloCheck(s0: State, ls0: seq<Label>, sh: Shared, rest: map<Tid, Pc>, t: Tid, k: Checker, list: Choice, child: Tid)
    returns (ls: seq<Label>, others: map<Tid, Pc>)
    requires Reaches(s0, ls0, State(sh, rest)) && t !in rest && child !in rest && child != t && !sh.over
    requires sh.locks == Free() && (sh.pause.on.None? ==> !sh.pause.done) && (list.ListFailed? || list.Listed?)
    ensures var after := CheckedAlone(sh, list);
      Reaches(s0, ls, State(after, others[t := AfterCheck(k, after.pause.on.Some?)])) && Keeps(rest, others)
    ensures Asks(s0, ls) == Asks(s0, ls0) + if k.AutoCheck? then 1 else 0
  {
    ls := Enter(s0, ls0, sh, rest, t, CheckLock(k));
    ls, others := SoloCheckFrom(s0, ls, sh, rest, t, k, list, child);
  }

  lemma SoloCheckFrom(s0: State, ls0: seq<Label>, sh: Shared, rest: map<Tid, Pc>, t: Tid, k: Checker, list: Choice, child: Tid)
    returns (ls: seq<Label>, others: map<Tid, Pc>)
    requires Reaches(s0, ls0, State(sh, rest[t := CheckLock(k)])) && child !in rest && child != t
    requires sh.locks == Free() && (sh.pause.on.None? ==> !sh.pause.done) && (list.ListFailed? || list.Listed?)
    ensures var after := CheckedAlone(sh, list);
      Reaches(s0, ls, State(after, others[t := AfterCheck(k, after.pause.on.Some?)])) && Keeps(rest, others)
    ensures Asks(s0, ls) == Asks(s0, ls0)
  {
    var one := sh.(locks := Locks(None, Some(t)));
    ls := SoloLook(s0, ls0, sh, rest, t, k);
    ls, others := SoloDecide(s0, ls, one, rest, t, k, list, child);
    CheckedUnderLock(sh, one.locks, list);
    ls := SoloLeave(s0, ls, CheckedAlone(one, list), others, t, k, CheckedAlone(one, list).pause.on.Some?);
  }

  /** The check has nothing to do with the locks. */
  lemma CheckedUnderLock(sh: Shared, locks: Locks, list: Choice)
    requires list.ListFailed? || list.Listed?
    ensures CheckedAlone(sh.(locks := locks), list) == CheckedAlone(sh, list).(locks := locks)
    ensures CheckedAlone(sh, list).locks == sh.locks
  {
  }

  /** Takes `conflictMu` and looks at `pausedBy`. */
  lemma SoloLook(s0: State, ls0: seq<Label>, sh: Shared, rest: map<Tid, Pc>, t: Tid, k: Checker) returns (ls: seq<Label>)
    requires Reaches(s0, ls0, State(sh, rest[t := CheckLock(k)])) && sh.locks == Free()
    ensures Reaches(s0, ls, State(sh.(locks := Locks(None, Some(t))), rest[t := CheckList(k, sh.pause.on.Some?)]))
    ensures Asks(s0, ls) == Asks(s0, ls0)
  {
    var one := sh.(locks := Locks(None, Some(t)));
    ls := Walk(s0, ls0, sh, rest, t, CheckLock(k), Plain, one, CheckRead(k));
    ls := Walk(s0, ls, one, rest, t, CheckRead(k), Plain, one, CheckList(k, sh.pause.on.Some?));
  }

  lemma SoloLeave(s0: State, ls0: seq<Label>, sh: Shared, rest: map<Tid, Pc>, t: Tid, k: Checker, paused: bool)
    returns (ls: seq<Label>)
    requires Reaches(s0, ls0, State(sh, rest[t := CheckUnlock(k, paused)])) && sh.locks == Locks(None, Some(t))
    ensures Reaches(s0, ls, State(sh.(locks := Free()), rest[t := AfterCheck(k, paused)]))
    ensures Asks(s0, ls) == Asks(s0, ls0)
  {
    ls := Walk(s0, ls0, sh, rest, t, CheckUnlock(k, paused), Plain, sh.(locks := Free()), AfterCheck(k, paused));
  }

  lemma SoloDecide(s0: State, ls0: seq<Label>, sh: Shared, rest: map<Tid, Pc>, t: Tid, k: Checker, list: Choice, child: Tid)
    returns (ls: seq<Label>, others: map<Tid, Pc>)
    requires Reaches(s0, ls0, State(sh, rest[t := CheckList(k, sh.pause.on.Some?)])) && child !in rest && child != t
    requires sh.locks == Locks(None, Some(t)) && (sh.pause.on.None? ==> !sh.pause.done) && (list.ListFailed? || list.Listed?)
    ensures var after := CheckedAlone(sh, list);
      Reaches(s0, ls, State(after, others[t := CheckUnlock(k, after.pause.on.Some?)])) && Keeps(rest, others)
    ensures Asks(s0, ls) == Asks(s0, ls0)
  {
    var was := sh.pause.on.Some?;
    others := rest;
    if list.ListFailed? {
      ls := Walk(s0, ls0, sh, rest, t, CheckList(k, was), list, sh, CheckUnlock(k, was));
    } else if list.hit.Some? {
      if was {
        ls := Walk(s0, ls0, sh, rest, t, CheckList(k, was), list, sh, PauseMove(k, list.hit.value));
        ls := Walk(s0, ls, sh, rest, t, PauseMove(k, list.hit.value), Plain, CheckedAlone(sh, list), CheckUnlock(k, true));
      } else {
        ls := Walk(s0, ls0, sh, rest, t, CheckList(k, was), list, sh, PauseSet(k, list.hit.value));
        ls := SoloPause(s0, ls, sh, rest, t, k, list.hit.value);
      }
    } else if was {
      ls := Walk(s0, ls0, sh, rest, t, CheckList(k, was), list, sh, ResumeClear(k));
      ls := SoloResume(s0, ls, sh, rest, t, k, child);
      others := AfterResume(sh, rest, child);
    } else {
      ls := Walk(s0, ls0, sh, rest, t, CheckList(k, was), list, sh, CheckUnlock(k, false));
    }
  }

  // --- The retry loop -------------------------------------------------------------------

  /** `clearRetry`. */
  function Forgotten(sh: Shared, g: Gen): Shared {
    sh.(retry := ClearRetry(CancelContext(sh.retry, Some(g)), g))
  }

  /** One turn of the loop, woken by `c`: whether it is the last, and what it leaves. */
  predicate TurnEnds(sh: Shared, g: Gen, c: Choice, ok: bool) {
    c.OnDone? || sh.running || IsCancelled(sh.retry, g) || !StartResult(sh, ok).Failed?
  }

  function TurnAlone(sh: Shared, g: Gen, c: Choice, ok: bool): Shared {
    var sh1 := if c.OnWake? then sh.(wake := false) else sh;
    var sh2 := if c.OnDone? || sh.running then sh1 else StartedAlone(sh1.(retry := CountLate(sh.retry, g)), ok);
    if TurnEnds(sh, g, c, ok) then Forgotten(sh2, g) else sh2
  }

  lemma SoloForget(s0: State, ls0: seq<Label>, sh: Shared, rest: map<Tid, Pc>, t: Tid, g: Gen) returns (ls: seq<Label>)
    requires Reaches(s0, ls0, State(sh, rest[t := LoopCancel(g)]))
    ensures Reaches(s0, ls, State(Forgotten(sh, g), rest[t := Finished]))
    ensures Asks(s0, ls) == Asks(s0, ls0)
  {
    var sh1 := sh.(retry := CancelContext(sh.retry, Some(g)));
    ls := Walk(s0, ls0, sh, rest, t, LoopCancel(g), Plain, sh1, LoopClear(g));
    ls := Walk(s0, ls, sh1, rest, t, LoopClear(g), Plain, Forgotten(sh, g), Finished);
  }

  /** What the select of the loop can see. */
  predicate Wakes(c: Choice, cancelled: bool, wake: bool) {
    (c.OnDone? && cancelled) || (c.OnWake? && wake) || c.OnTimer?
  }

  lemma TurnLeaves(sh: Shared, g: Gen, c: Choice, ok: bool)
    requires c.OnDone? <==> IsCancelled(sh.retry, g)
    ensures TurnEnds(sh, g, c, ok) <==> sh.running || IsCancelled(sh.retry, g) || sh.pause.on.Some? || ok
    ensures var after := TurnAlone(sh, g, c, ok);
      && (after.running <==> sh.running || (!IsCancelled(sh.retry, g) && sh.pause.on.None? && ok))
      && after.retry.gen == sh.retry.gen && after.pause == sh.pause && after.locks == sh.locks && after.retry.down == sh.retry.down
      && if TurnEnds(sh, g, c, ok)
         then g in after.retry.cancelled && after.retry.cancel == (if sh.retry.gen == g then None else sh.retry.cancel)
         else after.retry.cancelled == sh.retry.cancelled && after.retry.cancel == sh.retry.cancel
  {
  }

  lemma SoloTurn(s0: State, ls0: seq<Label>, sh: Shared, rest: map<Tid, Pc>, t: Tid, g: Gen, d: nat, c: Choice, ok: bool)
    returns (ls: seq<Label>)
    requires t in rest && rest[t] == LoopWait(g, d) && sh.locks.start.None?
    requires Reaches(s0, ls0, State(sh, rest)) && Wakes(c, IsCancelled(sh.retry, g), sh.wake)
    ensures Reaches(s0, ls, State(TurnAlone(sh, g, c, ok),
                                  rest[t := if TurnEnds(sh, g, c, ok) then Finished else LoopWait(g, NextDelay(d))]))
    ensures Asks(s0, ls) == Asks(s0, ls0)
  {
    var sh1 := if c.OnWake? then sh.(wake := false) else sh;
    assert rest == rest[t := LoopWait(g, d)];
    if c.OnDone? {
      ls := Walk(s0, ls0, sh, rest, t, LoopWait(g, d), c, sh, LoopCancel(g));
      ls := SoloForget(s0, ls, sh, rest, t, g);
    } else {
      ls := Walk(s0, ls0, sh, rest, t, LoopWait(g, d), c, sh1, LoopTest(g, d));
      if sh.running {
        ls := Walk(s0, ls, sh1, rest, t, LoopTest(g, d), Plain, sh1, LoopCancel(g));
        ls := SoloForget(s0, ls, sh1, rest, t, g);
      } else {
        ls := SoloAttempt(s0, ls, sh1, rest, t, g, d, ok);
      }
    }
  }

  lemma SoloAttempt(s0: State, ls0: seq<Label>, sh: Shared, rest: map<Tid, Pc>, t: Tid, g: Gen, d: nat, ok: bool)
    returns (ls: seq<Label>)
    requires Reaches(s0, ls0, State(sh, rest[t := LoopTest(g, d)])) && sh.locks.start.None? && !sh.running
    ensures var after := StartedAlone(sh.(retry := CountLate(sh.retry, g)), ok);
      var ends := IsCancelled(sh.retry, g) || !StartResult(sh, ok).Failed?;
      Reaches(s0, ls, State(if ends then Forgotten(after, g) else after,
                            rest[t := if ends then Finished else LoopWait(g, NextDelay(d))]))
    ensures Asks(s0, ls) == Asks(s0, ls0)
  {
    var counted := sh.(retry := CountLate(sh.retry, g));
    var after := StartedAlone(counted, ok);
    var r := StartResult(sh, ok);
    ls := Walk(s0, ls0, sh, rest, t, LoopTest(g, d), Plain, counted, StartLock(Loop(g, d)));
    ls := SoloStart(s0, ls, counted, rest, t, Loop(g, d), ok);
    ls := SoloReturned(s0, ls, after, rest, t, g, d, r);
  }

  lemma SoloReturned(s0: State, ls0: seq<Label>, sh: Shared, rest: map<Tid, Pc>, t: Tid, g: Gen, d: nat, r: Lifecycle.Attempt)
    returns (ls: seq<Label>)
    requires Reaches(s0, ls0, State(sh, rest[t := LoopReturned(g, d, r)]))
    ensures var ends := IsCancelled(sh.retry, g) || !r.Failed?;
      Reaches(s0, ls, State(if ends then Forgotten(sh, g) else sh, rest[t := if ends then Finished else LoopWait(g, NextDelay(d))]))
    ensures Asks(s0, ls) == Asks(s0, ls0)
  {
    if IsCancelled(sh.retry, g) || !r.Failed? {
      ls := Walk(s0, ls0, sh, rest, t, LoopReturned(g, d, r), Plain, sh, LoopCancel(g));
      ls := SoloForget(s0, ls, sh, rest, t, g);
    } else {
      ls := Walk(s0, ls0, sh, rest, t, LoopReturned(g, d, r), Plain, sh, LoopWait(g, NextDelay(d)));
    }
  }

  /** The delay before the i-th attempt of a loop: 1, 2, 4, ... and never above a minute. */
  function Delay(i: nat): nat {
    if i == 0 then RETRY_MIN else NextDelay(Delay(i - 1))
  }

  function Delays(n: nat): (ds: seq<nat>)
    ensures |ds| == n
  {
    if n == 0 then [] else Delays(n - 1) + [Delay(n - 1)]
  }

  /** The waits of a loop: the first is a second, each is double the one before up to a minute. */
  lemma {:induction false} DelaysDouble(n: nat, i: nat)
    requires i < n
    ensures RETRY_MIN <= Delays(n)[i] <= RETRY_MAX
    ensures Delays(n)[i] == if i == 0 then RETRY_MIN else Min(2 * Delays(n)[i - 1], RETRY_MAX)
  {
    if i < n - 1 {
      DelaysDouble(n - 1, i);
    } else if i > 0 {
      DelaysDouble(n - 1, i - 1);
    }
  }

  /** How many turns a loop takes, given which of its starts succeed: up to and including the first that
      does, and all of them if none does; but one turn, without a start, if there is nothing to try. */
  predicate EndsAfter(attempts: seq<bool>, trying: bool, ended: bool, n: nat) {
    && n <= |attempts|
    && if !trying then (ended <==> attempts != []) && n == (if ended then 1 else 0)
       else if ended then 0 < n && attempts[n - 1] && forall i :: 0 <= i < n - 1 ==> !attempts[i]
       else n == |attempts| && forall i :: 0 <= i < n ==> !attempts[i]
  }

  lemma OneMoreTurn(attempts: seq<bool>, trying: bool, i: nat, ended: bool)
    requires i < |attempts| && EndsAfter(attempts[..i], trying, false, i)
    requires ended <==> !trying || attempts[i]
    ensures if ended then EndsAfter(attempts, trying, true, i + 1) && EndsAfter(attempts[..i + 1], trying, true, i + 1)
            else EndsAfter(attempts[..i + 1], trying, false, i + 1)
  {
  }

  /** What a retry loop needs to try again: a tunnel that is down and not paused, and a context that is not
      over. */
  predicate Trying(sh: Shared, g: Gen) {
    !sh.running && sh.pause.on.None? && !IsCancelled(sh.retry, g)
  }

  /** What wakes the loop when nothing else happens. */
  function Woken(sh: Shared, g: Gen): Choice {
    if IsCancelled(sh.retry, g) then OnDone else if sh.wake then OnWake else OnTimer
  }

  function LoopAlone(sh: Shared, g: Gen, attempts: seq<bool>): Shared
    decreases |attempts|
  {
    if attempts == [] then sh
    else
      var before := LoopAlone(sh, g, attempts[..|attempts| - 1]);
      TurnAlone(before, g, Woken(before, g), attempts[|attempts| - 1])
  }

  /** Turns that fail leave everything as the next one needs it. */
  lemma {:induction false} LoopKeeps(sh: Shared, g: Gen, attempts: seq<bool>)
    requires EndsAfter(attempts, Trying(sh, g), false, |attempts|)
    ensures var after := LoopAlone(sh, g, attempts);
      && (Trying(after, g) <==> Trying(sh, g)) && after.running == sh.running && after.locks == sh.locks
      && after.retry.cancel == sh.retry.cancel && after.retry.gen == sh.retry.gen
    decreases |attempts|
  {
    if attempts != [] {
      var front := attempts[..|attempts| - 1];
      LoopKeeps(sh, g, front);
      var before := LoopAlone(sh, g, front);
      TurnLeaves(before, g, Woken(before, g), attempts[|attempts| - 1]);
    }
  }

  lemma NextTurn(sh: Shared, g: Gen, attempts: seq<bool>, i: nat)
    requires i < |attempts| && EndsAfter(attempts[..i], Trying(sh, g), false, i)
    ensures var before := LoopAlone(sh, g, attempts[..i]);
      && LoopAlone(sh, g, attempts[..i + 1]) == TurnAlone(before, g, Woken(before, g), attempts[i])
      && (Trying(before, g) <==> Trying(sh, g))
  {
    assert attempts[..i + 1][..i] == attempts[..i];
    LoopKeeps(sh, g, attempts[..i]);
  }

  lemma LoopLeaves(sh: Shared, g: Gen, attempts: seq<bool>, ended: bool)
    requires EndsAfter(attempts, Trying(sh, g), ended, |attempts|)
    ensures var after := LoopAlone(sh, g, attempts);
      && after.running == (sh.running || (Trying(sh, g) && ended)) && after.retry.gen == sh.retry.gen && after.locks == sh.locks
      && after.retry.cancel == (if ended && sh.retry.gen == g then None else sh.retry.cancel)
      && (ended ==> g in after.retry.cancelled)
  {
    if ended {
      var front := attempts[..|attempts| - 1];
      LoopKeeps(sh, g, front);
      var before := LoopAlone(sh, g, front);
      TurnLeaves(before, g, Woken(before, g), attempts[|attempts| - 1]);
    } else {
      LoopKeeps(sh, g, attempts);
    }
  }

  /** A retry loop from its start, through the turns it takes, as a run. */
  lemma {:induction false} SoloLoop(s0: State, ls0: seq<Label>, sh: Shared, rest: map<Tid, Pc>, t: Tid, g: Gen, attempts: seq<bool>,
                                    ended: bool)
    returns (ls: seq<Label>)
    requires Reaches(s0, ls0, State(sh, rest)) && t in rest && rest[t] == LoopWait(g, RETRY_MIN) && sh.locks.start.None?
    requires EndsAfter(attempts, Trying(sh, g), ended, |attempts|)
    ensures Reaches(s0, ls, State(LoopAlone(sh, g, attempts), rest[t := if ended then Finished else LoopWait(g, Delay(|attempts|))]))
    decreases |attempts|
  {
    if attempts == [] {
      ls := ls0;
      assert rest == rest[t := LoopWait(g, RETRY_MIN)];
    } else {
      var front := attempts[..|attempts| - 1];
      ls := SoloLoop(s0, ls0, sh, rest, t, g, front, false);
      LoopKeeps(sh, g, front);
      ls := SoloWoken(s0, ls, LoopAlone(sh, g, front), rest[t := LoopWait(g, Delay(|front|))], t, g, Delay(|front|), attempts[|front|]);
    }
  }

  lemma SoloWoken(s0: State, ls0: seq<Label>, sh: Shared, rest: map<Tid, Pc>, t: Tid, g: Gen, d: nat, ok: bool)
    returns (ls: seq<Label>)
    requires Reaches(s0, ls0, State(sh, rest)) && t in rest && rest[t] == LoopWait(g, d) && sh.locks.start.None?
    ensures Reaches(s0, ls, State(TurnAlone(sh, g, Woken(sh, g), ok),
                                  rest[t := if !Trying(sh, g) || ok then Finished else LoopWait(g, NextDelay(d))]))
  {
    TurnLeaves(sh, g, Woken(sh, g), ok);
    ls := SoloTurn(s0, ls0, sh, rest, t, g, d, Woken(sh, g), ok);
  }

  // --- The object -----------------------------------------------------------------------

  class Manager {
    var startMu: Option<Tid>
    var conflictMu: Option<Tid>
    var pausedBy: Option<Adapter>
    var tunnelWanted: bool
    var running: bool              // the tunnel
    var retryWake: bool
    var retryGen: Gen
    var retryCancel: Option<Gen>
    var cancelled: set<Gen>        // contexts
    var down: bool
    ghost var pauseDone: bool
    ghost var rebuilt: bool
    ghost var late: map<Gen, nat>
    ghost var run: seq<Label>
    ghost var threads: map<Tid, Pc>
    ghost const wantedAtFirst: bool

    ghost function View(): Shared
      reads this
    {
      Shared(Locks(startMu, conflictMu), Pause(pausedBy, pauseDone), running, rebuilt, tunnelWanted, retryWake, false,
             Retry(retryGen, retryCancel, cancelled, down, late))
    }

    /** The object is where its run leads, and no call is under way. */
    ghost predicate Valid()
      reads this
    {
      && Reaches(Init(wantedAtFirst), run, State(View(), threads))
      && startMu.None? && conflictMu.None? && (pausedBy.None? ==> !pauseDone)
    }

    constructor (wanted: bool)
      ensures Valid() && View() == Init(wanted).sh && threads == map[]
    {
      startMu, conflictMu, pausedBy, tunnelWanted, running, retryWake := None, None, None, wanted, false, false;
      retryGen, retryCancel, cancelled, down := 0, None, {}, false;
      pauseDone, rebuilt, late, run, threads, wantedAtFirst := false, false, map[], [], map[], wanted;
    }

    /** `cancelRetry`. */
    method CancelRetry()
      modifies `retryCancel, `cancelled
      ensures View() == old(View()).(retry := RetryCancelled(old(View().retry)))
      ensures retryCancel.None? && (old(retryCancel).Some? ==> old(retryCancel).value in cancelled)
    {
      var cancel := retryCancel;
      retryCancel := None;
      if cancel.Some? {
        cancelled := cancelled + {cancel.value};
      }
    }

    /** The critical section of `retryStart`: the loop on record is cancelled, and the new one has
        a generation of its own. */
    method RecordNewRetry()
      modifies `retryGen, `retryCancel, `cancelled
      ensures View() == old(View()).(retry := RecordRetry(old(View().retry)))
      ensures retryGen == old(retryGen) + 1 && retryCancel == Some(retryGen)
      ensures old(retryCancel).Some? ==> old(retryCancel).value in cancelled
    {
      if retryCancel.Some? {
        cancelled := cancelled + {retryCancel.value};
      }
      retryGen := retryGen + 1;
      retryCancel := Some(retryGen);
    }

    /** `clearRetry`: a finishing loop forgets itself, and never its replacement. */
    method ClearFinished(gen: Gen)
      modifies `retryCancel, `cancelled
      ensures View() == Forgotten(old(View()), gen)
      ensures gen in cancelled && retryCancel == if retryGen == gen then None else old(retryCancel)
    {
      cancelled := cancelled + {gen};
      if retryGen == gen {
        retryCancel := None;
      }
    }

    /** `startTunnelOnce`, whose `startTunnel` succeeds if `ok`: refused under a pause, a no-op on a
        running tunnel, and an attempt otherwise. */
    method StartTunnelOnce(t: Tid, ok: bool) returns (r: Attempt)
      requires startMu.None?
      modifies `startMu, `running
      ensures r == StartResult(old(View()), ok) && View() == StartedAlone(old(View()), ok)
      ensures pausedBy.Some? ==> r == Paused && running == old(running)
    {
      startMu := Some(t);
      if pausedBy.Some? {
        r := Paused;
      } else if running {
        r := Up;
      } else {
        running := ok;
        r := if ok then Up else Failed;
      }
      startMu := None;
    }

    /** `StartTunnel`. */
    method StartTunnel(t: Tid, ok: bool) returns (r: Attempt)
      requires Valid() && t !in threads
      modifies `tunnelWanted, `startMu, `running, `run, `threads
      ensures Valid() && tunnelWanted && View() == StartedAlone(old(View()).(wanted := true), ok)
      ensures pausedBy.Some? && !old(running) ==> r == Paused && !running
      ensures pausedBy.None? ==> running == (old(running) || ok) && (r == Up <==> running)
    {
      run := SoloManualStart(Init(wantedAtFirst), run, View(), threads, t, ok);
      threads := threads[t := Finished];
      tunnelWanted := true;
      if running {
        r := Up;
      } else {
        r := StartTunnelOnce(t, ok);
      }
    }

    /** `StopTunnel`, undisturbed: the tunnel is down, not wanted any more, and no retry is on record.
        What can bring it back all the same is the matter of the module Overrides. */
    method StopTunnel(t: Tid)
      requires Valid() && t !in threads
      modifies `tunnelWanted, `retryCancel, `cancelled, `startMu, `running, `rebuilt, `run, `threads
      ensures Valid() && View() == StoppedAlone(old(View()))
      ensures !running && !tunnelWanted && retryCancel.None? && pausedBy == old(pausedBy)
    {
      run := SoloStop(Init(wantedAtFirst), run, View(), threads, t);
      threads := threads[t := Finished];
      Withdraw(t);
    }

    method Withdraw(t: Tid)
      requires startMu.None?
      modifies `tunnelWanted, `retryCancel, `cancelled, `startMu, `running, `rebuilt
      ensures View() == StoppedAlone(old(View()))
    {
      tunnelWanted := false;
      CancelRetry();
      startMu := Some(t);
      running, rebuilt := false, false;
      startMu := None;
    }

    /** `pause`: afterwards the tunnel is down, and what could have brought it back is cancelled. */
    method PauseTunnel(t: Tid, hit: Adapter)
      requires startMu.None?
      modifies `pausedBy, `pauseDone, `retryCancel, `cancelled, `startMu, `running, `rebuilt
      ensures View() == PausedAlone(old(View()), hit)
      ensures pausedBy == Some(hit) && !running && retryCancel.None?
      ensures old(retryCancel).Some? ==> old(retryCancel).value in cancelled
    {
      pausedBy := Some(hit);
      CancelRetry();
      startMu := Some(t);
      running, rebuilt, pauseDone := false, false, true;
      startMu := None;
    }

    /** `resume`: the pause is over, and a retry is under way exactly if the tunnel is wanted. */
    method ResumeTunnel()
      modifies `pausedBy, `pauseDone, `retryGen, `retryCancel, `cancelled
      ensures View() == ResumedAlone(old(View()))
      ensures pausedBy.None?
      ensures if tunnelWanted then retryGen == old(retryGen) + 1 && retryCancel == Some(retryGen)
              else retryGen == old(retryGen) && retryCancel == old(retryCancel)
    {
      pausedBy, pauseDone := None, false;
      if tunnelWanted {
        RecordNewRetry();
      }
    }

    /** `checkConflict`, with what listing the adapters gave: it pauses on a conflict and resumes
        without one, leaves everything alone when the list cannot be read, and returns whether the
        tunnel is paused afterwards. `child` is the goroutine of the retry it may start. */
    method CheckConflict(t: Tid, ghost k: Checker, list: Choice, ghost child: Tid) returns (paused: bool)
      requires Valid() && t !in threads && child !in threads && child != t && (list.ListFailed? || list.Listed?)
      modifies this
      ensures Valid() && View() == CheckedAlone(old(View()), list) && t in threads && threads[t] == AfterCheck(k, paused)
      ensures paused == pausedBy.Some?
    {
      ghost var others;
      run, others := SoloCheck(Init(wantedAtFirst), run, View(), threads, t, k, list, child);
      paused := Compare(t, list);
      threads := others[t := AfterCheck(k, paused)];
    }

    /** Its body. */
    method Compare(t: Tid, list: Choice) returns (paused: bool)
      requires startMu.None? && conflictMu.None? && (list.ListFailed? || list.Listed?)
      modifies `conflictMu, `pausedBy, `pauseDone, `retryGen, `retryCancel, `cancelled, `startMu, `running, `rebuilt
      ensures View() == CheckedAlone(old(View()), list)
      ensures paused == pausedBy.Some? && (list.Listed? ==> pausedBy == list.hit)
      ensures paused && old(pausedBy).None? ==> !running && retryCancel.None?
      ensures !paused && old(pausedBy).Some? && tunnelWanted ==> retryCancel == Some(retryGen)
    {
      conflictMu := Some(t);
      var was := pausedBy;
      if list.ListFailed? {
        paused := was.Some?;
      } else if list.hit.Some? && was.None? {
        PauseTunnel(t, list.hit.value);
        paused := true;
      } else if list.hit.Some? {
        pausedBy := list.hit;
        paused := true;
      } else {
        if was.Some? {
          ResumeTunnel();
        }
        paused := false;
      }
      conflictMu := None;
    }

    /** Its body, after the wait. */
    method Attempt(t: Tid, gen: Gen, c: Choice, ok: bool) returns (ended: bool)
      requires startMu.None?
      modifies `retryWake, `startMu, `running, `retryCancel, `cancelled, `late
      ensures View() == TurnAlone(old(View()), gen, c, ok) && ended == TurnEnds(old(View()), gen, c, ok)
      ensures startMu.None?
    {
      if c.OnDone? {
        ended := true;
      } else {
        if c.OnWake? {
          retryWake := false;
        }
        ended := TryOnce(t, gen, ok);
      }
      if ended {
        ClearFinished(gen);
      }
    }

    method TryOnce(t: Tid, gen: Gen, ok: bool) returns (ended: bool)
      requires startMu.None?
      modifies `startMu, `running, `late
      ensures View() == if old(running) then old(View())
                        else StartedAlone(old(View()).(retry := CountLate(old(View().retry), gen)), ok)
      ensures ended == (old(running) || down || gen in cancelled || !StartResult(old(View()), ok).Failed?)
    {
      if running {
        return true;
      }
      late := CountLate(View().retry, gen).late;
      var r := StartTunnelOnce(t, ok);
      ended := down || gen in cancelled || r != Failed;
    }

    /** One turn of the retry loop, woken by whatever is there. It ends the loop unless the loop is to try
        and the start, which succeeds if `ok`, fails. A loop that ends leaves no record of itself. */
    method RetryOnce(t: Tid, gen: Gen, ok: bool) returns (ended: bool)
      requires startMu.None?
      modifies `retryWake, `startMu, `running, `retryCancel, `cancelled, `late
      ensures startMu.None? && View() == TurnAlone(old(View()), gen, Woken(old(View()), gen), ok)
      ensures ended <==> !Trying(old(View()), gen) || ok
      ensures running == (old(running) || (Trying(old(View()), gen) && ok))
      ensures retryCancel == if ended && retryGen == gen then None else old(retryCancel)
      ensures ended ==> gen in cancelled
    {
      var c := if down || gen in cancelled then OnDone else if retryWake then OnWake else OnTimer;
      TurnLeaves(View(), gen, c, ok);
      ended := Attempt(t, gen, c, ok);
    }

    /** The goroutine of `retryStart`, undisturbed, while `attempts` says which starts succeed: its
        waits are the first ones of Delays, and it ends with the first start that succeeds, the tunnel up,
        or goes on as long as they fail. A pause, a cancellation, or a tunnel that is up already ends it
        in its first turn, without an attempt. A loop that has ended leaves no record of itself. */
    method RetryLoop(t: Tid, gen: Gen, attempts: seq<bool>) returns (ended: bool, waits: seq<nat>)
      requires Valid() && t in threads && threads[t] == LoopWait(gen, RETRY_MIN)
      modifies `retryWake, `startMu, `running, `retryCancel, `cancelled, `late, `run, `threads
      ensures Valid() && |waits| <= |attempts| && waits == Delays(|waits|)
      ensures threads == old(threads)[t := if ended then Finished else LoopWait(gen, Delay(|attempts|))]
      ensures EndsAfter(attempts, Trying(old(View()), gen), ended, |waits|)
      ensures running == (old(running) || (Trying(old(View()), gen) && ended))
      ensures retryCancel == if ended && retryGen == gen then None else old(retryCancel)
      ensures ended ==> gen in cancelled
    {
      ghost var before := View();
      ended, waits := RetryTurns(t, gen, attempts);
      ghost var taken := attempts[..|waits|];
      LoopLeaves(before, gen, taken, ended);
      run := SoloLoop(Init(wantedAtFirst), run, before, threads, t, gen, taken, ended);
      threads := threads[t := if ended then Finished else LoopWait(gen, Delay(|taken|))];
    }

    /** Its loop. */
    method RetryTurns(t: Tid, gen: Gen, attempts: seq<bool>) returns (ended: bool, waits: seq<nat>)
      requires startMu.None?
      modifies `retryWake, `startMu, `running, `retryCancel, `cancelled, `late
      ensures startMu.None? && |waits| <= |attempts| && waits == Delays(|waits|)
      ensures View() == LoopAlone(old(View()), gen, attempts[..|waits|])
      ensures EndsAfter(attempts, Trying(old(View()), gen), ended, |waits|)
      ensures EndsAfter(attempts[..|waits|], Trying(old(View()), gen), ended, |waits|)
    {
      waits, ended := [], false;
      var delay := RETRY_MIN;
      ghost var first, trying := View(), Trying(View(), gen);
      for i := 0 to |attempts|
        invariant startMu.None? && delay == Delay(i) && waits == Delays(i) && !ended
        invariant View() == LoopAlone(first, gen, attempts[..i]) && EndsAfter(attempts[..i], trying, false, i)
      {
        waits := waits + [delay];
        NextTurn(first, gen, attempts, i);
        ended := RetryOnce(t, gen, attempts[i]);
        OneMoreTurn(attempts, trying, i, ended);
        if ended {
          return;
        }
        delay := NextDelay(delay);
      }
      assert attempts[..|attempts|] == attempts;
    }

    /** `networkSettled` after its check: a tunnel that is down has its pending retry woken. */
    method WakeIfDown(ghost t: Tid)
      requires Valid() && t in threads && threads[t] == SettleTest
      modifies `retryWake, `run, `threads
      ensures Valid() && threads == old(threads)[t := Finished]
      ensures View() == old(View()).(wake := old(retryWake) || !running)
    {
      ghost var before, rest := View(), threads;
      if !running {
        retryWake := true;
      }
      assert rest == rest[t := SettleTest];
      run := Walk(Init(wantedAtFirst), run, before, rest, t, SettleTest, Plain, View(), Finished);
      threads := threads[t := Finished];
    }

    /** What the machine says about every run says it about the object. */
    lemma PausedObjectStaysDown()
      requires Valid() && pausedBy.Some? && AtomicReloads(run)
      requires forall t :: t in threads ==> !Pausing(threads[t])
      ensures !running
    {
      PausedTunnelStaysDown(wantedAtFirst, run);
    }
  }
}
