/** The supervisor loop of internal/awg/tunnel.go: when it kicks a handshake. Times are seconds
    on a monotone clock; an event carries the clock readings its pass through the loop makes. */
module Supervisor {
  import opened Basics

  const MIN_BACKOFF: int := 1
  const MAX_BACKOFF: int := 60
  const STALE_AFTER: int := 180

  datatype Event =
    | External(at: int)                         // a reconnect request
    | Unreadable                                // the statistics could not be read
    | Healthy(at: int)
    | Unhealthy(at: int, check: int, after: int)

  /** The loop's own variables. */
  datatype Pacing = Pacing(backoff: int, nextKick: int, wasConnected: bool)

  function Start(now: int): Pacing {
    Pacing(MIN_BACKOFF, now + MIN_BACKOFF, false)
  }

  function First(e: Event): int
    requires !e.Unreadable?
  {
    e.at
  }

  function Last(e: Event): int
    requires !e.Unreadable?
  {
    if e.Unhealthy? then e.after else e.at
  }

  /** The clock readings never go back, from `from` on. */
  predicate Monotone(from: int, es: seq<Event>)
    decreases |es|
  {
    es == [] ||
    if es[0].Unreadable? then Monotone(from, es[1..])
    else from <= First(es[0])
         && (es[0].Unhealthy? ==> es[0].at <= es[0].check <= es[0].after)
         && Monotone(Last(es[0]), es[1..])
  }

  function Doubled(backoff: int): int {
    if backoff < MAX_BACKOFF then Min(2 * backoff, MAX_BACKOFF) else backoff
  }

  /** After an unhealthy tick, before its check of the clock. */
  function Dropped(p: Pacing, now: int): Pacing {
    if p.wasConnected then Pacing(MIN_BACKOFF, now, false) else p
  }

  function After(p: Pacing, e: Event): Pacing {
    match e
    case External(at) => Pacing(MIN_BACKOFF, at + MIN_BACKOFF, false)
    case Unreadable => p
    case Healthy(at) => Pacing(MIN_BACKOFF, at + STALE_AFTER / 2, true)
    case Unhealthy(at, check, after) =>
      var q := Dropped(p, at);
      if check < q.nextKick then q else q.(nextKick := after + q.backoff, backoff := Doubled(q.backoff))
  }

  predicate Kicks(p: Pacing, e: Event) {
    e.Unhealthy? && e.check >= Dropped(p, e.at).nextKick
  }

  function Final(p: Pacing, es: seq<Event>): Pacing
    decreases |es|
  {
    if es == [] then p else Final(After(p, es[0]), es[1..])
  }

  /** When the backoff triggers a handshake, each time measured just before it. */
  function KickTimes(p: Pacing, es: seq<Event>): seq<int>
    decreases |es|
  {
    if es == [] then []
    else (if Kicks(p, es[0]) then [es[0].check] else []) + KickTimes(After(p, es[0]), es[1..])
  }

  lemma {:induction false} FinalSnoc(p: Pacing, es: seq<Event>, e: Event)
    ensures Final(p, es + [e]) == After(Final(p, es), e)
    ensures KickTimes(p, es + [e]) == KickTimes(p, es) + (if Kicks(Final(p, es), e) then [e.check] else [])
    decreases |es|
  {
    if es == [] {
      assert (es + [e])[1..] == [];
    } else {
      FinalSnoc(After(p, es[0]), es[1..], e);
      assert (es + [e])[1..] == es[1..] + [e];
    }
  }

  /** `supervise`, its select answered by `events`. */
  method Supervise(now: int, events: seq<Event>) returns (kicks: seq<int>)
    ensures kicks == KickTimes(Start(now), events)
  {
    kicks := [];
    var backoff := MIN_BACKOFF;
    var nextKick := now + backoff;
    var wasConnected := false;
    for i := 0 to |events|
      invariant Pacing(backoff, nextKick, wasConnected) == Final(Start(now), events[..i])
      invariant kicks == KickTimes(Start(now), events[..i])
    {
      FinalSnoc(Start(now), events[..i], events[i]);
      assert events[..i + 1] == events[..i] + [events[i]];
      match events[i] {
        case External(at) =>
          backoff := MIN_BACKOFF;
          nextKick := at + backoff;
          wasConnected := false;
        case Unreadable =>
        case Healthy(at) =>
          wasConnected := true;
          backoff := MIN_BACKOFF;
          nextKick := at + STALE_AFTER / 2;
        case Unhealthy(at, check, after) =>
          if wasConnected {
            wasConnected := false;
            backoff := MIN_BACKOFF;
            nextKick := at;
          }
          if check >= nextKick {
            kicks := kicks + [check];
            nextKick := after + backoff;
            if backoff < MAX_BACKOFF {
              backoff := backoff * 2;
              if backoff > MAX_BACKOFF {
                backoff := MAX_BACKOFF;
              }
            }
          }
      }
    }
    assert events[..|events|] == events;
  }

  // --- The schedule ---------------------------------------------------------------------

  /** 1, 2, 4, 8, 16, 32, 60, 60, ... */
  function Gap(i: nat): int {
    if i == 0 then MIN_BACKOFF else Doubled(Gap(i - 1))
  }

  lemma {:induction false} GapBounds(i: nat)
    ensures 1 <= Gap(i) <= 60
    ensures i >= 6 ==> Gap(i) == 60
    ensures i > 0 ==> Gap(i - 1) <= Gap(i)
  {
    if i > 0 {
      GapBounds(i - 1);
      if i == 6 {
        assert Gap(1) == 2 && Gap(2) == 4;
        assert Gap(3) == 8 && Gap(4) == 16;
        assert Gap(5) == 32;
      }
    }
  }

  lemma {:induction false} GapGrows(i: nat, k: nat)
    ensures Gap(i) <= Gap(k + i)
  {
    if k > 0 {
      GapGrows(i, k - 1);
      GapBounds(k + i);
    }
  }

  /** A pacing the loop can be in: its backoff is the k-th gap, the first while connected. */
  predicate AtGap(p: Pacing, k: nat) {
    p.backoff == Gap(k) && (p.wasConnected ==> k == 0)
  }

  lemma {:induction false} EveryPacingAtGap(p: Pacing, es: seq<Event>, k: nat) returns (j: nat)
    requires AtGap(p, k)
    ensures AtGap(Final(p, es), j)
    decreases |es|
  {
    if es == [] {
      j := k;
    } else {
      var e := es[0];
      var k' :=
        if e.External? || e.Healthy? then 0
        else if Kicks(p, e) then (if p.wasConnected then 1 else k + 1)
        else if e.Unhealthy? && p.wasConnected then 0 else k;
      assert Gap(1) == Doubled(Gap(0));
      j := EveryPacingAtGap(After(p, e), es[1..], k');
    }
  }

  // --- Every kick that is due comes -----------------------------------------------------

  /** No tick looks at the clock before it begins. */
  predicate Timely(es: seq<Event>) {
    forall e :: e in es && e.Unhealthy? ==> e.at <= e.check
  }

  /** From when on an unhealthy tick kicks, if `e` is the last event that has a say in it and finds the loop
      at `p`: a second after a reconnect request, at once after a healthy tick, and after a kick when the
      current gap has passed. */
  predicate DueAt(p: Pacing, e: Event, check: int)
    requires e.External? || e.Healthy? || Kicks(p, e)
  {
    match e
    case External(at) => check >= at + 1
    case Healthy(_) => true
    case Unhealthy(_, _, after) => check >= after + if p.wasConnected then 1 else p.backoff
  }

  lemma {:induction false} QuietChangesNothing(p: Pacing, quiet: seq<Event>)
    requires Stretch(quiet) && Timely(quiet) && KickTimes(p, quiet) == []
    ensures Final(p, quiet) == p
    decreases |quiet|
  {
    if quiet != [] {
      assert quiet[0] in quiet && forall e :: e in quiet[1..] ==> e in quiet;
      QuietChangesNothing(After(p, quiet[0]), quiet[1..]);
    }
  }

  lemma {:induction false} RunsCompose(p: Pacing, es: seq<Event>, more: seq<Event>)
    ensures Final(p, es + more) == Final(Final(p, es), more)
    ensures KickTimes(p, es + more) == KickTimes(p, es) + KickTimes(Final(p, es), more)
    decreases |es|
  {
    if es == [] {
      assert es + more == more;
    } else {
      RunsCompose(After(p, es[0]), es[1..], more);
      assert (es + more)[1..] == es[1..] + more;
    }
  }

  /** Wherever in the life of the loop: an unhealthy tick kicks if and only if the time that follows from
      the last reconnect request, healthy tick or kick has come. So a kick comes with the first tick
      that can bring it. */
  lemma KicksOnTime(now: int, before: seq<Event>, e: Event, quiet: seq<Event>, f: Event)
    requires Stretch(quiet) && Timely(quiet + [f]) && f.Unhealthy?
    requires e.External? || e.Healthy? || Kicks(Final(Start(now), before), e)
    requires KickTimes(After(Final(Start(now), before), e), quiet) == []
    ensures KickTimes(Start(now), before + [e] + quiet + [f])
            == KickTimes(Start(now), before + [e]) + if DueAt(Final(Start(now), before), e, f.check) then [f.check] else []
  {
    var p := Final(Start(now), before);
    assert f in quiet + [f] && forall x :: x in quiet ==> x in quiet + [f];
    FinalSnoc(Start(now), before, e);
    QuietChangesNothing(After(p, e), quiet);
    RunsCompose(Start(now), before + [e], quiet);
    FinalSnoc(Start(now), before + [e] + quiet, f);
  }

  /** ... and before any of those, if and only if a second has passed. */
  lemma FirstKickOnTime(now: int, quiet: seq<Event>, f: Event)
    requires Stretch(quiet) && Timely(quiet + [f]) && f.Unhealthy? && KickTimes(Start(now), quiet) == []
    ensures KickTimes(Start(now), quiet + [f]) == if f.check >= now + 1 then [f.check] else []
  {
    assert f in quiet + [f] && forall x :: x in quiet ==> x in quiet + [f];
    QuietChangesNothing(Start(now), quiet);
    FinalSnoc(Start(now), quiet, f);
  }

  /** The backoff always lies between one second and one minute. */
  lemma BackoffBounded(now: int, es: seq<Event>)
    ensures MIN_BACKOFF <= Final(Start(now), es).backoff <= MAX_BACKOFF
  {
    var k := EveryPacingAtGap(Start(now), es, 0);
    GapBounds(k);
  }

  /** Ticks without a handshake: no healthy one and no reconnect request among them. */
  predicate Stretch(es: seq<Event>) {
    forall e :: e in es ==> e.Unhealthy? || e.Unreadable?
  }

  lemma {:induction false} FirstKickWaits(p: Pacing, es: seq<Event>, from: int)
    requires Stretch(es) && Monotone(from, es)
    ensures var ks := KickTimes(p, es);
      ks != [] ==> ks[0] >= from && (!p.wasConnected ==> ks[0] >= p.nextKick)
    decreases |es|
  {
    if es != [] && !Kicks(p, es[0]) {
      FirstKickWaits(After(p, es[0]), es[1..], if es[0].Unreadable? then from else Last(es[0]));
    }
  }

  /** Each at least its gap after the one before, the first of the gaps being the k-th. */
  predicate Spaced(ks: seq<int>, k: nat) {
    forall i :: 0 <= i < |ks| - 1 ==> ks[i + 1] - ks[i] >= Gap(k + i)
  }

  lemma SpacedBefore(first: int, ks: seq<int>, k: nat)
    requires (ks != [] ==> ks[0] - first >= Gap(k)) && Spaced(ks, k + 1)
    ensures Spaced([first] + ks, k)
  {
    var all := [first] + ks;
    forall i | 0 <= i < |all| - 1 ensures all[i + 1] - all[i] >= Gap(k + i) {
      if i > 0 {
        assert all[i + 1] - all[i] == ks[i - 1 + 1] - ks[i - 1] >= Gap(k + 1 + (i - 1));
      }
    }
  }

  lemma KickSpaces(p: Pacing, e: Event, rest: seq<Event>, k: nat)
    requires Kicks(p, e) && Stretch(rest) && Monotone(Last(e), rest) && AtGap(p, k)
    requires Spaced(KickTimes(After(p, e), rest), k + 1) && e.check <= e.after
    ensures Spaced([e.check] + KickTimes(After(p, e), rest), k)
  {
    FirstKickWaits(After(p, e), rest, Last(e));
    SpacedBefore(e.check, KickTimes(After(p, e), rest), k);
  }

  lemma {:induction false} KicksSpacedFrom(p: Pacing, es: seq<Event>, from: int, k: nat)
    requires Stretch(es) && Monotone(from, es) && AtGap(p, k)
    ensures Spaced(KickTimes(p, es), k)
    decreases |es|
  {
    if es != [] {
      var e, rest := es[0], es[1..];
      if Kicks(p, e) {
        assert Gap(k + 1) == Doubled(Gap(k));
        KicksSpacedFrom(After(p, e), rest, Last(e), k + 1);
        KickSpaces(p, e, rest, k);
      } else {
        assert KickTimes(p, es) == KickTimes(After(p, e), rest);
        KicksSpacedFrom(After(p, e), rest, if e.Unreadable? then from else Last(e), k);
      }
    }
  }

  /** In any stretch without a handshake, wherever in the life of the loop it lies, successive
      kicks are at least 1, 2, 4, 8, 16, 32, 60, 60, ... seconds apart. */
  lemma KicksSpaced(now: int, before: seq<Event>, es: seq<Event>, from: int, i: nat)
    requires Stretch(es) && Monotone(from, es)
    ensures var ks := KickTimes(Final(Start(now), before), es);
      i + 1 < |ks| ==> ks[i + 1] - ks[i] >= Gap(i)
  {
    var k := EveryPacingAtGap(Start(now), before, 0);
    KicksSpacedFrom(Final(Start(now), before), es, from, k);
    GapGrows(i, k);
  }

  lemma {:induction false} SpacedSpan(ks: seq<int>, n: nat)
    requires n < |ks|
    requires forall i :: 0 <= i < |ks| - 1 ==> ks[i + 1] - ks[i] >= Gap(i)
    ensures ks[n] - ks[0] >= (if n <= 6 then 0 else 63 + 60 * (n - 6))
    ensures n == 6 ==> ks[n] - ks[0] >= 63
  {
    if n > 6 {
      SpacedSpan(ks, n - 1);
      GapBounds(n - 1);
    } else if n == 6 {
      assert Gap(0) == 1 && Gap(1) == 2 && Gap(2) == 4;
      assert Gap(3) == 8 && Gap(4) == 16;
      assert Gap(5) == 32;
      assert ks[1] - ks[0] >= 1 && ks[2] - ks[1] >= 2 && ks[3] - ks[2] >= 4;
    } else if n > 0 {
      SpacedSpan(ks, n - 1);
      GapBounds(n - 1);
    }
  }

  /** So a stretch of T seconds, first kick to last, holds at most 7 + T / 60 of them. */
  lemma KicksBounded(now: int, before: seq<Event>, es: seq<Event>, from: int)
    requires Stretch(es) && Monotone(from, es)
    ensures var ks := KickTimes(Final(Start(now), before), es);
      ks != [] ==> |ks| <= 7 + (ks[|ks| - 1] - ks[0]) / 60
  {
    var ks := KickTimes(Final(Start(now), before), es);
    forall i | 0 <= i < |ks| - 1 ensures ks[i + 1] - ks[i] >= Gap(i) {
      KicksSpaced(now, before, es, from, i);
    }
    if ks != [] {
      SpacedSpan(ks, |ks| - 1);
    }
  }
}
