/** The accept loop of internal/socks5/server.go and its session goroutines, one step per channel
    operation, counter update or critical section. */
module Sessions {

  const MAX_ACCEPT_ERRORS: nat := 10

  /** Where a connection is. The accept loop takes it through `Fresh` ... `Counted`, the session
      goroutine from `Running` on; its deferred calls make the last four steps, in this order. */
  datatype Phase =
    | Fresh(loopback: bool) | Refusing | Refused
    | Admitted | Tracked | Totalled | Counted
    | Running | Finished | Released | Uncounted | Untracked | Closed

  /** `tokens` is the number of elements in `sem`; the others are the server's counters. */
  datatype Counters = Counters(tokens: nat, statActive: int, statTotal: nat, statRejected: nat)

  /** `errors` is `consecutiveErrors`. */
  datatype State = State(conns: seq<Phase>, n: Counters, active: set<nat>, errors: nat, stopped: bool)

  datatype Label = Accept(loopback: bool) | AcceptError(closing: bool) | Go(i: nat)

  /** The loop has a connection in hand. */
  predicate InLoop(p: Phase) {
    p.Fresh? || p.Refusing? || p.Admitted? || p.Tracked? || p.Totalled? || p.Counted?
  }

  predicate LoopFree(s: State) {
    !s.stopped && (s.conns == [] || !InLoop(s.conns[|s.conns| - 1]))
  }

  function Init(): State {
    State([], Counters(0, 0, 0, 0), {}, 0, false)
  }

  /** The next phase; taking a token never waits, giving it back would if there were none. */
  function Next(p: Phase, n: Counters, max: nat): Phase {
    match p
    case Fresh(loopback) => if loopback && n.tokens < max then Admitted else Refusing
    case Refusing => Refused
    case Admitted => Tracked
    case Tracked => Totalled
    case Totalled => Counted
    case Counted => Running
    case Running => Finished
    case Finished => Released
    case Released => Uncounted
    case Uncounted => Untracked
    case _ => Closed
  }

  function Tally(p: Phase, n: Counters, max: nat): Counters
    requires p.Finished? ==> n.tokens > 0
  {
    match p
    case Fresh(loopback) =>
      if loopback && n.tokens < max then n.(tokens := n.tokens + 1) else n.(statRejected := n.statRejected + 1)
    case Tracked => n.(statTotal := n.statTotal + 1)
    case Totalled => n.(statActive := n.statActive + 1)
    case Finished => n.(tokens := n.tokens - 1)
    case Released => n.(statActive := n.statActive - 1)
    case _ => n
  }

  predicate Ended(p: Phase) {
    p.Refused? || p.Closed?
  }

  predicate Enabled(s: State, l: Label) {
    match l
    case Accept(_) => LoopFree(s)
    case AcceptError(_) => LoopFree(s)
    case Go(i) => i < |s.conns| && !Ended(s.conns[i]) && (s.conns[i].Finished? ==> s.n.tokens > 0)
  }

  function Apply(s: State, l: Label, max: nat): State
    requires Enabled(s, l)
  {
    match l
    case Accept(loopback) => s.(conns := s.conns + [Fresh(loopback)], errors := 0)
    case AcceptError(closing) =>
      if closing then s.(stopped := true)
      else s.(errors := s.errors + 1, stopped := s.errors + 1 >= MAX_ACCEPT_ERRORS)
    case Go(i) =>
      s.(conns := s.conns[i := Next(s.conns[i], s.n, max)],
         n := Tally(s.conns[i], s.n, max),
         active := if s.conns[i].Admitted? then s.active + {i}
                   else if s.conns[i].Uncounted? then s.active - {i} else s.active)
  }

  predicate Executable(s: State, ls: seq<Label>, max: nat)
    decreases |ls|
  {
    ls == [] || (Enabled(s, ls[0]) && Executable(Apply(s, ls[0], max), ls[1..], max))
  }

  function Exec(s: State, ls: seq<Label>, max: nat): State
    requires Executable(s, ls, max)
    decreases |ls|
  {
    if ls == [] then s else Exec(Apply(s, ls[0], max), ls[1..], max)
  }

  // --- Counting -------------------------------------------------------------------------

  datatype Kind = IsRunning | HoldsToken | IsActive | IsTotal | IsRejected | IsTracked | IsReleased | IsPending

  predicate In(k: Kind, p: Phase) {
    match k
    case IsRunning => p.Running?
    case HoldsToken => p.Admitted? || p.Tracked? || p.Totalled? || p.Counted? || p.Running? || p.Finished?
    case IsActive => p.Counted? || p.Running? || p.Finished? || p.Released?
    case IsTotal => p.Totalled? || p.Counted? || p.Running? || p.Finished? || p.Released? || p.Uncounted? || p.Untracked? || p.Closed?
    case IsRejected => p.Refusing? || p.Refused?
    case IsTracked => p.Tracked? || p.Totalled? || p.Counted? || p.Running? || p.Finished? || p.Released? || p.Uncounted?
    case IsReleased => p.Released?
    case IsPending => p.Admitted? || p.Tracked? || p.Totalled?
  }

  function Bit(b: bool): nat {
    if b then 1 else 0
  }

  function Count(k: Kind, ps: seq<Phase>): nat {
    if ps == [] then 0 else Bit(In(k, ps[0])) + Count(k, ps[1..])
  }

  lemma {:induction false} CountUpdate(k: Kind, ps: seq<Phase>, i: nat, p: Phase)
    requires i < |ps|
    ensures Count(k, ps[i := p]) == Count(k, ps) - Bit(In(k, ps[i])) + Bit(In(k, p))
  {
    if i == 0 {
      assert ps[i := p][1..] == ps[1..];
    } else {
      CountUpdate(k, ps[1..], i - 1, p);
      assert ps[i := p][1..] == ps[1..][i - 1 := p];
    }
  }

  lemma {:induction false} CountSnoc(k: Kind, ps: seq<Phase>, p: Phase)
    ensures Count(k, ps + [p]) == Count(k, ps) + Bit(In(k, p))
  {
    if ps == [] {
      assert (ps + [p])[1..] == [];
    } else {
      CountSnoc(k, ps[1..], p);
      assert (ps + [p])[1..] == ps[1..] + [p];
    }
  }

  ghost predicate Agree(n: Counters, ps: seq<Phase>, max: nat) {
    && n.tokens == Count(HoldsToken, ps) <= max
    && n.statActive == Count(IsActive, ps)
    && n.statTotal == Count(IsTotal, ps)
    && n.statRejected == Count(IsRejected, ps)
  }

  ghost predicate Inv(s: State, max: nat) {
    && Agree(s.n, s.conns, max)
    && (forall i :: i in s.active <==> 0 <= i < |s.conns| && In(IsTracked, s.conns[i]))
    && s.errors <= MAX_ACCEPT_ERRORS && (!s.stopped ==> s.errors < MAX_ACCEPT_ERRORS)
  }

  lemma {:induction false} CountPositive(k: Kind, ps: seq<Phase>, i: nat)
    requires i < |ps| && In(k, ps[i])
    ensures Count(k, ps) > 0
  {
    if i > 0 {
      CountPositive(k, ps[1..], i - 1);
    }
  }

  lemma AgreeStep(n: Counters, ps: seq<Phase>, i: nat, max: nat)
    requires Agree(n, ps, max) && i < |ps| && !Ended(ps[i])
    ensures ps[i].Finished? ==> n.tokens > 0
    ensures Agree(Tally(ps[i], n, max), ps[i := Next(ps[i], n, max)], max)
  {
    var p := Next(ps[i], n, max);
    if ps[i].Finished? {
      CountPositive(HoldsToken, ps, i);
    }
    CountUpdate(HoldsToken, ps, i, p);
    CountUpdate(IsActive, ps, i, p);
    CountUpdate(IsTotal, ps, i, p);
    CountUpdate(IsRejected, ps, i, p);
  }

  lemma InvStep(s: State, l: Label, max: nat)
    requires Inv(s, max) && Enabled(s, l)
    ensures Inv(Apply(s, l, max), max)
  {
    match l
    case Accept(loopback) =>
      CountSnoc(HoldsToken, s.conns, Fresh(loopback));
      CountSnoc(IsActive, s.conns, Fresh(loopback));
      CountSnoc(IsTotal, s.conns, Fresh(loopback));
      CountSnoc(IsRejected, s.conns, Fresh(loopback));
    case AcceptError(_) =>
    case Go(i) =>
      AgreeStep(s.n, s.conns, i, max);
  }

  lemma {:induction false} InvRun(s: State, ls: seq<Label>, max: nat)
    requires Inv(s, max) && Executable(s, ls, max)
    ensures Inv(Exec(s, ls, max), max)
    decreases |ls|
  {
    if ls != [] {
      InvStep(s, ls[0], max);
      InvRun(Apply(s, ls[0], max), ls[1..], max);
    }
  }

  // --- Results --------------------------------------------------------------------------

  lemma {:induction false} CountMonotone(k: Kind, j: Kind, ps: seq<Phase>)
    requires forall p :: In(k, p) ==> In(j, p)
    ensures Count(k, ps) <= Count(j, ps)
  {
    if ps != [] {
      CountMonotone(k, j, ps[1..]);
    }
  }

  lemma {:induction false} ActiveSplits(ps: seq<Phase>)
    ensures Count(IsActive, ps) + Count(IsPending, ps) == Count(HoldsToken, ps) + Count(IsReleased, ps)
  {
    if ps != [] {
      ActiveSplits(ps[1..]);
    }
  }

  /** At most `max` sessions run at any time. The session counter is the number of tokens out, less
      the connections admitted but not counted yet, plus the sessions that gave their token back and
      were not subtracted yet; so it exceeds the limit exactly when the latter outnumber the tokens
      left and the connections still to be counted. */
  lemma SessionsBounded(ls: seq<Label>, max: nat)
    requires Executable(Init(), ls, max)
    ensures var s := Exec(Init(), ls, max);
      && Count(IsRunning, s.conns) <= s.n.tokens <= max
      && s.n.statActive + Count(IsPending, s.conns) == s.n.tokens + Count(IsReleased, s.conns)
      && (s.n.statActive <= max <==> Count(IsReleased, s.conns) <= (max - s.n.tokens) + Count(IsPending, s.conns))
  {
    InvRun(Init(), ls, max);
    var s := Exec(Init(), ls, max);
    CountMonotone(IsRunning, HoldsToken, s.conns);
    ActiveSplits(s.conns);
  }

  lemma {:induction false} CountDone(ps: seq<Phase>)
    requires forall i :: 0 <= i < |ps| ==> ps[i].Closed? || ps[i].Refused?
    ensures Count(HoldsToken, ps) == Count(IsActive, ps) == 0
    ensures Count(IsTotal, ps) + Count(IsRejected, ps) == |ps|
  {
    if ps != [] {
      CountDone(ps[1..]);
    }
  }

  /** When every connection is done with, no token is out, nothing is tracked, the session counter
      is back at zero, and every connection was counted once: as a session or as a rejection. */
  lemma NothingLeaks(ls: seq<Label>, max: nat)
    requires Executable(Init(), ls, max)
    requires forall i :: 0 <= i < |Exec(Init(), ls, max).conns| ==>
        Exec(Init(), ls, max).conns[i].Closed? || Exec(Init(), ls, max).conns[i].Refused?
    ensures var s := Exec(Init(), ls, max);
      s.n.tokens == 0 && s.n.statActive == 0 && s.active == {} && s.n.statTotal + s.n.statRejected == |s.conns|
  {
    InvRun(Init(), ls, max);
    CountDone(Exec(Init(), ls, max).conns);
  }

  /** A session's way from acceptance to the release of its token. */
  function Visit(i: nat): seq<Label> {
    [Accept(true), Go(i), Go(i), Go(i), Go(i), Go(i), Go(i), Go(i)]
  }

  lemma VisitRuns(s: State, max: nat)
    requires LoopFree(s) && s.n.tokens == 0 && max > 0
    ensures Executable(s, Visit(|s.conns|), max)
    ensures var s' := Exec(s, Visit(|s.conns|), max);
      && LoopFree(s') && s'.n.tokens == 0 && s'.n.statActive == s.n.statActive + 1
      && s'.conns == s.conns + [Released]
  {
    var i := |s.conns|;
    var ls := Visit(i);
    var s1 := Apply(s, Accept(true), max);
    assert ls[1..] == [Go(i), Go(i), Go(i), Go(i), Go(i), Go(i), Go(i)];
    SevenSteps(s1, i, max);
  }

  lemma SevenSteps(s: State, i: nat, max: nat)
    requires |s.conns| == i + 1 && s.conns[i] == Fresh(true) && s.n.tokens == 0 && max > 0 && !s.stopped
    ensures var ls := [Go(i), Go(i), Go(i), Go(i), Go(i), Go(i), Go(i)];
      && Executable(s, ls, max)
      && var s' := Exec(s, ls, max);
         s'.conns == s.conns[..i] + [Released] && s'.n.tokens == 0 && s'.n.statActive == s.n.statActive + 1 && !s'.stopped
  {
    var s1 := Apply(s, Go(i), max);
    var s2 := Apply(s1, Go(i), max);
    var s3 := Apply(s2, Go(i), max);
    var s4 := Apply(s3, Go(i), max);
    var s5 := Apply(s4, Go(i), max);
    var s6 := Apply(s5, Go(i), max);
    var s7 := Apply(s6, Go(i), max);
    assert s7.conns == s.conns[..i] + [Released];
    Ahead(s6, i, [], max);
    Ahead(s5, i, [Go(i)], max);
    Ahead(s4, i, [Go(i), Go(i)], max);
    Ahead(s3, i, [Go(i), Go(i), Go(i)], max);
    Ahead(s2, i, [Go(i), Go(i), Go(i), Go(i)], max);
    Ahead(s1, i, [Go(i), Go(i), Go(i), Go(i), Go(i)], max);
    Ahead(s, i, [Go(i), Go(i), Go(i), Go(i), Go(i), Go(i)], max);
  }

  lemma Ahead(s: State, i: nat, ls: seq<Label>, max: nat)
    requires Enabled(s, Go(i)) && Executable(Apply(s, Go(i), max), ls, max)
    ensures Executable(s, [Go(i)] + ls, max) && Exec(s, [Go(i)] + ls, max) == Exec(Apply(s, Go(i), max), ls, max)
  {
    assert ([Go(i)] + ls)[1..] == ls;
  }

  /** Giving the token back never waits: the deferred calls of a session cannot get stuck. */
  lemma ReleaseNeverBlocks(ls: seq<Label>, max: nat, i: nat)
    requires Executable(Init(), ls, max) && i < |Exec(Init(), ls, max).conns|
    requires !Ended(Exec(Init(), ls, max).conns[i])
    ensures Enabled(Exec(Init(), ls, max), Go(i))
  {
    InvRun(Init(), ls, max);
    AgreeStep(Exec(Init(), ls, max).n, Exec(Init(), ls, max).conns, i, max);
  }

  lemma {:induction false} ExecAppend(s: State, ls: seq<Label>, more: seq<Label>, max: nat)
    requires Executable(s, ls, max) && Executable(Exec(s, ls, max), more, max)
    ensures Executable(s, ls + more, max) && Exec(s, ls + more, max) == Exec(Exec(s, ls, max), more, max)
    decreases |ls|
  {
    if ls == [] {
      assert ls + more == more;
    } else {
      ExecAppend(Apply(s, ls[0], max), ls[1..], more, max);
      assert (ls + more)[1..] == ls[1..] + more;
    }
  }

  /** The session counter itself has no bound: since the token goes back before the counter is
      lowered, for every n some run shows n active sessions while none is running. */
  lemma {:induction false} CounterOverstates(n: nat, max: nat) returns (ls: seq<Label>)
    requires max > 0
    ensures Executable(Init(), ls, max)
    ensures var s := Exec(Init(), ls, max);
      s.n.statActive == n && Count(IsRunning, s.conns) == 0 && s.n.tokens == 0 && LoopFree(s)
  {
    if n == 0 {
      ls := [];
    } else {
      var before := CounterOverstates(n - 1, max);
      var s := Exec(Init(), before, max);
      VisitRuns(s, max);
      ExecAppend(Init(), before, Visit(|s.conns|), max);
      CountSnoc(IsRunning, s.conns, Released);
      ls := before + Visit(|s.conns|);
    }
  }

  /** The consecutive accept errors at the end of a run. */
  function TrailingErrors(ls: seq<Label>): nat {
    if ls == [] then 0
    else
      var n := |ls| - 1;
      match ls[n]
      case Accept(_) => 0
      case AcceptError(_) => TrailingErrors(ls[..n]) + 1
      case Go(_) => TrailingErrors(ls[..n])
  }

  /** The loop gives up on a broken listener, and only on that: at the tenth accept error in a row,
      unless the server is closing. */
  lemma {:induction false} GivesUpOnlyAfterTen(ls: seq<Label>, max: nat)
    requires Executable(Init(), ls, max) && AcceptError(true) !in ls
    ensures Exec(Init(), ls, max).errors == TrailingErrors(ls)
    ensures Exec(Init(), ls, max).stopped <==> TrailingErrors(ls) >= MAX_ACCEPT_ERRORS
  {
    if ls != [] {
      var n := |ls| - 1;
      ExecSnoc(Init(), ls, max);
      GivesUpOnlyAfterTen(ls[..n], max);
      assert ls[n] in ls;
    }
  }

  lemma {:induction false} ExecSnoc(s: State, ls: seq<Label>, max: nat)
    requires ls != [] && Executable(s, ls, max)
    ensures var n := |ls| - 1;
      && Executable(s, ls[..n], max) && Enabled(Exec(s, ls[..n], max), ls[n])
      && Exec(s, ls, max) == Apply(Exec(s, ls[..n], max), ls[n], max)
    decreases |ls|
  {
    var n := |ls| - 1;
    if n == 0 {
      assert ls[1..] == [] && ls[..0] == [];
    } else {
      ExecSnoc(Apply(s, ls[0], max), ls[1..], max);
      assert ls[1..][..n - 1] == ls[..n][1..];
    }
  }

  lemma {:induction false} ExecGrow(s: State, ls: seq<Label>, l: Label, max: nat)
    requires Executable(s, ls, max) && Enabled(Exec(s, ls, max), l)
    ensures Executable(s, ls + [l], max) && Exec(s, ls + [l], max) == Apply(Exec(s, ls, max), l, max)
    decreases |ls|
  {
    if ls == [] {
      assert ls + [l] == [l] && [l][1..] == [];
    } else {
      ExecGrow(Apply(s, ls[0], max), ls[1..], l, max);
      assert (ls + [l])[1..] == ls[1..] + [l];
    }
  }

  // --- The server object ----------------------------------------------------------------

  /** What `Accept` returns, and what the sessions do while the loop handles it. */
  datatype Event = Connection(loopback: bool, others: nat -> seq<Label>) | Failure(closing: bool)

  /** Where the accepted connections come from: from this machine or not. */
  function Accepted(events: seq<Event>): seq<bool> {
    if events == [] then []
    else
      var front := Accepted(events[..|events| - 1]);
      if events[|events| - 1].Connection? then front + [events[|events| - 1].loopback] else front
  }

  /** The errors in a row after these events, if there were `n` before. */
  function ErrorsAfter(n: nat, events: seq<Event>): nat {
    if events == [] then n
    else
      match events[|events| - 1]
      case Connection(_, _) => 0
      case Failure(closing) => ErrorsAfter(n, events[..|events| - 1]) + if closing then 0 else 1
  }

  /** A connection in the loop's hand, or refused, is where it was. */
  predicate LeavesLoop(was: seq<Phase>, now: seq<Phase>) {
    |now| == |was| && forall i :: 0 <= i < |was| && (InLoop(was[i]) || was[i].Refused?) ==> now[i] == was[i]
  }

  /** The connections that the loop has been through: every one from elsewhere was refused. */
  predicate Served(conns: seq<Phase>, first: nat, accepted: seq<bool>) {
    |conns| == first + |accepted| && forall i :: 0 <= i < |accepted| && !accepted[i] ==> conns[first + i].Refused?
  }

  /** The fields that the accept loop and the sessions share. The ghost run ties them to the machine;
      between two steps of the loop the sessions move. */
  class Server {
    const maxConns: nat
    var conns: seq<Phase>
    var tokens: nat
    var statActive: int
    var statTotal: nat
    var statRejected: nat
    var active: set<nat>
    var consecutiveErrors: nat
    var stopped: bool
    ghost var run: seq<Label>

    function View(): State
      reads this
    {
      State(conns, Counters(tokens, statActive, statTotal, statRejected), active, consecutiveErrors, stopped)
    }

    ghost predicate Valid()
      reads this
    {
      Executable(Init(), run, maxConns) && Exec(Init(), run, maxConns) == View()
    }

    constructor (maxConns: nat)
      ensures Valid() && this.maxConns == maxConns && conns == [] && run == [] && !stopped
    {
      this.maxConns := maxConns;
      conns, tokens, statActive, statTotal, statRejected, active := [], 0, 0, 0, 0, {};
      consecutiveErrors, stopped, run := 0, false, [];
    }

    ghost method Book(before: State, l: Label)
      requires Executable(Init(), run, maxConns) && Exec(Init(), run, maxConns) == before
      requires Enabled(before, l) && Apply(before, l, maxConns) == View()
      modifies `run
      ensures Valid() && run == old(run) + [l]
    {
      ExecGrow(Init(), run, l, maxConns);
      run := run + [l];
    }

    /** The sessions take whichever of the scheduled steps they can. */
    method Elsewhere(schedule: seq<Label>)
      requires Valid()
      modifies `conns, `tokens, `statActive, `statTotal, `statRejected, `active, `run
      ensures Valid() && old(run) <= run && LeavesLoop(old(conns), conns)
      ensures LoopFree(old(View())) ==> LoopFree(View())
    {
      for k := 0 to |schedule|
        invariant Valid() && old(run) <= run && LeavesLoop(old(conns), conns)
        invariant LoopFree(old(View())) ==> LoopFree(View())
      {
        var l := schedule[k];
        if l.Go? && Enabled(View(), l) && !InLoop(conns[l.i]) {
          ghost var before := View();
          SessionKeepsLoop(before, l.i, maxConns);
          var after := Apply(View(), l, maxConns);
          conns, active := after.conns, after.active;
          tokens, statActive, statTotal, statRejected := after.n.tokens, after.n.statActive, after.n.statTotal, after.n.statRejected;
          Book(before, l);
        }
      }
    }

    /** `acceptLoop` over a sequence of accept results: it serves each connection in turn, and stops
        when the server is closing or at the tenth error in a row. `handled` is how many results it
        took: all of them unless it stopped. */
    method AcceptLoop(events: seq<Event>) returns (handled: nat)
      requires Valid() && LoopFree(View())
      modifies this
      ensures Valid() && old(run) <= run && handled <= |events|
      ensures Served(conns, |old(conns)|, Accepted(events[..handled]))
      ensures consecutiveErrors == ErrorsAfter(old(consecutiveErrors), events[..handled])
      ensures stopped <==> handled > 0 && (events[handled - 1] == Failure(true) || consecutiveErrors >= MAX_ACCEPT_ERRORS)
      ensures !stopped ==> handled == |events| && LoopFree(View())
      ensures Failure(true) !in events[..if stopped then handled - 1 else handled]
    {
      handled := 0;
      for k := 0 to |events|
        invariant Valid() && old(run) <= run && LoopFree(View()) && Failure(true) !in events[..k] && handled == k
        invariant Served(conns, |old(conns)|, Accepted(events[..k]))
        invariant consecutiveErrors == ErrorsAfter(old(consecutiveErrors), events[..k])
      {
        handled := k + 1;
        OneMoreEvent(events, k);
        BoundedErrors();
        match events[k] {
          case Failure(closing) =>
            Fail(closing);
            if stopped {
              return;
            }
          case Connection(loopback, others) =>
            Take(loopback, others);
        }
      }
      BoundedErrors();
    }

    /** An accept error. */
    method Fail(closing: bool)
      requires Valid() && LoopFree(View())
      modifies `consecutiveErrors, `stopped, `run
      ensures Valid() && old(run) <= run
      ensures consecutiveErrors == old(consecutiveErrors) + if closing then 0 else 1
      ensures stopped <==> closing || consecutiveErrors >= MAX_ACCEPT_ERRORS
    {
      ghost var before := View();
      if closing {
        stopped := true;
        Book(before, AcceptError(true));
        return;
      }
      consecutiveErrors := consecutiveErrors + 1;
      stopped := consecutiveErrors >= MAX_ACCEPT_ERRORS;
      Book(before, AcceptError(false));
    }

    /** A connection. */
    method Take(loopback: bool, others: nat -> seq<Label>)
      requires Valid() && LoopFree(View())
      modifies `conns, `tokens, `statActive, `statTotal, `statRejected, `active, `consecutiveErrors, `run
      ensures Valid() && old(run) <= run && LoopFree(View()) && consecutiveErrors == 0
      ensures |conns| == |old(conns)| + 1 && (!loopback ==> conns[|old(conns)|].Refused?)
      ensures forall i :: 0 <= i < |old(conns)| && old(conns)[i].Refused? ==> conns[i].Refused?
    {
      ghost var before := View();
      consecutiveErrors := 0;
      conns := conns + [Fresh(loopback)];
      Book(before, Accept(loopback));
      Serve(|conns| - 1, others);
    }

    lemma BoundedErrors()
      requires Valid() && !stopped
      ensures consecutiveErrors < MAX_ACCEPT_ERRORS
    {
      InvRun(Init(), run, maxConns);
    }

    /** The body of the loop for one connection: refused if it comes from another machine or no token
        is free, and otherwise tracked, counted twice and handed to a session of its own. */
    method Serve(i: nat, others: nat -> seq<Label>)
      requires Valid() && i == |conns| - 1 && conns[i].Fresh? && !stopped
      modifies `conns, `tokens, `statActive, `statTotal, `statRejected, `active, `run
      ensures Valid() && old(run) <= run && |conns| == |old(conns)| && LoopFree(View())
      ensures conns[i].Refused? || conns[i].Running?
      ensures !old(conns)[i].loopback ==> conns[i].Refused?
      ensures forall j :: 0 <= j < i && old(conns)[j].Refused? ==> conns[j].Refused?
    {
      Elsewhere(others(0));
      Admit(i);
      Elsewhere(others(1));
      if conns[i].Refusing? {
        Refuse(i);
        return;
      }
      Begin(i, others);
    }

    method Begin(i: nat, others: nat -> seq<Label>)
      requires Valid() && i == |conns| - 1 && conns[i].Admitted? && !stopped
      modifies `conns, `statTotal, `tokens, `statActive, `statRejected, `active, `run
      ensures Valid() && old(run) <= run && |conns| == |old(conns)| && conns[i].Running?
      ensures forall j :: 0 <= j < i && old(conns)[j].Refused? ==> conns[j].Refused?
    {
      TrackConn(i);
      Elsewhere(others(2));
      CountSession(i);
      Elsewhere(others(3));
      Launch(i);
    }

    /** The loopback check and the select on the semaphore. */
    method Admit(i: nat)
      requires Valid() && i < |conns| && conns[i].Fresh?
      modifies `conns, `tokens, `statRejected, `run
      ensures Valid() && old(run) <= run
      ensures conns == old(conns)[i := if old(conns)[i].loopback && old(tokens) < maxConns then Admitted else Refusing]
      ensures tokens <= maxConns && (conns[i].Refusing? ==> statRejected == old(statRejected) + 1)
    {
      ghost var before := View();
      InvRun(Init(), run, maxConns);
      if !conns[i].loopback || tokens >= maxConns {
        statRejected := statRejected + 1;
        conns := conns[i := Refusing];
      } else {
        tokens := tokens + 1;
        conns := conns[i := Admitted];
      }
      Book(before, Go(i));
    }

    method Refuse(i: nat)
      requires Valid() && i < |conns| && conns[i].Refusing?
      modifies `conns, `run
      ensures Valid() && old(run) <= run && conns == old(conns)[i := Refused]
    {
      ghost var before := View();
      conns := conns[i := Refused];
      Book(before, Go(i));
    }

    method TrackConn(i: nat)
      requires Valid() && i < |conns| && conns[i].Admitted?
      modifies `conns, `active, `run
      ensures Valid() && old(run) <= run && conns == old(conns)[i := Tracked] && active == old(active) + {i}
    {
      ghost var before := View();
      active := active + {i};
      conns := conns[i := Tracked];
      Book(before, Go(i));
    }

    method CountSession(i: nat)
      requires Valid() && i < |conns| && conns[i].Tracked?
      modifies `conns, `statTotal, `statActive, `run
      ensures Valid() && old(run) <= run && conns == old(conns)[i := Counted]
      ensures statTotal == old(statTotal) + 1 && statActive == old(statActive) + 1
    {
      ghost var before := View();
      statTotal := statTotal + 1;
      conns := conns[i := Totalled];
      Book(before, Go(i));
      before := View();
      statActive := statActive + 1;
      conns := conns[i := Counted];
      Book(before, Go(i));
    }

    method Launch(i: nat)
      requires Valid() && i < |conns| && conns[i].Counted?
      modifies `conns, `run
      ensures Valid() && old(run) <= run && conns == old(conns)[i := Running]
    {
      ghost var before := View();
      conns := conns[i := Running];
      Book(before, Go(i));
    }

    /** The deferred calls of a session: the token goes back first, and only then is the counter
        lowered and the connection forgotten. Afterwards nothing is left of it. */
    method EndSession(i: nat)
      requires Valid() && i < |conns| && conns[i].Finished?
      modifies `conns, `tokens, `statActive, `active, `run
      ensures Valid() && old(run) <= run && conns == old(conns)[i := Closed]
      ensures tokens + 1 == old(tokens) && statActive == old(statActive) - 1 && active == old(active) - {i}
    {
      ReleaseToken(i);
      LowerCount(i);
      UntrackAndClose(i);
    }

    method ReleaseToken(i: nat)
      requires Valid() && i < |conns| && conns[i].Finished?
      modifies `conns, `tokens, `run
      ensures Valid() && old(run) <= run && conns == old(conns)[i := Released]
      ensures tokens + 1 == old(tokens)
    {
      ghost var before := View();
      ReleaseNeverBlocks(run, maxConns, i);
      tokens := tokens - 1;
      conns := conns[i := Released];
      Book(before, Go(i));
    }

    method LowerCount(i: nat)
      requires Valid() && i < |conns| && conns[i].Released?
      modifies `conns, `statActive, `run
      ensures Valid() && old(run) <= run && conns == old(conns)[i := Uncounted]
      ensures statActive == old(statActive) - 1
    {
      ghost var before := View();
      statActive := statActive - 1;
      conns := conns[i := Uncounted];
      Book(before, Go(i));
    }

    method UntrackAndClose(i: nat)
      requires Valid() && i < |conns| && conns[i].Uncounted?
      modifies `conns, `active, `run
      ensures Valid() && old(run) <= run && conns == old(conns)[i := Closed] && active == old(active) - {i}
    {
      ghost var before := View();
      active := active - {i};
      conns := conns[i := Untracked];
      Book(before, Go(i));
      before := View();
      conns := conns[i := Closed];
      Book(before, Go(i));
    }
  }

  lemma OneMoreEvent(events: seq<Event>, k: nat)
    requires k < |events|
    ensures events[..k + 1][..k] == events[..k] && events[..k + 1][k] == events[k]
  {
  }

  /** A session's step leaves the connection in the loop's hand alone, and never puts one there. */
  lemma SessionKeepsLoop(s: State, i: nat, max: nat)
    requires Enabled(s, Go(i)) && !InLoop(s.conns[i])
    ensures var s' := Apply(s, Go(i), max);
      && |s'.conns| == |s.conns| && !InLoop(s'.conns[i]) && (forall j :: 0 <= j < |s.conns| && j != i ==> s'.conns[j] == s.conns[j])
      && s'.errors == s.errors && s'.stopped == s.stopped && (LoopFree(s) <==> LoopFree(s'))
  {
  }
}
