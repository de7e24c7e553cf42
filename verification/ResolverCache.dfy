/** The resolver object of internal/dns/resolver.go: its maps, semaphore and counters, and `Lookup`
    with whatever other callers do between its steps. The ghost run ties the object to the step
    machine of ResolverProtocol. */
module ResolverCache {
  import opened Basics
  import opened ResolverProtocol

  /** What the first critical section of `Lookup` decides. */
  datatype Decision = Serve(answer: Answer) | Join(call: CallId) | Lead(call: CallId)

  lemma {:induction false} ExecGrow(s: State, ls: seq<Label>, l: Label)
    requires Executable(s, ls) && Enabled(Exec(s, ls), l)
    ensures Executable(s, ls + [l]) && Exec(s, ls + [l]) == Apply(Exec(s, ls), l)
    decreases |ls|
  {
    if ls == [] {
      assert ls + [l] == [l] && [l][1..] == [];
    } else {
      ExecGrow(Apply(s, ls[0]), ls[1..], l);
      assert (ls + [l])[1..] == ls[1..] + [l];
    }
  }

  predicate Theirs(t: Tid, l: Label) {
    (l.Spawn? || l.Go?) ==> l.t != t
  }

  /** A step of the others leaves thread `t` and the host it asks for alone, and never takes a call
      it waits for away. */
  lemma TheirsKeeps(s: State, l: Label, t: Tid)
    requires Enabled(s, l) && Theirs(t, l) && t in s.threads
    ensures t in Apply(s, l).threads && Apply(s, l).threads[t] == s.threads[t]
    ensures t in s.sh.cancelled ==> t in Apply(s, l).sh.cancelled
  {
  }

  /** From `was` to `now` goroutine `t` is not answered by upstream. */
  predicate Unanswered(t: Tid, was: seq<Label>, now: seq<Label>) {
    was <= now && forall i :: |was| <= i < |now| && now[i].Go? && now[i].t == t ==> !now[i].c.Reply?
  }

  /** ... or is, but with `reply` only, or with its context's error. */
  predicate AnsweredBy(t: Tid, reply: Answer, was: seq<Label>, now: seq<Label>) {
    was <= now
    && forall i :: |was| <= i < |now| && now[i].Go? && now[i].t == t && now[i].c.Reply? ==>
         now[i].c.answer == reply || now[i].c.answer.Cancelled?
  }

  lemma AnsweredLonger(t: Tid, reply: Answer, was: seq<Label>, mid: seq<Label>, now: seq<Label>)
    requires AnsweredBy(t, reply, was, mid)
    ensures AnsweredBy(t, reply, mid, now) ==> AnsweredBy(t, reply, was, now)
    ensures Unanswered(t, mid, now) ==> AnsweredBy(t, reply, mid, now)
  {
  }

  /** In the run `mid` the host has this answer in the cache. */
  ghost predicate CachedAt(mid: seq<Label>, host: Host, a: Answer) {
    && Executable(Init(), mid)
    && var entries := Exec(Init(), mid).sh.entries;
       host in entries && entries[host].answer == a
  }

  /** In the run `mid` every token is out. */
  ghost predicate FullAt(mid: seq<Label>) {
    Executable(Init(), mid) && |Exec(Init(), mid).sh.sem| >= MAX_CONCURRENT
  }

  class Resolver {
    var entries: map<Host, Entry>
    var inflight: map<Host, CallId>
    var sem: set<Tid>
    var calls: map<CallId, Call>
    var now: int
    var cancelled: set<Tid>
    var flushes: nat                       // history
    var asked: set<(Host, Answer)>         // history
    var threads: map<Tid, Pc>
    var hits: nat
    var misses: nat
    var coalesced: nat
    ghost var run: seq<Label>

    function View(): State
      reads this
    {
      State(Shared(entries, inflight, sem, calls, now, cancelled, flushes, asked), threads)
    }

    ghost predicate Valid()
      reads this
    {
      Executable(Init(), run) && Exec(Init(), run) == View()
    }

    constructor ()
      ensures Valid() && run == [] && hits == misses == coalesced == 0
    {
      entries, inflight, sem, calls, now, cancelled, flushes, asked := map[], map[], {}, map[], 0, {}, 0, {};
      threads, hits, misses, coalesced, run := map[], 0, 0, 0, [];
    }

    ghost method Book(before: State, l: Label)
      requires Executable(Init(), run) && Exec(Init(), run) == before && Enabled(before, l) && Apply(before, l) == View()
      modifies `run
      ensures Valid() && run == old(run) + [l]
    {
      ExecGrow(Init(), run, l);
      run := run + [l];
    }

    method Adopt(s: State)
      modifies `entries, `inflight, `sem, `calls, `now, `cancelled, `flushes, `asked, `threads
      ensures View() == s
    {
      entries, inflight, sem, calls := s.sh.entries, s.sh.inflight, s.sh.sem, s.sh.calls;
      now, cancelled, flushes, asked, threads := s.sh.now, s.sh.cancelled, s.sh.flushes, s.sh.asked, s.threads;
    }

    /** The others take whichever of the scheduled steps they can. */
    method Elsewhere(t: Tid, schedule: seq<Label>)
      requires Valid() && t in threads
      modifies this
      ensures Valid() && Unanswered(t, old(run), run) && t in threads && threads[t] == old(threads)[t]
      ensures t in old(cancelled) ==> t in cancelled
    {
      for i := 0 to |schedule|
        invariant Valid() && Unanswered(t, old(run), run) && t in threads && threads[t] == old(threads)[t]
        invariant t in old(cancelled) ==> t in cancelled
      {
        var l := schedule[i];
        if Theirs(t, l) && Enabled(View(), l) {
          ghost var before := View();
          TheirsKeeps(before, l, t);
          Adopt(Apply(View(), l));
          Book(before, l);
        }
      }
    }

    /** `Lookup`. `others` is what happens elsewhere at each point in between, `reply` what upstream
        answers if it is asked, and `givesUp` whether a caller whose context is over leaves though what
        it waits for is there, or gets nothing but its context's error from upstream; None is a call
        still waiting when `patience` is used up. An answer is the one in the cache at its first
        critical section (`at` is the run up to there), the result of the call it joined, what upstream
        replied to this very call, or the error of a cancelled context: the caller's own, or that of the
        leader it joined. A caller that need not give up does so only if every token is out (`stuck` is
        a run in which that is so), or the call it joined is not done. */
    method Lookup(t: Tid, host: Host, reply: Answer, givesUp: bool, others: nat -> seq<Label>, patience: nat)
        returns (a: Option<Answer>, ghost at: seq<Label>, ghost stuck: seq<Label>)
      requires Valid() && t !in threads && !reply.Cancelled?
      modifies this
      ensures Valid() && AnsweredBy(t, reply, old(run), run) && t in threads && old(run) <= at <= run
      ensures a.Some? ==> threads[t].Returned? && threads[t].host == host && threads[t].answer == a.value
      ensures a.Some? && threads[t].from.FromUpstream? ==> a.value == reply && (host, reply) in asked
      ensures a.Some? && threads[t].from.FromCache? ==> CachedAt(at, host, a.value) && !a.value.Cancelled?
      ensures a.Some? && threads[t].from.FromLeader? ==>
                && threads[t].from.call in calls && calls[threads[t].from.call].host == host
                && calls[threads[t].from.call].result == a
                && (a == Some(Cancelled) ==> calls[threads[t].from.call].leader in cancelled)
      ensures a.Some? && threads[t].from.FromContext? ==>
                && a == Some(Cancelled) && t in cancelled
                && (givesUp || FullAt(stuck) || exists k :: StillAsked(host, k))
      ensures a.None? && patience > 0 ==>
                && t !in cancelled
                && ((threads[t].Queueing? && |sem| >= MAX_CONCURRENT)
                    || (threads[t].Joined? && StillAsked(host, threads[t].call)))
    {
      var d, began;
      d, began, at := Decide(t, host, others);
      AnsweredLonger(t, reply, old(run), old(run), run);
      ghost var before := run;
      a, stuck := Carry(t, host, d, began, reply, givesUp, others, patience);
      AnsweredLonger(t, reply, old(run), before, run);
      if a.Some? {
        AnswersComeFromUpstream(run, t);
      }
    }

    /** Up to the end of the first critical section, and what happens elsewhere right after it. */
    method Decide(t: Tid, host: Host, others: nat -> seq<Label>) returns (d: Decision, began: int, ghost at: seq<Label>)
      requires Valid() && t !in threads
      modifies this
      ensures Valid() && Unanswered(t, old(run), run) && t in threads && old(run) <= at <= run
      ensures Decided(t, host, d, began) && (d.Serve? ==> CachedAt(at, host, d.answer))
    {
      began := Arrive(t, host);
      Elsewhere(t, others(0));
      at := run;
      d := Begin(t, host, began);
      Elsewhere(t, others(1));
    }

    /** Where the decision leaves the caller. */
    predicate Decided(t: Tid, host: Host, d: Decision, began: int)
      reads `threads
    {
      && t in threads
      && match d
         case Serve(answer) => threads[t] == Hit(host, answer)
         case Join(k) => threads[t] == Joined(host, k)
         case Lead(k) => threads[t] == Queueing(host, k, began)
    }

    /** The rest of the call. */
    method Carry(t: Tid, host: Host, d: Decision, began: int, reply: Answer, givesUp: bool, others: nat -> seq<Label>, patience: nat)
        returns (a: Option<Answer>, ghost stuck: seq<Label>)
      requires Valid() && Decided(t, host, d, began) && !reply.Cancelled?
      modifies this
      ensures Valid() && AnsweredBy(t, reply, old(run), run) && t in threads
      ensures a.Some? ==> threads[t].Returned? && threads[t].host == host && threads[t].answer == a.value
      ensures a.Some? && threads[t].from.FromUpstream? ==> a.value == reply
      ensures a.Some? && threads[t].from.FromCache? ==> d == Serve(a.value)
      ensures a.Some? && threads[t].from.FromContext? ==> givesUp || FullAt(stuck) || exists k :: StillAsked(host, k)
      ensures a.None? && patience > 0 ==>
                && t !in cancelled
                && ((threads[t].Queueing? && |sem| >= MAX_CONCURRENT) || (threads[t].Joined? && StillAsked(host, threads[t].call)))
    {
      stuck := run;
      match d {
        case Serve(answer) => a := ReturnHit(t, host, answer);
        case Join(k) => a := AwaitLeader(t, host, k, givesUp, others, patience);
        case Lead(k) => a, stuck := Ask(t, host, k, began, reply, givesUp, others, patience);
      }
      AnsweredLonger(t, reply, old(run), old(run), run);
    }

    /** `now := time.Now()`. */
    method Arrive(t: Tid, host: Host) returns (began: int)
      requires Valid() && t !in threads
      modifies `threads, `run
      ensures Valid() && Unanswered(t, old(run), run) && t in threads && threads[t] == Timed(host, began) && began == now
    {
      ghost var before := View();
      threads := threads[t := Entering(host)];
      Book(before, Spawn(t, host));
      before := View();
      began := now;
      threads := threads[t := Timed(host, now)];
      Book(before, Go(t, Plain));
    }

    /** The first critical section: served from the cache, joined to the query in flight for the same
        name, or the leader of a new one. Each call is counted once, as a hit, a miss or a coalesced
        one. */
    method Begin(t: Tid, host: Host, began: int) returns (d: Decision)
      requires Valid() && t in threads && threads[t] == Timed(host, began)
      modifies `inflight, `calls, `threads, `hits, `misses, `coalesced, `run
      ensures Valid() && Unanswered(t, old(run), run) && t in threads
      ensures d.Serve? <==> IsFresh(entries, host, began)
      ensures d.Serve? ==> d.answer == entries[host].answer && threads[t] == Hit(host, d.answer)
      ensures d.Join? ==> host in inflight && d.call == inflight[host] && threads[t] == Joined(host, d.call)
      ensures d.Lead? ==> host !in old(inflight) && inflight == old(inflight)[host := d.call] && threads[t] == Queueing(host, d.call, began)
      ensures !d.Lead? ==> inflight == old(inflight) && calls == old(calls)
      ensures hits == old(hits) + (if d.Serve? then 1 else 0) && misses == old(misses) + if d.Lead? then 1 else 0
      ensures hits + misses + coalesced == old(hits) + old(misses) + old(coalesced) + 1
    {
      ghost var before := View();
      if host in entries && began < entries[host].expires {
        hits := hits + 1;
        d := Serve(entries[host].answer);
        threads := threads[t := Hit(host, entries[host].answer)];
        Book(before, Go(t, Plain));
      } else if host in inflight {
        coalesced := coalesced + 1;
        d := Join(inflight[host]);
        threads := threads[t := Joined(host, inflight[host])];
        Book(before, Go(t, Plain));
      } else {
        var k := LeadNew(t, host, began);
        misses := misses + 1;
        d := Lead(k);
      }
    }

    method LeadNew(t: Tid, host: Host, began: int) returns (k: CallId)
      requires Valid() && t in threads && threads[t] == Timed(host, began) && !IsFresh(entries, host, began) && host !in inflight
      modifies `inflight, `calls, `threads, `run
      ensures Valid() && Unanswered(t, old(run), run) && t in threads && threads[t] == Queueing(host, k, began)
      ensures inflight == old(inflight)[host := k]
    {
      ghost var before := View();
      k := FreshKey(calls.Keys);
      inflight := inflight[host := k];
      calls := calls[k := Call(host, None, false, t)];
      threads := threads[t := Queueing(host, k, began)];
      Book(before, Go(t, NewCall(k)));
    }

    method ReturnHit(t: Tid, host: Host, answer: Answer) returns (a: Option<Answer>)
      requires Valid() && t in threads && threads[t] == Hit(host, answer)
      modifies `threads, `run
      ensures Valid() && Unanswered(t, old(run), run) && t in threads && a == Some(answer) && threads[t] == Returned(host, answer, FromCache)
    {
      ghost var before := View();
      threads := threads[t := Returned(host, answer, FromCache)];
      Book(before, Go(t, Plain));
      a := Some(answer);
    }

    lemma CallKnown(t: Tid)
      requires Valid() && t in threads && (threads[t].Joined? || threads[t].Queueing?)
      ensures threads[t].call in calls && calls[threads[t].call].host == threads[t].host
    {
      Reached(run);
      assert ThreadOk(View().sh, t, threads[t]);
    }

    /** The call for the host is not done. */
    predicate StillAsked(host: Host, k: CallId)
      reads `calls
    {
      k in calls && calls[k].host == host && !calls[k].done
    }

    /** The wait of a joiner: for the leader's result, or the end of its own context. */
    method AwaitLeader(t: Tid, host: Host, k: CallId, givesUp: bool, others: nat -> seq<Label>, patience: nat)
        returns (a: Option<Answer>)
      requires Valid() && t in threads && threads[t] == Joined(host, k)
      modifies this
      ensures Valid() && Unanswered(t, old(run), run) && t in threads
      ensures a.Some? ==> threads[t] == Returned(host, a.value, FromLeader(k)) || threads[t] == Returned(host, a.value, FromContext)
      ensures a.Some? && threads[t].from.FromContext? ==> t in cancelled && (givesUp || StillAsked(host, k))
      ensures a.None? ==> threads[t] == Joined(host, k) && (patience > 0 ==> t !in cancelled && StillAsked(host, k))
    {
      for turn := 0 to patience
        invariant Valid() && Unanswered(t, old(run), run) && t in threads && threads[t] == Joined(host, k)
        invariant turn > 0 ==> t !in cancelled && StillAsked(host, k)
      {
        Elsewhere(t, others(2 + turn));
        CallKnown(t);
        if calls[k].done && !(givesUp && t in cancelled) {
          a := ReadResult(t, host, k);
          return;
        }
        if t in cancelled {
          ghost var before := View();
          threads := threads[t := Returned(host, Cancelled, FromContext)];
          Book(before, Go(t, OnContext));
          return Some(Cancelled);
        }
      }
      return None;
    }

    method ReadResult(t: Tid, host: Host, k: CallId) returns (a: Option<Answer>)
      requires Valid() && t in threads && threads[t] == Joined(host, k) && k in calls && calls[k].done
      modifies `threads, `run
      ensures Valid() && Unanswered(t, old(run), run) && t in threads && a.Some? && threads[t] == Returned(host, a.value, FromLeader(k))
      ensures a == calls[k].result
    {
      ghost var before := View();
      Reached(run);
      a := calls[k].result;
      threads := threads[t := Returned(host, calls[k].result.value, FromLeader(k))];
      Book(before, Go(t, OnReady));
    }

    /** The leader: `limitedLookup`, the store, and the close of `done`. It returns what upstream replied,
        or gives up when its context is over. */
    method Ask(t: Tid, host: Host, k: CallId, began: int, reply: Answer, givesUp: bool, others: nat -> seq<Label>, patience: nat)
        returns (a: Option<Answer>, ghost stuck: seq<Label>)
      requires Valid() && t in threads && threads[t] == Queueing(host, k, began) && !reply.Cancelled?
      modifies this
      ensures Valid() && AnsweredBy(t, reply, old(run), run) && t in threads
      ensures a.Some? ==> threads[t] == Returned(host, a.value, if a.value.Cancelled? then FromContext else FromUpstream)
      ensures a.Some? ==> a.value == reply || (a.value.Cancelled? && (givesUp || FullAt(stuck)))
      ensures a.None? ==> threads[t] == Queueing(host, k, began) && (patience > 0 ==> t !in cancelled && |sem| >= MAX_CONCURRENT)
    {
      var token := AwaitToken(t, host, k, began, givesUp, others, patience);
      stuck := run;
      AnsweredLonger(t, reply, old(run), old(run), run);
      if threads[t].Queueing? {
        return None, stuck;
      }
      var answer := Cancelled;
      if token {
        answer := Query(t, host, k, began, reply, givesUp, others, patience);
      }
      ghost var before := run;
      Conclude(t, host, k, began, answer, others(4 + patience), others(5 + patience));
      AnsweredLonger(t, reply, old(run), before, run);
      return Some(answer), stuck;
    }

    /** The store, and the close of `done`. */
    method Conclude(t: Tid, host: Host, k: CallId, began: int, answer: Answer, before: seq<Label>, between: seq<Label>)
      requires Valid() && t in threads && threads[t] == Storing(host, k, began, answer)
      modifies this
      ensures Valid() && Unanswered(t, old(run), run) && t in threads
      ensures threads[t] == Returned(host, answer, if answer.Cancelled? then FromContext else FromUpstream)
    {
      Elsewhere(t, before);
      Finish(t, host, k, began, answer);
      Elsewhere(t, between);
      CloseDone(t, host, k, answer);
    }

    /** The query, with a token in hand, and the token's return. */
    method Query(t: Tid, host: Host, k: CallId, began: int, reply: Answer, givesUp: bool, others: nat -> seq<Label>, patience: nat)
        returns (answer: Answer)
      requires Valid() && t in threads && threads[t] == Asking(host, k, began) && !reply.Cancelled?
      modifies this
      ensures Valid() && AnsweredBy(t, reply, old(run), run) && t in threads && threads[t] == Storing(host, k, began, answer)
      ensures answer == reply || (givesUp && answer.Cancelled?)
    {
      Elsewhere(t, others(2 + patience));
      answer := if givesUp && t in cancelled then Cancelled else reply;
      AnsweredLonger(t, reply, old(run), old(run), run);
      Answered(t, host, k, began, answer);
      ghost var before := run;
      Elsewhere(t, others(3 + patience));
      Release(t, host, k, began, answer);
      AnsweredLonger(t, reply, old(run), before, run);
    }

    /** The select on the semaphore: a token, or the end of the context. */
    method AwaitToken(t: Tid, host: Host, k: CallId, began: int, givesUp: bool, others: nat -> seq<Label>, patience: nat)
        returns (token: bool)
      requires Valid() && t in threads && threads[t] == Queueing(host, k, began)
      modifies this
      ensures Valid() && Unanswered(t, old(run), run) && t in threads
      ensures token ==> threads[t] == Asking(host, k, began)
      ensures !token ==> threads[t] == Queueing(host, k, began) || threads[t] == Storing(host, k, began, Cancelled)
      ensures threads[t].Storing? ==> t in cancelled && (givesUp || FullAt(run))
      ensures threads[t].Queueing? && patience > 0 ==> t !in cancelled && |sem| >= MAX_CONCURRENT
    {
      for turn := 0 to patience
        invariant Valid() && Unanswered(t, old(run), run) && t in threads && threads[t] == Queueing(host, k, began)
        invariant turn > 0 ==> t !in cancelled && |sem| >= MAX_CONCURRENT
      {
        Elsewhere(t, others(2 + turn));
        CallKnown(t);
        if t in cancelled && (givesUp || |sem| >= MAX_CONCURRENT) {
          GiveUp(t, host, k, began);
          return false;
        }
        if |sem| < MAX_CONCURRENT {
          TakeToken(t, host, k, began);
          return true;
        }
      }
      return false;
    }

    method GiveUp(t: Tid, host: Host, k: CallId, began: int)
      requires Valid() && t in threads && threads[t] == Queueing(host, k, began) && t in cancelled && k in calls
      modifies `calls, `threads, `run
      ensures Valid() && Unanswered(t, old(run), run) && t in threads && threads[t] == Storing(host, k, began, Cancelled)
    {
      ghost var before := View();
      calls := calls[k := calls[k].(result := Some(Cancelled))];
      threads := threads[t := Storing(host, k, began, Cancelled)];
      Book(before, Go(t, OnContext));
    }

    method TakeToken(t: Tid, host: Host, k: CallId, began: int)
      requires Valid() && t in threads && threads[t] == Queueing(host, k, began) && |sem| < MAX_CONCURRENT && k in calls
      modifies `sem, `threads, `run
      ensures Valid() && Unanswered(t, old(run), run) && t in threads && threads[t] == Asking(host, k, began)
    {
      ghost var before := View();
      sem := sem + {t};
      threads := threads[t := Asking(host, k, began)];
      Book(before, Go(t, OnReady));
    }

    method Answered(t: Tid, host: Host, k: CallId, began: int, reply: Answer)
      requires Valid() && t in threads && threads[t] == Asking(host, k, began) && (reply.Cancelled? ==> t in cancelled)
      modifies `asked, `threads, `run
      ensures Valid() && AnsweredBy(t, reply, old(run), run) && t in threads && threads[t] == Releasing(host, k, began, reply)
      ensures asked == if reply.Cancelled? then old(asked) else old(asked) + {(host, reply)}
    {
      ghost var before := View();
      if !reply.Cancelled? {
        asked := asked + {(host, reply)};
      }
      threads := threads[t := Releasing(host, k, began, reply)];
      Book(before, Go(t, Reply(reply)));
    }

    method Release(t: Tid, host: Host, k: CallId, began: int, reply: Answer)
      requires Valid() && t in threads && threads[t] == Releasing(host, k, began, reply)
      modifies `sem, `calls, `threads, `run
      ensures Valid() && Unanswered(t, old(run), run) && t in threads && threads[t] == Storing(host, k, began, reply)
    {
      ghost var before := View();
      Reached(run);
      assert ThreadOk(View().sh, t, threads[t]);
      sem := sem - {t};
      calls := calls[k := calls[k].(result := Some(reply))];
      threads := threads[t := Storing(host, k, began, reply)];
      Book(before, Go(t, Plain));
    }

    /** The second critical section of a leader: the query leaves `inflight`, and its answer enters
        the cache unless it is an error under a cancelled context. */
    method Finish(t: Tid, host: Host, k: CallId, began: int, answer: Answer)
      requires Valid() && t in threads && threads[t] == Storing(host, k, began, answer)
      modifies `entries, `inflight, `threads, `run
      ensures Valid() && Unanswered(t, old(run), run) && t in threads && threads[t] == Closing(host, k, answer)
      ensures inflight == old(inflight) - {host} && |entries| <= MAX_ENTRIES
      ensures entries == Stored(old(entries), host, answer, t in cancelled, began, now, flushes)
    {
      ghost var before := View();
      AtMostMaxEntries();
      inflight := inflight - {host};
      Store(host, answer, t in cancelled, began);
      threads := threads[t := Closing(host, k, answer)];
      Book(before, Go(t, Plain));
    }

    lemma AtMostMaxEntries()
      requires Valid()
      ensures |entries| <= MAX_ENTRIES
    {
      Reached(run);
    }

    method Store(host: Host, answer: Answer, gaveUp: bool, began: int)
      requires |entries| <= MAX_ENTRIES
      modifies `entries
      ensures entries == Stored(old(entries), host, answer, gaveUp, began, now, flushes) && |entries| <= MAX_ENTRIES
    {
      StoredBounds(entries, host, answer, gaveUp, began, now, flushes);
      var ttl := POSITIVE_TTL;
      if !answer.Found? {
        ttl := NEGATIVE_TTL;
      }
      if answer.Found? || !gaveUp {
        EvictLocked(began);
        entries := entries[host := Entry(answer, now + ttl, now, flushes, gaveUp)];
      }
    }

    method CloseDone(t: Tid, host: Host, k: CallId, answer: Answer)
      requires Valid() && t in threads && threads[t] == Closing(host, k, answer)
      modifies `calls, `threads, `run
      ensures Valid() && Unanswered(t, old(run), run) && t in threads && k in calls && calls[k].done && calls[k].result == Some(answer)
      ensures threads[t] == Returned(host, answer, if answer.Cancelled? then FromContext else FromUpstream)
    {
      ghost var before := View();
      Reached(run);
      assert ThreadOk(View().sh, t, threads[t]);
      calls := calls[k := calls[k].(done := true)];
      threads := threads[t := Returned(host, answer, if answer.Cancelled? then FromContext else FromUpstream)];
      Book(before, Go(t, Plain));
    }

    /** Drops expired entries from a full cache, and if it is still full, clears it. */
    method EvictLocked(at: int)
      modifies `entries
      ensures entries == Evicted(old(entries), at)
    {
      if |entries| < MAX_ENTRIES {
        return;
      }
      var all := entries;
      var todo := entries.Keys;
      while todo != {}
        invariant todo <= all.Keys && all == old(entries)
        invariant entries == map h | h in all && (h in todo || at <= all[h].expires) :: all[h]
        decreases |todo|
      {
        var k :| k in todo;
        if at > all[k].expires {
          entries := entries - {k};
        }
        todo := todo - {k};
      }
      assert entries == Unexpired(all, at);
      if |entries| >= MAX_ENTRIES {
        entries := map[];
      }
    }

    method Flush()
      requires Valid()
      modifies `entries, `flushes, `run
      ensures Valid() && entries == map[] && flushes == old(flushes) + 1
    {
      ghost var before := View();
      entries := map[];
      flushes := flushes + 1;
      Book(before, ResolverProtocol.Flush);
    }
  }
}
