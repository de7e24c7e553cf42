/** The caching, coalescing resolver of internal/dns/resolver.go as a step machine: any number of
    callers of `Lookup`, one step per critical section of `mu` and per channel operation. */
module ResolverProtocol {
  import opened Basics

  type Tid = nat
  type Host = nat
  type CallId = nat

  const POSITIVE_TTL: int := 60
  const NEGATIVE_TTL: int := 5
  const MAX_ENTRIES: nat := 1024
  const MAX_CONCURRENT: nat := 8

  /** `Cancelled` is the error of the caller's own context, whether it ended before or while asking. */
  datatype Answer = Found(addrs: seq<nat>) | Failed(code: nat) | Cancelled

  /** `storedAt`, `epoch`, the number of flushes before the store, and `gaveUp`, whether the context of
      the leader that stored it was over, are histories. */
  datatype Entry = Entry(answer: Answer, expires: int, storedAt: int, epoch: nat, gaveUp: bool)

  /** A query in flight. `leader` is a history: the goroutine that answers it. */
  datatype Call = Call(host: Host, result: Option<Answer>, done: bool, leader: Tid)

  datatype Pc =
    | Entering(host: Host)
    | Timed(host: Host, now: int)
    | Hit(host: Host, answer: Answer)
    | Joined(host: Host, call: CallId)
    | Queueing(host: Host, call: CallId, now: int)
    | Asking(host: Host, call: CallId, now: int)
    | Releasing(host: Host, call: CallId, now: int, answer: Answer)
    | Storing(host: Host, call: CallId, now: int, answer: Answer)
    | Closing(host: Host, call: CallId, answer: Answer)
    | Returned(host: Host, answer: Answer, from: Source)

  /** How a call of `Lookup` came by its answer. */
  datatype Source = FromCache | FromLeader(call: CallId) | FromUpstream | FromContext

  /** What `mu` guards, the semaphore (who holds a token), the calls, the clock, the contexts
      cancelled, and two histories: the flushes, and what upstream answered. */
  datatype Shared = Shared(
    entries: map<Host, Entry>,
    inflight: map<Host, CallId>,
    sem: set<Tid>,
    calls: map<CallId, Call>,
    now: int,
    cancelled: set<Tid>,
    flushes: nat,
    asked: set<(Host, Answer)>)

  datatype State = State(sh: Shared, threads: map<Tid, Pc>)

  datatype Choice = Plain | NewCall(id: CallId) | Reply(answer: Answer) | OnReady | OnContext

  datatype Label = Spawn(t: Tid, host: Host) | Go(t: Tid, c: Choice) | Cancel(t: Tid) | Flush | Clock(step: nat)

  function Init(): State {
    State(Shared(map[], map[], {}, map[], 0, {}, 0, {}), map[])
  }

  // --- The critical sections ------------------------------------------------------------

  predicate IsFresh(entries: map<Host, Entry>, host: Host, now: int) {
    host in entries && now < entries[host].expires
  }

  function Ttl(a: Answer): int {
    if a.Found? then POSITIVE_TTL else NEGATIVE_TTL
  }

  function Unexpired(entries: map<Host, Entry>, now: int): map<Host, Entry> {
    map h | h in entries && now <= entries[h].expires :: entries[h]
  }

  /** `evictLocked`. */
  function Evicted(entries: map<Host, Entry>, now: int): map<Host, Entry> {
    if |entries| < MAX_ENTRIES then entries
    else
      var kept := Unexpired(entries, now);
      if |kept| >= MAX_ENTRIES then map[] else kept
  }

  /** Whether the answer goes into the cache: an error under a cancelled context does not. */
  predicate Stores(a: Answer, cancelled: bool) {
    a.Found? || !cancelled
  }

  function Stored(entries: map<Host, Entry>, host: Host, a: Answer, cancelled: bool, began: int, now: int, epoch: nat)
    : map<Host, Entry>
  {
    if Stores(a, cancelled) then Evicted(entries, began)[host := Entry(a, now + Ttl(a), now, epoch, cancelled)] else entries
  }

  // --- Steps ----------------------------------------------------------------------------

  predicate CanGo(sh: Shared, t: Tid, pc: Pc, c: Choice) {
    match pc
    case Entering(_) => c.Plain?
    case Timed(host, now) =>
      if IsFresh(sh.entries, host, now) || host in sh.inflight then c.Plain? else c.NewCall? && c.id !in sh.calls
    case Hit(_, _) => c.Plain?
    case Joined(_, call) =>
      (c.OnReady? && call in sh.calls && sh.calls[call].done && sh.calls[call].result.Some?)
      || (c.OnContext? && t in sh.cancelled)
    case Queueing(_, call, _) => call in sh.calls && ((c.OnReady? && |sh.sem| < MAX_CONCURRENT) || (c.OnContext? && t in sh.cancelled))
    case Asking(_, _, _) => c.Reply? && (c.answer.Cancelled? ==> t in sh.cancelled)
    case Releasing(_, call, _, _) => c.Plain? && call in sh.calls
    case Storing(_, _, _, _) => c.Plain?
    case Closing(_, call, _) => c.Plain? && call in sh.calls
    case Returned(_, _, _) => false
  }

  function React(sh: Shared, t: Tid, pc: Pc, c: Choice): (Shared, Pc)
    requires CanGo(sh, t, pc, c)
  {
    match pc
    case Entering(host) => (sh, Timed(host, sh.now))
    case Timed(host, now) =>
      if IsFresh(sh.entries, host, now) then (sh, Hit(host, sh.entries[host].answer))
      else if host in sh.inflight then (sh, Joined(host, sh.inflight[host]))
      else (sh.(calls := sh.calls[c.id := Call(host, None, false, t)], inflight := sh.inflight[host := c.id]),
            Queueing(host, c.id, now))
    case Hit(host, a) => (sh, Returned(host, a, FromCache))
    case Joined(host, call) =>
      if c.OnReady? then (sh, Returned(host, sh.calls[call].result.value, FromLeader(call)))
      else (sh, Returned(host, Cancelled, FromContext))
    case Queueing(host, call, now) =>
      if c.OnReady? then (sh.(sem := sh.sem + {t}), Asking(host, call, now))
      else (sh.(calls := sh.calls[call := sh.calls[call].(result := Some(Cancelled))]), Storing(host, call, now, Cancelled))
    case Asking(host, call, now) =>
      (if c.answer.Cancelled? then sh else sh.(asked := sh.asked + {(host, c.answer)}), Releasing(host, call, now, c.answer))
    case Releasing(host, call, now, a) =>
      (sh.(sem := sh.sem - {t}, calls := sh.calls[call := sh.calls[call].(result := Some(a))]), Storing(host, call, now, a))
    case Storing(host, call, now, a) =>
      (sh.(inflight := sh.inflight - {host},
       entries := Stored(sh.entries, host, a, t in sh.cancelled, now, sh.now, sh.flushes)),
       Closing(host, call, a))
    case Closing(host, call, a) =>
      (sh.(calls := sh.calls[call := sh.calls[call].(done := true)]),
       Returned(host, a, if a.Cancelled? then FromContext else FromUpstream))
  }

  predicate Enabled(s: State, l: Label) {
    match l
    case Spawn(t, host) => t !in s.threads
    case Go(t, c) => t in s.threads && CanGo(s.sh, t, s.threads[t], c)
    case Cancel(t) => true
    case Flush => true
    case Clock(step) => true
  }

  function Apply(s: State, l: Label): State
    requires Enabled(s, l)
  {
    match l
    case Spawn(t, host) => s.(threads := s.threads[t := Entering(host)])
    case Go(t, c) =>
      var (sh, pc) := React(s.sh, t, s.threads[t], c);
      State(sh, s.threads[t := pc])
    case Cancel(t) => s.(sh := s.sh.(cancelled := s.sh.cancelled + {t}))
    case Flush => s.(sh := s.sh.(entries := map[], flushes := s.sh.flushes + 1))
    case Clock(step) => s.(sh := s.sh.(now := s.sh.now + step))
  }

  predicate Executable(s: State, ls: seq<Label>)
    decreases |ls|
  {
    ls == [] || (Enabled(s, ls[0]) && Executable(Apply(s, ls[0]), ls[1..]))
  }

  function Exec(s: State, ls: seq<Label>): State
    requires Executable(s, ls)
    decreases |ls|
  {
    if ls == [] then s else Exec(Apply(s, ls[0]), ls[1..])
  }

  // --- Invariants -----------------------------------------------------------------------

  predicate Leads(pc: Pc) {
    pc.Queueing? || pc.Asking? || pc.Releasing? || pc.Storing?
  }

  predicate HoldsToken(pc: Pc) {
    pc.Asking? || pc.Releasing?
  }

  /** An answer came from upstream, or is the error of a cancelled context of goroutine `t`. */
  predicate Genuine(sh: Shared, host: Host, a: Answer, t: Tid) {
    if a.Cancelled? then t in sh.cancelled else (host, a) in sh.asked
  }

  ghost predicate EntriesOk(sh: Shared) {
    && |sh.entries| <= MAX_ENTRIES
    && forall h :: h in sh.entries ==>
        var e := sh.entries[h];
        && (h, e.answer) in sh.asked && !e.answer.Cancelled?
        && (e.gaveUp ==> e.answer.Found?)
        && e.expires == e.storedAt + Ttl(e.answer)
        && e.storedAt <= sh.now
        && e.epoch == sh.flushes
  }

  ghost predicate ResultsOk(sh: Shared) {
    forall c :: c in sh.calls ==>
      && (sh.calls[c].done ==> sh.calls[c].result.Some?)
      && (sh.calls[c].result.Some? ==> Genuine(sh, sh.calls[c].host, sh.calls[c].result.value, sh.calls[c].leader))
  }

  ghost predicate InflightOk(sh: Shared) {
    forall h :: h in sh.inflight ==>
      sh.inflight[h] in sh.calls && sh.calls[sh.inflight[h]].host == h && !sh.calls[sh.inflight[h]].done
  }

  ghost predicate CallsOk(sh: Shared) {
    |sh.sem| <= MAX_CONCURRENT && ResultsOk(sh) && InflightOk(sh)
  }

  predicate ThreadOk(sh: Shared, t: Tid, pc: Pc) {
    && (HoldsToken(pc) <==> t in sh.sem)
    && (Leads(pc) ==>
          && pc.host in sh.inflight && sh.inflight[pc.host] == pc.call && pc.call in sh.calls
          && sh.calls[pc.call].leader == t && sh.calls[pc.call].host == pc.host && !sh.calls[pc.call].done
          && sh.calls[pc.call].result == (if pc.Storing? then Some(pc.answer) else None))
    && (pc.Closing? ==>
          && pc.call in sh.calls && sh.calls[pc.call].leader == t && sh.calls[pc.call].host == pc.host
          && !sh.calls[pc.call].done && sh.calls[pc.call].result == Some(pc.answer)
          && (pc.host in sh.inflight ==> sh.inflight[pc.host] != pc.call))
    && (pc.Joined? ==> pc.call in sh.calls && sh.calls[pc.call].host == pc.host)
    && (pc.Releasing? || pc.Storing? || pc.Closing? ==> Genuine(sh, pc.host, pc.answer, t))
    && (pc.Hit? ==> !pc.answer.Cancelled? && (pc.host, pc.answer) in sh.asked)
    && (pc.Returned? ==> Earned(sh, t, pc.host, pc.answer, pc.from))
  }

  /** What a returned answer rests on. */
  predicate Earned(sh: Shared, t: Tid, host: Host, a: Answer, from: Source) {
    match from
    case FromCache => (host, a) in sh.asked && !a.Cancelled?
    case FromUpstream => (host, a) in sh.asked && !a.Cancelled?
    case FromContext => a == Cancelled && t in sh.cancelled
    case FromLeader(call) =>
      && call in sh.calls && sh.calls[call].host == host && sh.calls[call].done && sh.calls[call].result == Some(a)
      && Genuine(sh, host, a, sh.calls[call].leader)
  }

  /** Eviction always makes room, invents nothing, and gives up an unexpired answer only when there
      is no room left for the unexpired ones. */
  lemma EvictedBounds(entries: map<Host, Entry>, now: int)
    requires |entries| <= MAX_ENTRIES
    ensures |Evicted(entries, now)| < MAX_ENTRIES
    ensures |Unexpired(entries, now)| < MAX_ENTRIES ==>
              forall h :: h in entries && now <= entries[h].expires ==> h in Evicted(entries, now)
    ensures forall h :: h in Evicted(entries, now) ==> h in entries && Evicted(entries, now)[h] == entries[h]
  {
  }

  lemma StoredBounds(entries: map<Host, Entry>, host: Host, a: Answer, cancelled: bool, began: int, now: int, epoch: nat)
    requires |entries| <= MAX_ENTRIES
    ensures |Stored(entries, host, a, cancelled, began, now, epoch)| <= MAX_ENTRIES
    ensures Stores(a, cancelled) ==>
              host in Stored(entries, host, a, cancelled, began, now, epoch)
              && Stored(entries, host, a, cancelled, began, now, epoch)[host] == Entry(a, now + Ttl(a), now, epoch, cancelled)
    ensures forall h :: h in entries && h != host && h !in Stored(entries, host, a, cancelled, began, now, epoch) ==>
              |entries| >= MAX_ENTRIES && (began > entries[h].expires || |Unexpired(entries, began)| >= MAX_ENTRIES)
    ensures !Stores(a, cancelled) ==> Stored(entries, host, a, cancelled, began, now, epoch) == entries
    ensures forall h :: h in Stored(entries, host, a, cancelled, began, now, epoch) ==>
        var e := Stored(entries, host, a, cancelled, began, now, epoch)[h];
        || (h in entries && e == entries[h])
        || (h == host && Stores(a, cancelled) && e == Entry(a, now + Ttl(a), now, epoch, cancelled))
  {
    EvictedBounds(entries, began);
    var kept := Evicted(entries, began);
    assert kept[host := Entry(a, now + Ttl(a), now, epoch, cancelled)].Keys == kept.Keys + {host};
  }

  lemma EntriesStep(sh: Shared, t: Tid, pc: Pc, c: Choice)
    requires CanGo(sh, t, pc, c) && EntriesOk(sh) && ThreadOk(sh, t, pc)
    ensures EntriesOk(React(sh, t, pc, c).0)
  {
    if pc.Storing? {
      StoredBounds(sh.entries, pc.host, pc.answer, t in sh.cancelled, pc.now, sh.now, sh.flushes);
    }
  }

  lemma AskingKeepsResults(sh: Shared, t: Tid, pc: Pc, c: Choice)
    requires CanGo(sh, t, pc, c) && ResultsOk(sh) && ThreadOk(sh, t, pc) && (pc.Queueing? || pc.Asking? || pc.Releasing?)
    ensures ResultsOk(React(sh, t, pc, c).0)
  {
  }

  lemma ResultsStep(sh: Shared, t: Tid, pc: Pc, c: Choice)
    requires CanGo(sh, t, pc, c) && ResultsOk(sh) && ThreadOk(sh, t, pc)
    ensures ResultsOk(React(sh, t, pc, c).0)
  {
    if pc.Queueing? || pc.Asking? || pc.Releasing? {
      AskingKeepsResults(sh, t, pc, c);
    }
  }

  lemma InflightStep(sh: Shared, t: Tid, pc: Pc, c: Choice)
    requires CanGo(sh, t, pc, c) && InflightOk(sh) && ThreadOk(sh, t, pc)
    ensures InflightOk(React(sh, t, pc, c).0)
  {
  }

  lemma CallsStep(sh: Shared, t: Tid, pc: Pc, c: Choice)
    requires CanGo(sh, t, pc, c) && CallsOk(sh) && ThreadOk(sh, t, pc)
    ensures CallsOk(React(sh, t, pc, c).0)
  {
    ResultsStep(sh, t, pc, c);
    InflightStep(sh, t, pc, c);
  }

  lemma LeaderStep(sh: Shared, t: Tid, pc: Pc, c: Choice)
    requires CanGo(sh, t, pc, c) && ThreadOk(sh, t, pc) && (pc.Queueing? || pc.Asking? || pc.Releasing?)
    ensures var (sh', pc') := React(sh, t, pc, c); ThreadOk(sh', t, pc')
  {
  }

  lemma EndStep(sh: Shared, t: Tid, pc: Pc, c: Choice)
    requires CanGo(sh, t, pc, c) && CallsOk(sh) && ThreadOk(sh, t, pc) && (pc.Storing? || pc.Closing? || pc.Joined?)
    ensures var (sh', pc') := React(sh, t, pc, c); ThreadOk(sh', t, pc')
  {
  }

  lemma SelfStep(sh: Shared, t: Tid, pc: Pc, c: Choice)
    requires CanGo(sh, t, pc, c) && CallsOk(sh) && EntriesOk(sh) && ThreadOk(sh, t, pc)
    ensures var (sh', pc') := React(sh, t, pc, c); ThreadOk(sh', t, pc')
  {
    if pc.Queueing? || pc.Asking? || pc.Releasing? {
      LeaderStep(sh, t, pc, c);
    } else if pc.Storing? || pc.Closing? || pc.Joined? {
      EndStep(sh, t, pc, c);
    }
  }

  lemma OthersStep(sh: Shared, t: Tid, pc: Pc, c: Choice, u: Tid, other: Pc)
    requires CanGo(sh, t, pc, c) && CallsOk(sh) && ThreadOk(sh, t, pc) && ThreadOk(sh, u, other) && t != u
    ensures ThreadOk(React(sh, t, pc, c).0, u, other)
  {
  }

  /** What a step can change beside the acting thread: the in-flight entry of its own host, and
      its own token. */
  lemma Footprint(sh: Shared, t: Tid, pc: Pc, c: Choice)
    requires CanGo(sh, t, pc, c)
    ensures var (sh', pc') := React(sh, t, pc, c);
      && (forall h :: h in sh'.inflight ==> (h in sh.inflight && sh'.inflight[h] == sh.inflight[h]) || (h == pc.host && Leads(pc')))
      && (forall u :: u in sh'.sem ==> u in sh.sem || u == t)
      && pc'.host == pc.host
      && (forall k :: k in sh.calls ==> k in sh'.calls && sh'.calls[k].leader == sh.calls[k].leader
                                        && sh'.calls[k].host == sh.calls[k].host)
  {
  }

  /** A query in flight has its leader at work, and every token its holder. */
  ghost predicate Staffed(s: State) {
    && (forall h :: h in s.sh.inflight ==>
          && s.sh.inflight[h] in s.sh.calls
          && var t := s.sh.calls[s.sh.inflight[h]].leader;
             t in s.threads && Leads(s.threads[t]) && s.threads[t].host == h && s.threads[t].call == s.sh.inflight[h])
    && (forall t :: t in s.sh.sem ==> t in s.threads)
  }

  ghost predicate Inv(s: State) {
    && EntriesOk(s.sh) && CallsOk(s.sh) && Staffed(s)
    && forall t :: t in s.threads ==> ThreadOk(s.sh, t, s.threads[t])
  }

  lemma StaffedStep(s: State, t: Tid, c: Choice)
    requires Inv(s) && Enabled(s, Go(t, c))
    requires ThreadOk(Apply(s, Go(t, c)).sh, t, Apply(s, Go(t, c)).threads[t])
    ensures Staffed(Apply(s, Go(t, c)))
  {
    var s' := Apply(s, Go(t, c));
    var pc, pc' := s.threads[t], s'.threads[t];
    Footprint(s.sh, t, pc, c);
    forall h | h in s'.sh.inflight
      ensures s'.sh.inflight[h] in s'.sh.calls
      ensures var u := s'.sh.calls[s'.sh.inflight[h]].leader;
        u in s'.threads && Leads(s'.threads[u]) && s'.threads[u].host == h && s'.threads[u].call == s'.sh.inflight[h]
    {
      if h in s.sh.inflight && s'.sh.inflight[h] == s.sh.inflight[h] {
        var u := s.sh.calls[s.sh.inflight[h]].leader;
        if u == t && !Leads(pc') {
          LeavesInflight(s.sh, t, pc, c);
        }
      }
    }
  }

  lemma LeavesInflight(sh: Shared, t: Tid, pc: Pc, c: Choice)
    requires CanGo(sh, t, pc, c) && Leads(pc)
    ensures var (sh', pc') := React(sh, t, pc, c);
      if Leads(pc') then pc'.call == pc.call else pc.host !in sh'.inflight
  {
  }

  lemma GoStep(s: State, t: Tid, c: Choice)
    requires Inv(s) && Enabled(s, Go(t, c))
    ensures Inv(Apply(s, Go(t, c)))
  {
    var s' := Apply(s, Go(t, c));
    var pc := s.threads[t];
    EntriesStep(s.sh, t, pc, c);
    CallsStep(s.sh, t, pc, c);
    SelfStep(s.sh, t, pc, c);
    forall u | u in s'.threads ensures ThreadOk(s'.sh, u, s'.threads[u]) {
      if u != t { OthersStep(s.sh, t, pc, c, u, s.threads[u]); }
    }
    StaffedStep(s, t, c);
  }

  lemma InvStep(s: State, l: Label)
    requires Inv(s) && Enabled(s, l)
    ensures Inv(Apply(s, l))
  {
    if l.Go? {
      GoStep(s, l.t, l.c);
    } else {
      var s' := Apply(s, l);
      OutsideKeepsShared(s, l);
      forall u | u in s'.threads
        ensures ThreadOk(s'.sh, u, s'.threads[u])
      {
        OutsideKeepsThread(s, l, u);
      }
    }
  }

  /** Arrivals, cancellations, flushes and the clock. */
  lemma OutsideKeepsShared(s: State, l: Label)
    requires Inv(s) && Enabled(s, l) && !l.Go?
    ensures EntriesOk(Apply(s, l).sh) && CallsOk(Apply(s, l).sh) && Staffed(Apply(s, l))
  {
  }

  lemma OutsideKeepsThread(s: State, l: Label, u: Tid)
    requires Inv(s) && Enabled(s, l) && !l.Go? && u in Apply(s, l).threads
    ensures ThreadOk(Apply(s, l).sh, u, Apply(s, l).threads[u])
  {
    assert u in s.threads ==> ThreadOk(s.sh, u, s.threads[u]);
    assert l.Spawn? ==> l.t !in s.sh.sem;
  }

  lemma {:induction false} InvRun(s: State, ls: seq<Label>)
    requires Inv(s) && Executable(s, ls)
    ensures Inv(Exec(s, ls))
    decreases |ls|
  {
    if ls != [] {
      InvStep(s, ls[0]);
      InvRun(Apply(s, ls[0]), ls[1..]);
    }
  }

  // --- What every run keeps -------------------------------------------------------------

  lemma Reached(ls: seq<Label>)
    requires Executable(Init(), ls)
    ensures Inv(Exec(Init(), ls))
  {
    InvRun(Init(), ls);
  }

  ghost function Askers(s: State): set<Tid> {
    set t | t in s.threads && s.threads[t].Asking?
  }

  /** Single flight: at most one query per host and at most MAX_CONCURRENT in all are upstream at
      a time, and a host is in flight exactly while a leader for it is at work. */
  lemma SingleFlight(ls: seq<Label>, h: Host)
    requires Executable(Init(), ls)
    ensures var s := Exec(Init(), ls);
      && (forall t, u :: (t in s.threads && u in s.threads && Leads(s.threads[t]) && Leads(s.threads[u])
                          && s.threads[t].host == s.threads[u].host) ==> t == u)
      && |Askers(s)| <= MAX_CONCURRENT
      && (h in s.sh.inflight <==> exists t :: t in s.threads && Leads(s.threads[t]) && s.threads[t].host == h)
  {
    Reached(ls);
    var s := Exec(Init(), ls);
    forall t, u | t in s.threads && u in s.threads && Leads(s.threads[t]) && Leads(s.threads[u])
                  && s.threads[t].host == s.threads[u].host
      ensures t == u
    {
      assert ThreadOk(s.sh, t, s.threads[t]) && ThreadOk(s.sh, u, s.threads[u]);
    }
    forall t | t in Askers(s) ensures t in s.sh.sem {
      assert ThreadOk(s.sh, t, s.threads[t]);
    }
    SubsetSize(Askers(s), s.sh.sem);
    forall t | t in s.threads && Leads(s.threads[t]) && s.threads[t].host == h ensures h in s.sh.inflight {
      assert ThreadOk(s.sh, t, s.threads[t]);
    }
  }

  /** A call's `done` is closed by its leader only, once, after its result is set, and the result
      never changes afterwards: whoever waits for it reads what the leader found. */
  lemma ResultIsFinal(ls: seq<Label>, l: Label, k: CallId)
    requires Executable(Init(), ls) && Enabled(Exec(Init(), ls), l) && k in Exec(Init(), ls).sh.calls
    ensures var s := Exec(Init(), ls);
      var c, c' := s.sh.calls[k], Apply(s, l).sh.calls[k];
      && (c.result.Some? ==> c'.result == c.result)
      && (c.done ==> c'.done)
      && (c'.done && !c.done ==> l.Go? && l.t == c.leader && s.threads[l.t].Closing? && c.result.Some?)
      && (l.Go? && s.threads[l.t].Closing? && s.threads[l.t].call == k ==> !c.done)
  {
    Reached(ls);
    var s := Exec(Init(), ls);
    if l.Go? {
      assert ThreadOk(s.sh, l.t, s.threads[l.t]);
      CallEffect(s.sh, l.t, s.threads[l.t], l.c, k);
    }
  }

  lemma CallEffect(sh: Shared, t: Tid, pc: Pc, c: Choice, k: CallId)
    requires CanGo(sh, t, pc, c) && ThreadOk(sh, t, pc) && k in sh.calls
    ensures var sh' := React(sh, t, pc, c).0;
      && k in sh'.calls
      && (sh.calls[k].result.Some? ==> sh'.calls[k].result == sh.calls[k].result)
      && (sh.calls[k].done ==> sh'.calls[k].done)
      && (sh'.calls[k].done && !sh.calls[k].done ==> pc.Closing? && pc.call == k && sh.calls[k].leader == t)
  {
  }

  /** The cache agrees with asking: every answer a lookup returns was given by an upstream lookup
      of that host, with one exception, the error of a cancelled context; and that context is the
      caller's own, or that of the leader it waited for. */
  lemma AnswersComeFromUpstream(ls: seq<Label>, t: Tid)
    requires Executable(Init(), ls) && t in Exec(Init(), ls).threads && Exec(Init(), ls).threads[t].Returned?
    ensures var s := Exec(Init(), ls);
      var Returned(host, a, from) := s.threads[t];
      && (!a.Cancelled? ==> (host, a) in s.sh.asked && !from.FromContext?)
      && (a.Cancelled? ==>
            && !from.FromCache? && !from.FromUpstream?
            && if from.FromLeader? then from.call in s.sh.calls && s.sh.calls[from.call].leader in s.sh.cancelled
               else t in s.sh.cancelled)
      && (from.FromLeader? ==> from.call in s.sh.calls && s.sh.calls[from.call].host == host
                               && s.sh.calls[from.call].result == Some(a))
  {
    Reached(ls);
    assert ThreadOk(Exec(Init(), ls).sh, t, Exec(Init(), ls).threads[t]);
  }

  /** A hit serves a genuine answer, asked for within its lifetime (60 seconds for an address, 5
      for an error) from when it was stored, and stored since the last flush; what is stored
      never exceeds MAX_ENTRIES. */
  lemma HitsAreFresh(ls: seq<Label>, t: Tid)
    requires Executable(Init(), ls) && Enabled(Exec(Init(), ls), Go(t, Plain))
    requires Exec(Init(), ls).threads[t].Timed? && Apply(Exec(Init(), ls), Go(t, Plain)).threads[t].Hit?
    ensures var s := Exec(Init(), ls);
      var Timed(host, now) := s.threads[t];
      && host in s.sh.entries
      && var e := s.sh.entries[host];
         && Apply(s, Go(t, Plain)).threads[t].answer == e.answer && (host, e.answer) in s.sh.asked
         && now < e.storedAt + (if e.answer.Found? then 60 else 5)
         && e.epoch == s.sh.flushes
         && |s.sh.entries| <= MAX_ENTRIES
  {
    Reached(ls);
  }

  /** Whatever the run, no entry of the cache is a cancellation, and none is an error that its leader
      came by when its context was over: such an error says nothing about the name. */
  lemma CancelledErrorsNotStored(ls: seq<Label>, h: Host)
    requires Executable(Init(), ls)
    ensures var entries := Exec(Init(), ls).sh.entries;
      h in entries ==> !entries[h].answer.Cancelled? && (entries[h].gaveUp ==> entries[h].answer.Found?)
  {
    Reached(ls);
  }

  // --- What is stored is served ---------------------------------------------------------

  /** Nobody flushes the cache or stores into it. */
  ghost predicate LeavesCache(s: State, ls: seq<Label>)
    requires Executable(s, ls)
    decreases |ls|
  {
    ls == [] || (!ls[0].Flush? && !(ls[0].Go? && s.threads[ls[0].t].Storing?) && LeavesCache(Apply(s, ls[0]), ls[1..]))
  }

  lemma EntriesUntouched(sh: Shared, t: Tid, pc: Pc, c: Choice)
    requires CanGo(sh, t, pc, c) && !pc.Storing?
    ensures React(sh, t, pc, c).0.entries == sh.entries
  {
  }

  lemma {:induction false} CacheStays(s: State, ls: seq<Label>)
    requires Executable(s, ls) && LeavesCache(s, ls)
    ensures Exec(s, ls).sh.entries == s.sh.entries
    decreases |ls|
  {
    if ls != [] {
      if ls[0].Go? {
        EntriesUntouched(s.sh, ls[0].t, s.threads[ls[0].t], ls[0].c);
      }
      CacheStays(Apply(s, ls[0]), ls[1..]);
    }
  }

  /** An answer is served from the cache once its leader has stored it: as long as nobody flushes or stores
      in between, a call for the same host that begins within the answer's lifetime (60 seconds for
      addresses, 5 for an error) is a hit with that answer, and a later one is not. Every answer is
      stored, but for an error whose leader's context is over. */
  lemma StoredAnswersServed(ls: seq<Label>, t: Tid, more: seq<Label>, u: Tid)
    requires Executable(Init(), ls) && t in Exec(Init(), ls).threads && Exec(Init(), ls).threads[t].Storing?
    requires var s := Exec(Init(), ls);
      && (s.threads[t].answer.Found? || t !in s.sh.cancelled)
      && Executable(Apply(s, Go(t, Plain)), more) && LeavesCache(Apply(s, Go(t, Plain)), more)
    requires var s' := Exec(Apply(Exec(Init(), ls), Go(t, Plain)), more);
      u in s'.threads && s'.threads[u].Timed? && s'.threads[u].host == Exec(Init(), ls).threads[t].host
    ensures var s := Exec(Init(), ls);
      var s' := Exec(Apply(s, Go(t, Plain)), more);
      var Timed(host, began) := s'.threads[u];
      var a := s.threads[t].answer;
      if began < s.sh.now + (if a.Found? then 60 else 5)
      then Enabled(s', Go(u, Plain)) && Apply(s', Go(u, Plain)).threads[u] == Hit(host, a)
      else !IsFresh(s'.sh.entries, host, began)
  {
    var s := Exec(Init(), ls);
    Reached(ls);
    StoredBounds(s.sh.entries, s.threads[t].host, s.threads[t].answer, t in s.sh.cancelled, s.threads[t].now, s.sh.now, s.sh.flushes);
    CacheStays(Apply(s, Go(t, Plain)), more);
  }

  // --- Where the code falls short -------------------------------------------------------

  ghost predicate Reaches(s0: State, ls: seq<Label>, s: State) {
    Executable(s0, ls) && Exec(s0, ls) == s
  }

  lemma {:induction false} Take(s0: State, ls: seq<Label>, s: State, l: Label) returns (longer: seq<Label>, next: State)
    requires Reaches(s0, ls, s) && Enabled(s, l)
    ensures Reaches(s0, longer, next) && next == Apply(s, l)
    decreases |ls|
  {
    longer, next := ls + [l], Apply(s, l);
    if ls == [] {
      assert longer == [l] && longer[1..] == [];
    } else {
      var rest, last := Take(Apply(s0, ls[0]), ls[1..], s, l);
      longer := [ls[0]] + rest;
      assert longer[1..] == rest;
    }
  }

  /** Thread 0 leads a query for host 7 and its context ends in the queue; thread 1 has joined it. */
  lemma LeaderGivesUp(s0: State) returns (ls: seq<Label>, s: State)
    requires s0 == Init()
    ensures Reaches(s0, ls, s)
    ensures s.threads == map[0 := Queueing(7, 0, 0), 1 := Joined(7, 0)]
    ensures s.sh.calls == map[0 := Call(7, None, false, 0)] && s.sh.cancelled == {0} && s.sh.asked == {} && s.sh.sem == {}
  {
    ls, s := Take(s0, [], s0, Spawn(0, 7));
    ls, s := Take(s0, ls, s, Go(0, Plain));
    ls, s := Take(s0, ls, s, Go(0, NewCall(0)));
    ls, s := Take(s0, ls, s, Spawn(1, 7));
    ls, s := Take(s0, ls, s, Go(1, Plain));
    ls, s := Take(s0, ls, s, Go(1, Plain));
    ls, s := Take(s0, ls, s, Cancel(0));
  }

  /** A caller whose own context is alive can get another caller's cancellation: it joined a query
      whose leader gave up while queueing, and nobody asked upstream. */
  lemma JoinerInheritsCancellation() returns (ls: seq<Label>)
    ensures Executable(Init(), ls)
    ensures var s := Exec(Init(), ls);
      1 in s.threads && s.threads[1] == Returned(7, Cancelled, FromLeader(0)) && 1 !in s.sh.cancelled && s.sh.asked == {}
  {
    var s0 := Init();
    var s;
    ls, s := LeaderGivesUp(s0);
    ls, s := Take(s0, ls, s, Go(0, OnContext));
    ls, s := Take(s0, ls, s, Go(0, Plain));
    ls, s := Take(s0, ls, s, Go(0, Plain));
    ls, s := Take(s0, ls, s, Go(1, OnReady));
  }

  /** So can the joiner of a leader that has its token and whose context ends while it is asking. */
  lemma JoinerInheritsFromAsker() returns (ls: seq<Label>)
    ensures Executable(Init(), ls)
    ensures var s := Exec(Init(), ls);
      1 in s.threads && s.threads[1] == Returned(7, Cancelled, FromLeader(0)) && 1 !in s.sh.cancelled && s.sh.asked == {}
  {
    var s0 := Init();
    var s;
    ls, s := LeaderGivesUp(s0);
    ls, s := Take(s0, ls, s, Go(0, OnReady));
    ls, s := Take(s0, ls, s, Go(0, Reply(Cancelled)));
    ls, s := Take(s0, ls, s, Go(0, Plain));
    ls, s := Take(s0, ls, s, Go(0, Plain));
    ls, s := Take(s0, ls, s, Go(0, Plain));
    ls, s := Take(s0, ls, s, Go(1, OnReady));
  }

  // --- ... and exactly when ---------------------------------------------------------------

  predicate AtWorkOn(pc: Pc, k: CallId) {
    (Leads(pc) || pc.Closing?) && pc.call == k
  }

  /** Every call that is not done has its leader at work on it. */
  ghost predicate CallsStaffed(s: State) {
    forall k :: k in s.sh.calls && !s.sh.calls[k].done ==>
      s.sh.calls[k].leader in s.threads && AtWorkOn(s.threads[s.sh.calls[k].leader], k)
  }

  /** The step of a thread at work on a call keeps it at work on it, or finishes the call. */
  lemma WorkStep(sh: Shared, t: Tid, pc: Pc, c: Choice, k: CallId)
    requires CanGo(sh, t, pc, c) && ThreadOk(sh, t, pc)
    ensures var (sh', pc') := React(sh, t, pc, c);
      && (k in sh'.calls && k !in sh.calls ==> AtWorkOn(pc', k) && sh'.calls[k].leader == t)
      && (k in sh.calls && k in sh'.calls && AtWorkOn(pc, k) ==> AtWorkOn(pc', k) || sh'.calls[k].done)
      && (k in sh.calls ==> k in sh'.calls && sh'.calls[k].leader == sh.calls[k].leader && (sh.calls[k].done ==> sh'.calls[k].done))
  {
  }

  lemma CallsStaffedStep(s: State, l: Label)
    requires Inv(s) && CallsStaffed(s) && Enabled(s, l)
    ensures CallsStaffed(Apply(s, l))
  {
    if l.Go? {
      var s' := Apply(s, l);
      assert ThreadOk(s.sh, l.t, s.threads[l.t]);
      forall k | k in s'.sh.calls && !s'.sh.calls[k].done
        ensures s'.sh.calls[k].leader in s'.threads && AtWorkOn(s'.threads[s'.sh.calls[k].leader], k)
      {
        WorkStep(s.sh, l.t, s.threads[l.t], l.c, k);
      }
    }
  }

  lemma {:induction false} CallsStaffedRun(s: State, ls: seq<Label>)
    requires Inv(s) && CallsStaffed(s) && Executable(s, ls)
    ensures CallsStaffed(Exec(s, ls))
    decreases |ls|
  {
    if ls != [] {
      InvStep(s, ls[0]);
      CallsStaffedStep(s, ls[0]);
      CallsStaffedRun(Apply(s, ls[0]), ls[1..]);
    }
  }

  /** A leader that can still end with its context's error: it waits for a token, or for upstream, or has
      given up there. */
  predicate MayPoison(pc: Pc) {
    pc.Queueing? || pc.Asking? || (pc.Releasing? && pc.answer.Cancelled?)
  }

  /** The leader of the call has given up, or still can. */
  ghost predicate Poisonable(s: State, k: CallId)
    requires k in s.sh.calls
  {
    var c := s.sh.calls[k];
    c.result == Some(Cancelled) || (c.result.None? && c.leader in s.threads && MayPoison(s.threads[c.leader]))
  }

  /** A joiner that got its leader's cancellation. */
  predicate Inherits(pc: Pc, k: CallId) {
    pc.Returned? && pc.answer.Cancelled? && pc.from == FromLeader(k)
  }

  ghost predicate CanInherit(s: State, t: Tid, k: CallId) {
    exists more :: Executable(s, more) && t in Exec(s, more).threads && Inherits(Exec(s, more).threads[t], k)
  }

  lemma OnlyLeaderAnswers(sh: Shared, t: Tid, pc: Pc, c: Choice, k: CallId)
    requires CanGo(sh, t, pc, c) && ThreadOk(sh, t, pc) && k in sh.calls && sh.calls[k].leader != t
    ensures React(sh, t, pc, c).0.calls[k] == sh.calls[k]
  {
  }

  lemma AnswerSettles(sh: Shared, t: Tid, pc: Pc, c: Choice, k: CallId)
    requires CanGo(sh, t, pc, c) && ThreadOk(sh, t, pc) && k in sh.calls && AtWorkOn(pc, k) && sh.calls[k].result.None?
    requires !MayPoison(pc)
    ensures var (sh', pc') := React(sh, t, pc, c);
      k in sh'.calls && sh'.calls[k].result != Some(Cancelled) && !MayPoison(pc')
  {
  }

  lemma PoisonStep(s: State, l: Label, k: CallId)
    requires Inv(s) && CallsStaffed(s) && Enabled(s, l) && k in s.sh.calls && !Poisonable(s, k)
    ensures k in Apply(s, l).sh.calls && !Poisonable(Apply(s, l), k)
  {
    if l.Go? {
      var pc := s.threads[l.t];
      assert ThreadOk(s.sh, l.t, pc);
      CallEffect(s.sh, l.t, pc, l.c, k);
      WorkStep(s.sh, l.t, pc, l.c, k);
      if s.sh.calls[k].leader != l.t {
        OnlyLeaderAnswers(s.sh, l.t, pc, l.c, k);
      } else if s.sh.calls[k].result.None? {
        AnswerSettles(s.sh, l.t, pc, l.c, k);
      }
    }
  }

  lemma {:induction false} NeverPoisoned(s: State, more: seq<Label>, t: Tid, k: CallId)
    requires Inv(s) && CallsStaffed(s) && Executable(s, more) && k in s.sh.calls && !Poisonable(s, k)
    requires t in s.threads ==> !Inherits(s.threads[t], k)
    ensures t in Exec(s, more).threads ==> !Inherits(Exec(s, more).threads[t], k)
    decreases |more|
  {
    if more != [] {
      var l := more[0];
      InvStep(s, l);
      CallsStaffedStep(s, l);
      PoisonStep(s, l, k);
      NeverPoisoned(Apply(s, l), more[1..], t, k);
    }
  }

  /** From a cancelled result to the joiner that reads it. */
  lemma PoisonSpreads(s0: State, ls0: seq<Label>, s: State, t: Tid, k: CallId) returns (ls: seq<Label>)
    requires Reaches(s0, ls0, s) && CallsStaffed(s) && Inv(s)
    requires t in s.threads && s.threads[t].Joined? && s.threads[t].call == k && k in s.sh.calls
    requires s.sh.calls[k].result == Some(Cancelled)
    ensures Executable(s0, ls) && t in Exec(s0, ls).threads && Inherits(Exec(s0, ls).threads[t], k)
    decreases if s.sh.calls[k].done then 0 else if s.threads[s.sh.calls[k].leader].Storing? then 2 else 1
  {
    var leader := s.sh.calls[k].leader;
    var next;
    if s.sh.calls[k].done {
      ls, next := Take(s0, ls0, s, Go(t, OnReady));
    } else {
      assert ThreadOk(s.sh, leader, s.threads[leader]);
      InvStep(s, Go(leader, Plain));
      CallsStaffedStep(s, Go(leader, Plain));
      ls, next := Take(s0, ls0, s, Go(leader, Plain));
      ls := PoisonSpreads(s0, ls, next, t, k);
    }
  }

  /** One step of the leader on its way to giving up, once its context is over. */
  function GivingUp(pc: Pc): Choice {
    if pc.Queueing? then OnContext else if pc.Asking? then Reply(Cancelled) else Plain
  }

  lemma GiveUpStep(sh: Shared, t: Tid, pc: Pc, k: CallId)
    requires ThreadOk(sh, t, pc) && t in sh.cancelled && AtWorkOn(pc, k) && MayPoison(pc) && k in sh.calls
    ensures CanGo(sh, t, pc, GivingUp(pc))
    ensures var (sh', pc') := React(sh, t, pc, GivingUp(pc));
      && k in sh'.calls && sh'.calls[k].leader == sh.calls[k].leader && t in sh'.cancelled
      && (sh'.calls[k].result == Some(Cancelled) || (pc.Asking? && pc'.Releasing? && pc'.answer.Cancelled? && sh'.calls == sh.calls))
  {
  }

  lemma LeaderGivesWay(s0: State, ls0: seq<Label>, s: State, t: Tid, k: CallId) returns (ls: seq<Label>)
    requires Reaches(s0, ls0, s) && Inv(s) && CallsStaffed(s)
    requires t in s.threads && s.threads[t].Joined? && s.threads[t].call == k
    requires k in s.sh.calls && Poisonable(s, k) && s.sh.calls[k].leader in s.sh.cancelled
    ensures Executable(s0, ls) && t in Exec(s0, ls).threads && Inherits(Exec(s0, ls).threads[t], k)
    decreases if s.sh.calls[k].result.Some? then 0 else if s.threads[s.sh.calls[k].leader].Asking? then 2 else 1
  {
    var leader := s.sh.calls[k].leader;
    if s.sh.calls[k].result.Some? {
      ls := PoisonSpreads(s0, ls0, s, t, k);
    } else {
      NotDoneYet(s, k);
      var l := Go(leader, GivingUp(s.threads[leader]));
      GiveUpStep(s.sh, leader, s.threads[leader], k);
      InvStep(s, l);
      CallsStaffedStep(s, l);
      var next;
      ls, next := Take(s0, ls0, s, l);
      ls := LeaderGivesWay(s0, ls, next, t, k);
    }
  }

  lemma NotDoneYet(s: State, k: CallId)
    requires Inv(s) && CallsStaffed(s) && k in s.sh.calls && s.sh.calls[k].result.None?
    ensures s.sh.calls[k].leader in s.threads
    ensures var pc := s.threads[s.sh.calls[k].leader]; AtWorkOn(pc, k) && ThreadOk(s.sh, s.sh.calls[k].leader, pc)
  {
    assert ResultsOk(s.sh);
  }

  lemma LeaderPoisons(s: State, t: Tid, k: CallId) returns (ls: seq<Label>)
    requires Inv(s) && CallsStaffed(s) && t in s.threads && s.threads[t].Joined? && s.threads[t].call == k
    requires k in s.sh.calls && Poisonable(s, k)
    ensures Executable(s, ls) && t in Exec(s, ls).threads && Inherits(Exec(s, ls).threads[t], k)
  {
    var l := Cancel(s.sh.calls[k].leader);
    InvStep(s, l);
    CallsStaffedStep(s, l);
    var next;
    ls, next := Take(s, [], s, l);
    ls := LeaderGivesWay(s, ls, next, t, k);
  }

  /** When a joiner can get its leader's cancellation: exactly as long as the leader is still waiting
      for a token or for upstream, or has given up there. Once upstream has answered it, nothing that
      happens to the leader reaches the joiners as a cancellation. */
  lemma CancellationInheritedExactly(ls: seq<Label>, t: Tid)
    requires Executable(Init(), ls) && t in Exec(Init(), ls).threads && Exec(Init(), ls).threads[t].Joined?
    ensures var s := Exec(Init(), ls);
      var k := s.threads[t].call;
      k in s.sh.calls && (CanInherit(s, t, k) <==> Poisonable(s, k))
  {
    Reached(ls);
    CallsStaffedRun(Init(), ls);
    var s := Exec(Init(), ls);
    assert ThreadOk(s.sh, t, s.threads[t]);
    var k := s.threads[t].call;
    if Poisonable(s, k) {
      var more := LeaderPoisons(s, t, k);
    } else {
      forall more | Executable(s, more) && t in Exec(s, more).threads
        ensures !Inherits(Exec(s, more).threads[t], k)
      {
        NeverPoisoned(s, more, t, k);
      }
    }
  }
}
