/** Reloads that keep the tunnel up and reconnects of internal/awg/tunnel.go, against each other: any
    number of calls, one step per critical section of `mu` and per call of `IpcSet`. */
module ReloadRace {
  import opened Basics
  import opened Reload

  type Tid = nat

  datatype Pc =
    // Reload, past its dry run
    | Reading(next: Config) | Applying(next: Config, prev: Config) | Recording(next: Config) | RollingBack(prev: Config)
    // performReconnect
    | Looking | Reapplying(seen: Config)
    | Returned

  /** `last`, the configuration whose document `IpcSet` was given last, and `whole`, whether it went
      through, are histories. */
  datatype State = State(cfg: Config, dev: Settings, threads: map<Tid, Pc>, last: Config, whole: bool)

  /** `GiveUp` is a document that cannot be rendered, or need not be; `Break` an `IpcSet` that fails after
      some lines. */
  datatype Choice = Plain | GiveUp | Break(at: nat)

  datatype Label = BeginReload(t: Tid, next: Config) | BeginReconnect(t: Tid) | Go(t: Tid, c: Choice)

  /** A document that mentions no setting twice. */
  predicate OnceEach(doc: seq<Setting>) {
    forall i, j :: 0 <= i < j < |doc| ==> doc[i].0 != doc[j].0
  }

  /** Whether a change from one to the other keeps the stack, and so the device. */
  predicate Alike(c: Config, d: Config) {
    c.stack == d.stack && DocKeys(c.doc) == DocKeys(d.doc)
  }

  function Init(c: Config): State {
    State(c, Image(c.doc), map[], c, true)
  }

  // --- Steps ----------------------------------------------------------------------------

  predicate CanGo(pc: Pc, c: Choice) {
    match pc
    case Reading(_) => c.Plain? || c.GiveUp?
    case Applying(next, _) => c.Plain? || (c.Break? && c.at < |next.doc|)
    case Recording(_) => c.Plain?
    case RollingBack(prev) => c.Plain? || (c.Break? && c.at < |prev.doc|)
    case Looking => c.Plain? || c.GiveUp?
    case Reapplying(seen) => c.Plain? || c.GiveUp? || (c.Break? && c.at < |seen.doc|)
    case Returned => false
  }

  function Given(d: Config, c: Choice): seq<Setting>
    requires c.Break? ==> c.at < |d.doc|
  {
    if c.Break? then d.doc[..c.at] else d.doc
  }

  /** `IpcSet`. */
  function Set(s: State, d: Config, c: Choice): State
    requires c.Break? ==> c.at < |d.doc|
  {
    s.(dev := ApplyDoc(s.dev, Given(d, c)), last := d, whole := !c.Break?)
  }

  function React(s: State, pc: Pc, c: Choice): (State, Pc)
    requires CanGo(pc, c)
  {
    match pc
    case Reading(next) => (s, if c.Plain? then Applying(next, s.cfg) else Returned)
    case Applying(next, prev) => (Set(s, next, c), if c.Plain? then Recording(next) else RollingBack(prev))
    case Recording(next) => (s.(cfg := next), Returned)
    case RollingBack(prev) => (Set(s, prev, c), Returned)
    case Looking => (s, if c.Plain? then Reapplying(s.cfg) else Returned)
    case Reapplying(seen) => (if c.GiveUp? then s else Set(s, seen, c), Returned)
  }

  predicate Enabled(s: State, l: Label) {
    match l
    case BeginReload(t, next) => t !in s.threads && OnceEach(next.doc) && Alike(next, s.cfg)
    case BeginReconnect(t) => t !in s.threads
    case Go(t, c) => t in s.threads && CanGo(s.threads[t], c)
  }

  function Apply(s: State, l: Label): State
    requires Enabled(s, l)
  {
    match l
    case BeginReload(t, next) => s.(threads := s.threads[t := Reading(next)])
    case BeginReconnect(t) => s.(threads := s.threads[t := Looking])
    case Go(t, c) =>
      var (s', pc) := React(s, s.threads[t], c);
      s'.(threads := s.threads[t := pc])
  }

  predicate Executable(s: State, ls: seq<Label>)
    decreases |ls|
  {
    ls == [] || (Enabled(s, ls[0]) && Executable(Apply(s, ls[0]), ls[1..]))
  }

  function Exec(s: State, ls: seq<Label>): State
    requires Executable(s, ls)
    decreases |ls|
  {
    if ls == [] then s else Exec(Apply(s, ls[0]), ls[1..])
  }

  // --- Documents ------------------------------------------------------------------------

  lemma {:induction false} AgreeingDoc(dev: Settings, doc: seq<Setting>)
    requires forall i :: 0 <= i < |doc| ==> doc[i].0 in dev && dev[doc[i].0] == doc[i].1
    ensures ApplyDoc(dev, doc) == dev
    decreases |doc|
  {
    if doc != [] {
      assert dev[doc[0].0 := doc[0].1] == dev;
      AgreeingDoc(dev, doc[1..]);
    }
  }

  lemma {:induction false} ImageHolds(doc: seq<Setting>, i: nat)
    requires OnceEach(doc) && i < |doc|
    ensures doc[i].0 in Image(doc) && Image(doc)[doc[i].0] == doc[i].1
    decreases |doc|
  {
    var one: Settings := map[][doc[0].0 := doc[0].1];
    ApplyDocOver(one, doc[1..]);
    if i > 0 {
      ImageHolds(doc[1..], i - 1);
    } else {
      assert doc[0].0 !in DocKeys(doc[1..]);
    }
  }

  /** Applying a document, or the beginning of one, to a device that holds it changes nothing. */
  lemma SameAgain(dev: Settings, doc: seq<Setting>, n: nat)
    requires OnceEach(doc) && dev == Image(doc) && n <= |doc|
    ensures ApplyDoc(dev, doc[..n]) == dev
  {
    forall i | 0 <= i < n
      ensures doc[i].0 in dev && dev[doc[i].0] == doc[i].1
    {
      ImageHolds(doc, i);
    }
    AgreeingDoc(dev, doc[..n]);
  }

  /** A whole document determines the device; the beginning of one leaves its settings. */
  lemma SetDetermines(dev: Settings, doc: seq<Setting>, n: nat)
    requires dev.Keys == DocKeys(doc) && n <= |doc|
    ensures ApplyDoc(dev, doc) == Image(doc) && ApplyDoc(dev, doc[..n]).Keys == dev.Keys == Image(doc).Keys
  {
    assert doc[..0] == [];
    WholeDocumentDetermines(dev, doc, 0, doc);
    ApplyDocOver(map[], doc);
    ApplyDocOver(dev, doc[..n]);
    assert DocKeys(doc[..n]) <= DocKeys(doc);
  }

  // --- Invariant ------------------------------------------------------------------------

  /** A configuration of the device with these settings. */
  predicate Usual(keys: set<nat>, d: Config) {
    OnceEach(d.doc) && DocKeys(d.doc) == keys
  }

  predicate PcOk(keys: set<nat>, pc: Pc) {
    match pc
    case Reading(next) => Usual(keys, next)
    case Applying(next, prev) => Usual(keys, next) && Usual(keys, prev)
    case Recording(next) => Usual(keys, next)
    case RollingBack(prev) => Usual(keys, prev)
    case Looking => true
    case Reapplying(seen) => Usual(keys, seen)
    case Returned => true
  }

  predicate SettingsOk(s: State) {
    Usual(s.dev.Keys, s.cfg) && Usual(s.dev.Keys, s.last) && (s.whole ==> s.dev == Image(s.last.doc))
  }

  ghost predicate Inv(s: State) {
    SettingsOk(s) && forall t :: t in s.threads ==> PcOk(s.dev.Keys, s.threads[t])
  }

  lemma SetStep(s: State, d: Config, c: Choice)
    requires SettingsOk(s) && Usual(s.dev.Keys, d) && (c.Break? ==> c.at < |d.doc|)
    ensures SettingsOk(Set(s, d, c)) && Set(s, d, c).dev.Keys == s.dev.Keys
  {
    SetDetermines(s.dev, d.doc, if c.Break? then c.at else 0);
  }

  lemma ReactStep(s: State, pc: Pc, c: Choice)
    requires SettingsOk(s) && PcOk(s.dev.Keys, pc) && CanGo(pc, c)
    ensures var (s', pc') := React(s, pc, c);
      SettingsOk(s') && s'.dev.Keys == s.dev.Keys && PcOk(s.dev.Keys, pc') && s'.threads == s.threads
  {
    match pc
    case Applying(next, _) => SetStep(s, next, c);
    case RollingBack(prev) => SetStep(s, prev, c);
    case Reapplying(seen) => if !c.GiveUp? { SetStep(s, seen, c); }
    case _ =>
  }

  lemma InvStep(s: State, l: Label)
    requires Inv(s) && Enabled(s, l)
    ensures Inv(Apply(s, l))
  {
    if l.Go? {
      ReactStep(s, s.threads[l.t], l.c);
    }
  }

  lemma {:induction false} InvRun(s: State, ls: seq<Label>)
    requires Inv(s) && Executable(s, ls)
    ensures Inv(Exec(s, ls))
    decreases |ls|
  {
    if ls != [] {
      InvStep(s, ls[0]);
      InvRun(Apply(s, ls[0]), ls[1..]);
    }
  }

  lemma Reached(c: Config, ls: seq<Label>)
    requires OnceEach(c.doc) && Executable(Init(c), ls)
    ensures Inv(Exec(Init(c), ls))
  {
    ApplyDocOver(map[], c.doc);
    InvRun(Init(c), ls);
  }

  // --- What every run keeps -------------------------------------------------------------

  /** However reloads and reconnects interleave, the device holds the document applied last, if that one
      went through. So it holds that of the configuration on record exactly if the two say the same. */
  lemma DeviceHoldsLast(c: Config, ls: seq<Label>)
    requires OnceEach(c.doc) && Executable(Init(c), ls) && Exec(Init(c), ls).whole
    ensures var s := Exec(Init(c), ls);
      s.dev == Image(s.last.doc) && (s.dev == Image(s.cfg.doc) <==> Image(s.last.doc) == Image(s.cfg.doc))
  {
    Reached(c, ls);
  }

  /** No reload is under way. */
  predicate Idle(pc: Pc) {
    pc.Looking? || pc.Reapplying? || pc.Returned?
  }

  ghost predicate ReloadsDone(s: State) {
    forall t :: t in s.threads ==> Idle(s.threads[t])
  }

  predicate NoNewReload(ls: seq<Label>) {
    forall l :: l in ls ==> !l.BeginReload?
  }

  predicate Agrees(s: State) {
    s.dev == Image(s.cfg.doc)
  }

  /** A reconnect that is about to apply what is not on record any more. */
  ghost predicate StaleReconnect(s: State) {
    exists t :: t in s.threads && s.threads[t].Reapplying? && Image(s.threads[t].seen.doc) != Image(s.cfg.doc)
  }

  /** Some continuation without another reload leaves the device with what is not on record. */
  ghost predicate CanDisagree(s: State) {
    exists more :: Executable(s, more) && NoNewReload(more) && !Agrees(Exec(s, more))
  }

  lemma AgreesStep(s: State, l: Label)
    requires Inv(s) && ReloadsDone(s) && Agrees(s) && !StaleReconnect(s) && Enabled(s, l) && !l.BeginReload?
    ensures ReloadsDone(Apply(s, l)) && Agrees(Apply(s, l)) && !StaleReconnect(Apply(s, l))
  {
    var s' := Apply(s, l);
    if l.Go? {
      var pc := s.threads[l.t];
      assert Idle(pc);
      if pc.Reapplying? && !l.c.GiveUp? {
        assert PcOk(s.dev.Keys, pc);
        var n := if l.c.Break? then l.c.at else |pc.seen.doc|;
        assert Given(pc.seen, l.c) == pc.seen.doc[..n];
        SameAgain(s.dev, pc.seen.doc, n);
      }
    }
    assert s'.cfg == s.cfg;
    forall u | u in s'.threads
      ensures Idle(s'.threads[u])
      ensures s'.threads[u].Reapplying? ==> Image(s'.threads[u].seen.doc) == Image(s'.cfg.doc)
    {
      assert u in s.threads ==> Idle(s.threads[u]);
    }
  }

  lemma {:induction false} AgreesRun(s: State, more: seq<Label>)
    requires Inv(s) && ReloadsDone(s) && Agrees(s) && !StaleReconnect(s) && Executable(s, more) && NoNewReload(more)
    ensures Agrees(Exec(s, more))
    decreases |more|
  {
    if more != [] {
      AgreesStep(s, more[0]);
      InvStep(s, more[0]);
      AgreesRun(Apply(s, more[0]), more[1..]);
    }
  }

  lemma StaleDisagrees(s: State, t: Tid)
    requires Inv(s) && t in s.threads && s.threads[t].Reapplying? && Image(s.threads[t].seen.doc) != Image(s.cfg.doc)
    ensures CanDisagree(s)
  {
    var seen := s.threads[t].seen;
    assert PcOk(s.dev.Keys, s.threads[t]);
    SetDetermines(s.dev, seen.doc, 0);
    var l := Go(t, Plain);
    var more := [l];
    assert more[1..] == [];
    var next := Apply(s, l);
    assert next.dev == Image(seen.doc) && next.cfg == s.cfg;
    assert Executable(next, []) && Exec(next, []) == next;
    assert Executable(s, more) && Exec(s, more) == next;
    assert NoNewReload(more);
  }

  /** Once all reloads have returned, the device can come to hold what is not on record exactly if it
      does so already, or a reconnect is about to apply a configuration that was replaced since it
      looked. */
  lemma DisagreesExactly(c: Config, ls: seq<Label>)
    requires OnceEach(c.doc) && Executable(Init(c), ls) && ReloadsDone(Exec(Init(c), ls))
    ensures var s := Exec(Init(c), ls); CanDisagree(s) <==> !Agrees(s) || StaleReconnect(s)
  {
    Reached(c, ls);
    var s := Exec(Init(c), ls);
    if !Agrees(s) {
      assert Executable(s, []) && NoNewReload([]) && !Agrees(Exec(s, []));
    } else if StaleReconnect(s) {
      var t :| t in s.threads && s.threads[t].Reapplying? && Image(s.threads[t].seen.doc) != Image(s.cfg.doc);
      StaleDisagrees(s, t);
    } else {
      forall more | Executable(s, more) && NoNewReload(more)
        ensures Agrees(Exec(s, more))
      {
        AgreesRun(s, more);
      }
    }
  }

  // --- Where the code falls short -------------------------------------------------------

  ghost predicate Reaches(s0: State, ls: seq<Label>, s: State) {
    Executable(s0, ls) && Exec(s0, ls) == s
  }

  lemma {:induction false} Take(s0: State, ls: seq<Label>, s: State, l: Label) returns (longer: seq<Label>, next: State)
    requires Reaches(s0, ls, s) && Enabled(s, l)
    ensures Reaches(s0, longer, next) && next == Apply(s, l)
    decreases |ls|
  {
    longer, next := ls + [l], Apply(s, l);
    if ls == [] {
      assert longer == [l] && longer[1..] == [];
    } else {
      var rest, last := Take(Apply(s0, ls[0]), ls[1..], s, l);
      longer := [ls[0]] + rest;
      assert longer[1..] == rest;
    }
  }

  /** A whole reload by thread `t`, undisturbed. */
  lemma WholeReload(s0: State, ls0: seq<Label>, s: State, t: Tid, next: Config) returns (ls: seq<Label>)
    requires Reaches(s0, ls0, s) && t !in s.threads && OnceEach(next.doc) && Alike(next, s.cfg) && s.dev.Keys == DocKeys(next.doc)
    ensures Reaches(s0, ls, State(next, Image(next.doc), s.threads[t := Returned], next, true))
  {
    var s1;
    SetDetermines(s.dev, next.doc, 0);
    ls, s1 := Take(s0, ls0, s, BeginReload(t, next));
    ls, s1 := Take(s0, ls, s1, Go(t, Plain));
    ls, s1 := Take(s0, ls, s1, Go(t, Plain));
    ls, s1 := Take(s0, ls, s1, Go(t, Plain));
    assert s1.threads == s.threads[t := Returned];
  }

  /** What a call of `IpcSet` that goes through leaves. */
  lemma ReapplyEnds(s0: State, ls0: seq<Label>, s: State, t: Tid, seen: Config) returns (ls: seq<Label>)
    requires Reaches(s0, ls0, s) && t in s.threads && s.threads[t] == Reapplying(seen) && s.dev.Keys == DocKeys(seen.doc)
    ensures Reaches(s0, ls, State(s.cfg, Image(seen.doc), s.threads[t := Returned], seen, true))
  {
    var s1;
    SetDetermines(s.dev, seen.doc, 0);
    ls, s1 := Take(s0, ls0, s, Go(t, Plain));
  }

  /** A reconnect looks at the configuration, a whole reload replaces it, and then the reconnect applies
      the old document: everybody has returned without an error, and the device is not configured as
      the tunnel says. */
  lemma OldDocumentReturns(prev: Config, next: Config) returns (ls: seq<Label>)
    requires OnceEach(prev.doc) && OnceEach(next.doc) && Alike(next, prev) && Image(next.doc) != Image(prev.doc)
    ensures Executable(Init(prev), ls)
    ensures var s := Exec(Init(prev), ls);
      s.threads == map[0 := Returned, 1 := Returned] && s.cfg == next && s.whole && s.dev == Image(prev.doc) && !Agrees(s)
  {
    var s0 := Init(prev);
    var s;
    ApplyDocOver(map[], prev.doc);
    ApplyDocOver(map[], next.doc);
    ls, s := Take(s0, [], s0, BeginReconnect(0));
    ls, s := Take(s0, ls, s, Go(0, Plain));
    ls := WholeReload(s0, ls, s, 1, next);
    ls := ReapplyEnds(s0, ls, Exec(s0, ls), 0, prev);
  }

  /** A reload by thread `t` up to its record. */
  lemma ReloadToRecord(s0: State, next: Config, t: Tid) returns (ls: seq<Label>)
    requires s0 == Init(s0.cfg) && OnceEach(next.doc) && Alike(next, s0.cfg)
    ensures Reaches(s0, ls, State(s0.cfg, Image(next.doc), map[t := Recording(next)], next, true))
  {
    var s;
    ApplyDocOver(map[], s0.cfg.doc);
    SetDetermines(s0.dev, next.doc, 0);
    ls, s := Take(s0, [], s0, BeginReload(t, next));
    ls, s := Take(s0, ls, s, Go(t, Plain));
    ls, s := Take(s0, ls, s, Go(t, Plain));
  }

  lemma RecordEnds(s0: State, ls0: seq<Label>, s: State, t: Tid, next: Config) returns (ls: seq<Label>)
    requires Reaches(s0, ls0, s) && t in s.threads && s.threads[t] == Recording(next)
    ensures Reaches(s0, ls, s.(cfg := next, threads := s.threads[t := Returned]))
  {
    var s1;
    ls, s1 := Take(s0, ls0, s, Go(t, Plain));
  }

  /** Two reloads that cross do the same: the one whose document is applied last is recorded first. */
  lemma ReloadsCross(first: Config, a: Config, b: Config) returns (ls: seq<Label>)
    requires OnceEach(a.doc) && OnceEach(b.doc) && Alike(a, first) && Alike(b, first)
    requires Image(a.doc) != Image(b.doc)
    ensures Executable(Init(first), ls)
    ensures var s := Exec(Init(first), ls);
      s.threads == map[0 := Returned, 1 := Returned] && s.cfg == a && s.whole && s.dev == Image(b.doc) && !Agrees(s)
  {
    var s0 := Init(first);
    ls := ReloadToRecord(s0, a, 0);
    ApplyDocOver(map[], a.doc);
    ls := WholeReload(s0, ls, State(first, Image(a.doc), map[0 := Recording(a)], a, true), 1, b);
    var crossed: map<Tid, Pc> := map[0 := Recording(a), 1 := Returned];
    assert map[0 := Recording(a)][1 := Returned] == crossed;
    ls := RecordEnds(s0, ls, State(b, Image(b.doc), crossed, b, true), 0, a);
    assert crossed[0 := Returned] == map[0 := Returned, 1 := Returned];
  }
}
