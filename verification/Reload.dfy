/** Hot reload of internal/awg/tunnel.go as a transaction over the tunnel's fields. The device is
    a map of settings; a configuration document is the list of settings that the UAPI writer
    renders. Every outcome of foreign code is a parameter. */
module Reload {
  import opened Basics

  type Setting = (nat, nat)
  type Settings = map<nat, nat>

  datatype Stack = Stack(mtu: int, addresses: seq<nat>, dns: seq<nat>, localDns: seq<nat>)

  /** `doc` is the rendered UAPI document, `keys` the peer keys if they convert. */
  datatype Config = Config(doc: seq<Setting>, keys: Option<seq<nat>>, stack: Stack)

  datatype Status = Stopped | Connecting | Connected | Reconnecting | Broken

  datatype Error =
    | EmptyConfig | AlreadyRunning | Rejected | CannotRender | BuildFailed
    | Restored              // the change failed, the previous configuration is back
    | RollbackFailed        // ... and could not be put back on the device
    | RestartFailed         // neither configuration started

  /** How one build of a device ends, short of the peer keys: every earlier step succeeds or not. */
  datatype Outcomes = Outcomes(
    dryRun: bool,
    renderPrev: bool,
    renderNext: bool,
    setNext: Option<nat>,      // how many lines were applied before the failure, if it failed
    setPrev: Option<nat>,
    buildNext: bool,
    buildPrev: bool)

  // --- The device -----------------------------------------------------------------------

  /** `IpcSet` applies its lines in order. */
  function ApplyDoc(dev: Settings, doc: seq<Setting>): Settings
    decreases |doc|
  {
    if doc == [] then dev else ApplyDoc(dev[doc[0].0 := doc[0].1], doc[1..])
  }

  /** Whether applying `doc` fails, `at` being the number of lines that still went through. */
  predicate Fails(doc: seq<Setting>, at: Option<nat>) {
    at.Some? && at.value < |doc|
  }

  function DocKeys(doc: seq<Setting>): set<nat> {
    set s | s in doc :: s.0
  }

  /** What a fresh device holds once `doc` is applied. */
  function Image(doc: seq<Setting>): Settings {
    ApplyDoc(map[], doc)
  }

  lemma {:induction false} ApplyDocOver(dev: Settings, doc: seq<Setting>)
    ensures ApplyDoc(dev, doc) == dev + Image(doc)
    ensures Image(doc).Keys == DocKeys(doc)
    decreases |doc|
  {
    if doc != [] {
      var one: Settings := map[doc[0].0 := doc[0].1];
      ApplyDocOver(dev[doc[0].0 := doc[0].1], doc[1..]);
      ApplyDocOver(one, doc[1..]);
      assert dev[doc[0].0 := doc[0].1] == dev + one;
      assert dev + one + Image(doc[1..]) == dev + (one + Image(doc[1..]));
      assert map[][doc[0].0 := doc[0].1] == one;
      assert DocKeys(doc) == {doc[0].0} + DocKeys(doc[1..]);
    }
  }

  /** A document that mentions every setting determines the device, whatever was there: in
      particular after a failed document left a prefix of itself behind. */
  lemma WholeDocumentDetermines(dev: Settings, failed: seq<Setting>, n: nat, doc: seq<Setting>)
    requires n <= |failed| && dev.Keys + DocKeys(failed) <= DocKeys(doc)
    ensures ApplyDoc(ApplyDoc(dev, failed[..n]), doc) == Image(doc)
  {
    ApplyDocOver(dev, failed[..n]);
    ApplyDocOver(ApplyDoc(dev, failed[..n]), doc);
    assert DocKeys(failed[..n]) <= DocKeys(failed);
  }

  // --- The tunnel -----------------------------------------------------------------------

  /** `stackEqual`, with its loops. */
  method StackEqual(a: Option<Config>, b: Config) returns (same: bool)
    ensures same <==> a.Some? && a.value.stack == b.stack
  {
    if a.None? {
      return false;
    }
    var p, q := a.value.stack, b.stack;
    if p.mtu != q.mtu || |p.addresses| != |q.addresses| || |p.dns| != |q.dns| {
      return false;
    }
    for i := 0 to |p.addresses|
      invariant p.addresses[..i] == q.addresses[..i]
    {
      if p.addresses[i] != q.addresses[i] {
        return false;
      }
      assert p.addresses[..i + 1] == p.addresses[..i] + [p.addresses[i]];
    }
    for i := 0 to |p.dns|
      invariant p.dns[..i] == q.dns[..i]
    {
      if p.dns[i] != q.dns[i] {
        return false;
      }
      assert p.dns[..i + 1] == p.dns[..i] + [p.dns[i]];
    }
    assert p.addresses[..|p.addresses|] == p.addresses && q.addresses[..|p.addresses|] == q.addresses;
    assert p.dns[..|p.dns|] == p.dns && q.dns[..|p.dns|] == q.dns;
    return p.localDns == q.localDns;
  }

  class Tunnel {
    const all: set<nat>          // every setting a device has
    var cfg: Option<Config>
    var dev: Settings            // meaningful while running
    var peerKeys: seq<nat>
    var running: bool
    var status: Status

    constructor (all: set<nat>, cfg: Option<Config>)
      ensures this.all == all && this.cfg == cfg && !running && status == Stopped
    {
      this.all, this.cfg, dev, peerKeys, running, status := all, cfg, map[], [], false, Stopped;
    }

    /** A running tunnel's device and peer keys are those of its configuration. */
    ghost predicate Matches()
      reads this
    {
      running ==> cfg.Some? && dev == Image(cfg.value.doc) && Some(peerKeys) == cfg.value.keys
    }

    predicate Complete(c: Config) {
      DocKeys(c.doc) == all
    }

    /** `Start`, with `builds` telling whether the foreign steps of `buildDevice` succeed. */
    method Start(builds: bool) returns (err: Option<Error>)
      modifies this
      ensures cfg == old(cfg)
      ensures err.None? <==> !old(running) && cfg.Some? && builds && cfg.value.keys.Some?
      ensures err.None? ==> running && Matches() && status == Connecting
      ensures err == Some(AlreadyRunning) <==> old(running)
      ensures err == Some(EmptyConfig) <==> !old(running) && cfg.None?
      ensures err.Some? ==> running == old(running) && dev == old(dev) && peerKeys == old(peerKeys)
      ensures !old(running) && cfg.Some? && err.Some? ==> status == Broken
    {
      if running {
        return Some(AlreadyRunning);
      }
      if cfg.None? {
        return Some(EmptyConfig);
      }
      status := Connecting;
      if !builds || cfg.value.keys.None? {
        status := Broken;
        return Some(BuildFailed);
      }
      dev := ApplyDoc(map[], cfg.value.doc);
      peerKeys := cfg.value.keys.value;
      running := true;
      return None;
    }

    method Stop()
      modifies this
      ensures !running && cfg == old(cfg) && dev == old(dev) && peerKeys == old(peerKeys)
      ensures status == if old(running) then Stopped else old(status)
    {
      if running {
        running := false;
        status := Stopped;
      }
    }

    method IpcSet(doc: seq<Setting>, failsAt: Option<nat>) returns (ok: bool)
      modifies `dev
      ensures ok <==> !Fails(doc, failsAt)
      ensures dev == ApplyDoc(old(dev), if ok then doc else doc[..failsAt.value])
    {
      ok := !Fails(doc, failsAt);
      dev := ApplyDoc(dev, if ok then doc else doc[..failsAt.value]);
    }

    /** There is a configuration, and it passed the dry run. */
    predicate Tried(next: Option<Config>, o: Outcomes) {
      next.Some? && o.dryRun && next.value.keys.Some?
    }

    /** It keeps the stack. */
    predicate Keeps(prev: Option<Config>, c: Config) {
      prev.Some? && prev.value.stack == c.stack
    }

    predicate Rendered(o: Outcomes) {
      o.renderPrev && o.renderNext
    }

    /** A reload is a transaction. Every error leaves the previous configuration in place, success
        installs the new one, and either way a running tunnel's device and peer keys are those of
        its configuration, except when putting the previous document back failed as well: then,
        and only then, the error says so and the state is failed. A running tunnel goes down only
        if neither configuration could be started. It succeeds exactly if the dry run does and, on a
        running tunnel, either the stack stays, both documents render and the new one applies, or the
        stack changes and the new device can be built; and each error has its one cause. */
    method Reload(next: Option<Config>, o: Outcomes) returns (changed: bool, err: Option<Error>)
      requires Matches() && (running ==> Complete(cfg.value)) && (next.Some? ==> Complete(next.value))
      modifies this
      ensures err.Some? ==> cfg == old(cfg) && !changed
      ensures err.None? ==> cfg == next && next.Some? && changed && running == old(running)
      ensures err.None? <==>
                && Tried(next, o)
                && (old(running) ==>
                      if Keeps(old(cfg), next.value) then Rendered(o) && !Fails(next.value.doc, o.setNext) else o.buildNext)
      ensures err == Some(EmptyConfig) <==> next.None?
      ensures err == Some(Rejected) <==> next.Some? && !Tried(next, o)
      ensures err == Some(CannotRender) <==> Tried(next, o) && old(running) && Keeps(old(cfg), next.value) && !Rendered(o)
      ensures err == Some(RollbackFailed) <==>
                && Tried(next, o) && old(running) && Keeps(old(cfg), next.value) && Rendered(o)
                && Fails(next.value.doc, o.setNext) && Fails(old(cfg).value.doc, o.setPrev)
      ensures err == Some(RestartFailed) <==>
                Tried(next, o) && old(running) && !Keeps(old(cfg), next.value) && !o.buildNext && !o.buildPrev
      ensures err.Some? ==> err.value in {EmptyConfig, Rejected, CannotRender, Restored, RollbackFailed, RestartFailed}
      ensures err != Some(RollbackFailed) ==> Matches()
      ensures err == Some(RollbackFailed) ==> running && status == Broken
      ensures old(running) && !running <==> err == Some(RestartFailed)
      ensures err == Some(RestartFailed) ==> status == Broken
      ensures !old(running) ==> !running && dev == old(dev) && peerKeys == old(peerKeys)
    {
      changed := false;
      if next.None? {
        return false, Some(EmptyConfig);
      }
      var c := next.value;
      // The dry run converts the peer keys too.
      if !o.dryRun || c.keys.None? {
        return false, Some(Rejected);
      }
      var prev := cfg;
      if !running {
        cfg := next;
        return true, None;
      }
      var same := StackEqual(prev, c);
      if same {
        if !o.renderPrev || !o.renderNext {
          return false, Some(CannotRender);
        }
        changed, err := ApplyLive(c, o);
        return;
      }
      Stop();
      cfg := next;
      err := Start(o.buildNext);
      if err.Some? {
        cfg := prev;
        err := Start(o.buildPrev);
        return false, Some(if err.Some? then RestartFailed else Restored);
      }
      return true, None;
    }

    /** The part that keeps the tunnel up: the new document, and on failure the previous one. */
    method ApplyLive(c: Config, o: Outcomes) returns (changed: bool, err: Option<Error>)
      requires running && Matches() && Complete(cfg.value) && Complete(c) && c.keys.Some?
      modifies this
      ensures running
      ensures err.None? <==> !Fails(c.doc, o.setNext)
      ensures err.None? ==> cfg == Some(c) && Matches() && changed && status == Connecting
      ensures err.Some? ==> cfg == old(cfg) && !changed && peerKeys == old(peerKeys)
      ensures err == Some(Restored) ==> Matches() && status == old(status)
      ensures err == Some(RollbackFailed) <==> Fails(c.doc, o.setNext) && Fails(old(cfg).value.doc, o.setPrev)
      ensures err == Some(RollbackFailed) ==> status == Broken
      ensures err.Some? ==> err == Some(Restored) || err == Some(RollbackFailed)
    {
      var prev := cfg.value;
      ApplyDocOver(map[], prev.doc);
      ghost var before := dev;
      var ok := IpcSet(c.doc, o.setNext);
      if !ok {
        WholeDocumentDetermines(before, c.doc, o.setNext.value, prev.doc);
        ok := IpcSet(prev.doc, o.setPrev);
        if !ok {
          status := Broken;
          return false, Some(RollbackFailed);
        }
        return false, Some(Restored);
      }
      WholeDocumentDetermines(before, [], 0, c.doc);
      cfg := Some(c);
      peerKeys := c.keys.value;
      status := Connecting;
      return true, None;
    }
  }
}
