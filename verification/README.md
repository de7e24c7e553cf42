# AWGSocks: verified model of the core

AWGSocks is a SOCKS5 proxy whose connections leave only through a userspace AmneziaWG tunnel. This
project models the stateful core of that program in Dafny and proves what its comments, tests and
documentation promise of it:

- **Packet hand-over** (`BatchTunProtocol`, `BatchTunDevice`). A fixed set of buffers moves between a
  free list, a queue, one reader goroutine and `Read`. The first module is a step machine over every
  interleaving (one step per channel operation), with histories of what the wrapped device produced
  and what was delivered. The second is the object itself, writing into the caller's buffers at an
  offset; a ghost run ties every method to the machine.
- **Life cycle** (`Lifecycle`, `Overrides`, `ServiceManager`, `Readiness`, `Supervisor`, `Reload`,
  `ReloadRace`). Start, pause, resume, stop, conflict checks and background retry under two locks, a
  mutex and a generation counter, for any number of threads; what can override a pause or a stop, and
  when there are two devices, exactly; the manager object, whose calls are runs of that machine; the
  readiness channel and its waiters; the back-off of the supervisor; hot reload as a transaction, and
  against other reloads and reconnects.
- **Name resolution** (`ResolverProtocol`, `ResolverCache`, `DnsRetry`). A cache with single flight, a
  concurrency limit and bounded eviction, as a step machine and as an object; and the retry of one
  uncached lookup.
- **SOCKS5** (`Socks5Wire`, `Socks5Server`, `UdpRelay`, `Sessions`). The formats of RFC 1928, sections
  3 to 7, with parsers and an independent description of what is on the wire; negotiation and requests
  over a byte stream; the choice of an address to connect to; socket ownership in the UDP relay under
  racing opens and close, and its latch on one client; the accept loop and its counters.
- **Configuration and status** (`Text`, `ConfigScan`, `ConfigValues`, `ConfigValidate`, `ConfigLoad`,
  `UapiStats`). Line-oriented loops with accumulators, proved equal to functions whose properties are
  then proved: which line belongs to which section, exactly which configurations are accepted, the MTU
  that follows, and what the status parser reads back.

`Basics` holds the datatypes they share. `dafny verify dfyconfig.toml` checks everything.

The clock, the network, the upstream resolver, the AmneziaWG device and the scheduler are parameters:
labels and choices of the step machines, or arguments of the methods.

Some promises do not hold of the code. Each has a run or an input that shows it, and the exact
condition under which the code does keep it:

- a pause can be overridden by a reload that rebuilds the tunnel, which stops and restarts it outside
  `startMu` (`Lifecycle.RebuildCanOverridePause`); a tunnel that is down can come up under a pause
  exactly while such a reload has seen it running and is not done (`Overrides.PauseOverriddenOnlyByRebuild`);
- there can be two devices at once: such a reload and a start can build one each (`Overrides.TwoDevices`),
  and a start can build one while the reload's `Stop` is still closing the old one
  (`Overrides.DeviceStillClosing`); there is one at most exactly in the runs where the check in
  `Tunnel.Start` never passes while another start is between its check and its record, or a `Stop`
  between clearing `running` and closing its device (`Overrides.SecondDeviceExactly`), and one of the
  two is then a rebuilding reload (`Overrides.OverlapNeedsReload`);
- a stop can be overridden by the end of a pause that had found the tunnel wanted, contrary to the
  comment in `StopTunnel` (`Overrides.ResumeOverridesStop`); a stopped tunnel can come up unasked
  exactly while one of the threads of `Overrides.Reviving` is under way (`Overrides.StopOverriddenExactly`);
- the comment on `WaitReady` says it never succeeds while the tunnel is down, but it does when the
  caller's deadline passes while `Stop` is still working (`Readiness.DeadlineSuccessWhileDown`), and
  only then (`Readiness.SuccessWhileDown`);
- after a reload has succeeded, the device can come to hold the previous configuration again, because a
  reconnect applies what it read before (`ReloadRace.OldDocumentReturns`), and two reloads that cross
  can leave the device with one and the tunnel with the other (`ReloadRace.ReloadsCross`); once the
  reloads have returned, this happens exactly if it has happened already, or a reconnect is about to
  apply a configuration replaced since it looked (`ReloadRace.DisagreesExactly`);
- a lookup can return another caller's cancellation, whether that caller was waiting for a token
  (`ResolverProtocol.JoinerInheritsCancellation`) or for upstream
  (`ResolverProtocol.JoinerInheritsFromAsker`), and exactly as long as that caller waits for either or
  has given up there (`ResolverProtocol.CancellationInheritedExactly`);
- the session counter is not bounded by the connection limit, because a session's token is released
  before the counter is lowered (`Sessions.CounterOverstates`); `Sessions.SessionsBounded` says what
  it counts and when it exceeds the limit;
- a handshake number before the first peer of a status document ends up in that peer
  (`UapiStats.HeadHandshakeLeaks`), unless the peer's own lines replace it
  (`UapiStats.FirstPeerIgnoresHead`);
- a reply from port zero cannot be parsed back, and only such a one (`Socks5Wire.ReplyRoundTrip`).

## Model

| member | source | states |
|---|---|---|
| BatchTunProtocol.BuffersHaveOneOwner | internal/awg/netstack.go:82-113 | in every reachable state before `done` closes each of the `depth` buffers is in exactly one of free list, queue, reader's hand and consumer's hand |
| BatchTunProtocol.SendsNeverBlock | internal/awg/netstack.go:102-106 | no send on either channel can block, nothing is sent on the queue after it closes, and read-ahead never exceeds `depth` |
| BatchTunProtocol.NoLossInOrder | internal/awg/netstack.go:93-97 | over every run, delivered, queued and held packets are together the produced ones in order; losses are the packets reported as too large and at most one at shutdown |
| BatchTunProtocol.ReadNeverWaitsInsideBatch | internal/awg/netstack.go:189-195 | after its first packet `Read` never waits: from every such state it has a step of its own |
| BatchTunProtocol.ClosingErrorComesLast | internal/awg/netstack.go:202-205 | the closing error is reported only when every queued packet was delivered |
| BatchTunProtocol.ReaderExits | internal/awg/netstack.go:147-187 | once the wrapped device and `done` are closed, the reader exits within a bounded number of its own steps, from every state |
| BatchTunProtocol.ReaderCanMove | internal/awg/netstack.go:260-270 | and until then it always has a step to take, so `Close` is never left waiting |
| BatchTunProtocol.BlockedReadWakes | internal/awg/netstack.go:196-205 | a blocked `Read` returns once the reader has exited |
| BatchTunDevice.BatchTun.constructor | internal/awg/netstack.go:115-143 | at least one packet a batch, at least as many buffers as a batch, all of them free |
| BatchTunDevice.BatchTun.Deliver | internal/awg/netstack.go:228-251 | the packet lies at `offset` of the caller's buffer with every other byte unchanged, or is refused with the sizes named and nothing written; the buffer goes back after the copy, whatever the reader does meanwhile |
| BatchTunDevice.BatchTun.Read | internal/awg/netstack.go:196-226 | between 1 and min(len(bufs), len(sizes), batch) packets, the next ones in order, each at `offset` of its own buffer; a short batch means the queue was empty; an error is a refused packet or a drained and closed queue; all else is unchanged |
| BatchTunDevice.BatchTun.ReadLoop | internal/awg/netstack.go:147-187 | the read loop is a run of the machine; it reads exactly the packets the wrapped device returns in the turns that found a buffer, in order; it goes on after every turn but one that `done` stops or an error ends, leaves that error, and closes the queue exactly when it ends |
| BatchTunDevice.BatchTun.ReadTurn | internal/awg/netstack.go:158-186 | one pass: it reads nothing only for want of a buffer or under `done`; otherwise the packet of the turn, if there is one, is read, and the pass fails exactly with the device's error, or with ErrClosed once it is closed, unless the packet was dropped under `done` |
| BatchTunDevice.BatchTun.HandOver | internal/awg/netstack.go:171-180 | a filled buffer is queued, an empty one freed, and one is dropped only after `done` closed |
| BatchTunDevice.BatchTun.Close | internal/awg/netstack.go:260-270 | afterwards the wrapped device and `done` are closed and the reader has exited |
| Lifecycle.PauseAllowsNoStart | internal/service/manager.go:293-370 | while a pause is in force no call of `startTunnelOnce` is starting the tunnel and none can begin to, and the tunnel runs if and only if a rebuilding reload has brought it up since |
| Lifecycle.PausedTunnelStaysDown | internal/service/manager.go:354-370 | in runs whose reloads are atomic the tunnel never runs while a pause is in force, under every interleaving |
| Lifecycle.OnlyResumeEndsPause | internal/service/manager.go:372-389 | only `resume` ends a pause |
| Lifecycle.RebuildCanOverridePause | internal/awg/tunnel.go:873-937 | a run in which a whole pause falls between a reload's look at `running` and its `Stop`, and the reload brings the tunnel up under the pause |
| Overrides.PauseOverriddenOnlyByRebuild | internal/awg/tunnel.go:873-937 | from every reachable state with a pause in force and the tunnel down: some continuation under that pause brings it up if and only if a reload that saw it running is still rebuilding |
| Overrides.PauseOverriddenNext | internal/awg/tunnel.go:923-932 | ... and the very next step can if and only if such a reload is past the check in `Tunnel.Start` |
| Lifecycle.OneStartAtATime | internal/service/manager.go:293-313 | `startMu` keeps all callers of `startTunnelOnce` apart: at most one of them is inside `Tunnel.Start` |
| Overrides.SecondDeviceExactly | internal/awg/tunnel.go:406-438 | a run has at most one device, being built, on record or being closed, at every moment if and only if the check of `running` in `Tunnel.Start` never passes between another start's check and its record, or between a Stop's clearing of `running` and its closing of the device |
| Overrides.OverlapNeedsReload | internal/service/manager.go:524-541 | when that happens, one of the two is a rebuilding reload: everyone else is kept apart by `startMu`, and the service's last Stop has waited for everyone who could start the tunnel |
| Overrides.TwoDevices | internal/awg/tunnel.go:923-932 | a run in which two starts overlap: a rebuilding reload and a manual start |
| Overrides.DeviceStillClosing | internal/awg/tunnel.go:406-438 | a run with two devices in which no two starts overlap: a manual start passes its check while a reload's Stop is still closing the device |
| Overrides.NeverTwoDevices | internal/awg/tunnel.go:230-262 | in runs whose reloads are atomic there is never a second device, at any moment, the service's last Stop included |
| Lifecycle.RetryOnRecord | internal/service/manager.go:404-413 | a recorded retry is of the newest generation; every other loop is cancelled, or its cancel is owed by a `cancelRetry` in flight |
| Lifecycle.FinishingLoopSparesReplacement | internal/service/manager.go:484-498 | a finishing loop never erases the record of its replacement |
| Lifecycle.CancelledLoopTriesOnce | internal/service/manager.go:420-443 | a cancelled loop begins at most one more start attempt in the whole run |
| ServiceManager.SoloCheck | internal/service/manager.go:318-352 | an undisturbed `checkConflict`, of any caller, is a run of the machine that ends in the state its specification gives |
| ServiceManager.SoloTurn | internal/service/manager.go:421-460 | so is one turn of the retry loop, in each of its ways to go on or to end |
| ServiceManager.Manager.CheckConflict | internal/service/manager.go:318-352 | the object goes where the machine goes, and the result says whether the tunnel is paused afterwards |
| ServiceManager.Manager.Compare | internal/service/manager.go:329-351 | pauses on a new conflict (tunnel down, no retry on record), follows a moved one, resumes without one (with a retry if the tunnel is wanted), changes nothing on a failed read |
| ServiceManager.Manager.PauseTunnel | internal/service/manager.go:357-370 | paused, down, and the retry on record cancelled |
| ServiceManager.Manager.ResumeTunnel | internal/service/manager.go:375-389 | not paused, and a retry of a new generation exactly if the tunnel is wanted |
| ServiceManager.Manager.RecordNewRetry | internal/service/manager.go:404-413 | the old loop is cancelled and the new generation recorded |
| ServiceManager.Manager.ClearFinished | internal/service/manager.go:491-498 | forgets its own record only |
| ServiceManager.Manager.StartTunnelOnce | internal/service/manager.go:293-313 | refused under a pause, a no-op on a running tunnel, an attempt otherwise |
| ServiceManager.Manager.StartTunnel | internal/service/manager.go:769-788 | wanted afterwards; up exactly if it was up or the attempt succeeded, unless paused |
| ServiceManager.Manager.StopTunnel | internal/service/manager.go:792-810 | an undisturbed call leaves the tunnel down and unwanted, with no retry on record |
| Overrides.StopOverriddenExactly | internal/service/manager.go:792-810 | from every reachable state with the tunnel down and unwanted, paused or not: some continuation in which nobody asks for the tunnel brings it up if and only if a resume or an automatic start about to record a retry, a retry loop not given up, a caller of `startTunnelOnce` not refused, a manual start past its request, a rebuilding reload, or the automatic start itself is still under way, and is not bound to be refused by a pause |
| Overrides.ResumeOverridesStop | internal/service/manager.go:375-389 | a run in which a whole `StopTunnel` falls between a resume's look at `tunnelWanted` and its `retryStart`, and the tunnel comes up afterwards though nobody asked |
| ServiceManager.Manager.RetryLoop | internal/service/manager.go:420-461 | undisturbed, it waits 1, 2, 4, ... seconds and ends at the first start that succeeds, or goes on if all fail; a pause, a cancellation or a tunnel that is up ends it in its first turn without a start; the tunnel is up afterwards exactly if it was or a start of the loop succeeded; an ended loop leaves no record of itself |
| ServiceManager.Manager.RetryOnce | internal/service/manager.go:421-460 | one turn ends the loop unless it is to try and the start fails, and brings the tunnel up exactly if it is to try and the start succeeds |
| ServiceManager.Manager.PausedObjectStaysDown | internal/service/manager.go:354-370 | what holds for the runs holds for the object: paused, with no pause half done, it is down |
| ServiceManager.Manager.WakeIfDown | internal/service/manager.go:273-288 | once a burst of changes has settled, a tunnel that is down has its retry woken, and nothing else changes |
| ServiceManager.DelaysDouble | internal/service/manager.go:455-457 | each wait is double the one before, between one second and one minute |
| Readiness.NoDoubleClose | internal/awg/tunnel.go:406-515 | no interleaving closes a readiness channel twice |
| Readiness.ReadyRestsOnTick | internal/awg/tunnel.go:743-758 | a closed channel of a running tunnel means a tick of this incarnation saw a handshake younger than 180 s |
| Readiness.SuccessRestsOnTick | internal/awg/tunnel.go:457-489 | every success of `WaitReady` rests on such a tick; one through the channel is on the current channel of a running tunnel, in the incarnation the caller first saw |
| Readiness.SuccessWhileDown | internal/awg/tunnel.go:454-489 | it succeeds on a tunnel that is down if and only if it leaves at its deadline while `Stop` has not set the stopped state yet |
| Readiness.DeadlineSuccessWhileDown | internal/awg/tunnel.go:482-485 | a run in which that happens |
| Readiness.Tunnel.WaitReady | internal/awg/tunnel.go:457-489 | whatever the others do between its steps, a success through the channel leaves with a running tunnel whose current channel is closed, one at the deadline with a connected state, and both rest on a healthy tick of this incarnation; "down" is only said of a tunnel that is down; it leaves at the deadline in the first pass that has one and in no other, and keeps waiting only while its channel is open |
| Readiness.Tunnel.WaitOnce | internal/awg/tunnel.go:458-488 | one pass: with a deadline it leaves there, unless its first read finds the tunnel down; without one the second read decides between down, a success if the channel is still current, and another pass if it was replaced |
| Readiness.Tunnel.MarkReadyAfterTick | internal/awg/tunnel.go:491-500 | the current channel is closed afterwards, and nothing was closed twice |
| Readiness.Tunnel.MarkNotReadyByReload | internal/awg/tunnel.go:502-515 | a running tunnel has an open channel afterwards, one that is down keeps its own |
| Readiness.Tunnel.BeginStop | internal/awg/tunnel.go:406-426 | down, and every waiter released |
| Supervisor.Supervise | internal/awg/tunnel.go:716-784 | the loop kicks exactly at the times of the schedule function |
| Supervisor.BackoffBounded | internal/awg/tunnel.go:774-782 | the back-off stays within 1 s and 60 s |
| Supervisor.KicksSpaced | internal/awg/tunnel.go:757-782 | kicks of an unhealthy stretch are at least 1, 2, 4, 8, 16, 32, 60, 60, ... s apart, wherever the stretch lies |
| Supervisor.KicksBounded | internal/awg/tunnel.go:757-782 | so a stretch of T seconds holds at most 7 + T/60 |
| Supervisor.KicksOnTime | internal/awg/tunnel.go:725-782 | wherever in the life of the loop: an unhealthy tick kicks if and only if the time that follows from the last reconnect request, healthy tick or kick has come |
| Supervisor.FirstKickOnTime | internal/awg/tunnel.go:716-782 | ... and before any of those, if and only if a second has passed |
| Reload.WholeDocumentDetermines | internal/awg/tunnel.go:886-898 | re-applying a complete document after an interrupted one leaves exactly its settings |
| Reload.Tunnel.Reload | internal/awg/tunnel.go:865-938 | an undisturbed call: it succeeds if and only if the dry run does and, on a running tunnel, either the stack stays, both documents render and the new one applies, or the stack changes and the new device can be built; each error has its one cause; every error leaves the previous configuration; a running tunnel's device and keys match its configuration unless rollback failed, which the state says; it goes down only if neither configuration starts |
| ReloadRace.DeviceHoldsLast | internal/awg/tunnel.go:886-919 | however reloads and reconnects interleave, the device holds the document applied last if it went through, and so agrees with the configuration on record if and only if the two say the same |
| ReloadRace.DisagreesExactly | internal/awg/tunnel.go:814-852 | from every reachable state with no reload under way: some continuation without another reload leaves the device with what is not on record if and only if it has that already, or a reconnect is about to apply a configuration that was replaced since it looked |
| ReloadRace.OldDocumentReturns | internal/awg/tunnel.go:814-852 | for any two configurations of one stack that differ, a run in which a reconnect puts the old one back after a whole reload |
| ReloadRace.ReloadsCross | internal/awg/tunnel.go:886-919 | for any two that differ, a run in which two reloads leave the device with one and the tunnel with the other |
| Reload.Tunnel.ApplyLive | internal/awg/tunnel.go:886-919 | the live path: applied, or restored, or rollback failed if and only if both documents failed |
| Reload.Tunnel.Start | internal/awg/tunnel.go:230-262 | all or nothing on device, keys and running |
| Reload.StackEqual | internal/awg/tunnel.go:942-960 | true exactly if there is a previous configuration with the same stack |
| ResolverProtocol.SingleFlight | internal/dns/resolver.go:106-162 | at most one leader a host, at most 8 queries upstream, and a host is in flight exactly while its leader is at work |
| ResolverProtocol.ResultIsFinal | internal/dns/resolver.go:116-148 | a call's `done` closes once, by its leader, after its result is set, which never changes again |
| ResolverProtocol.AnswersComeFromUpstream | internal/dns/resolver.go:106-149 | every answer was given upstream for that host, except the error of a cancelled context: the caller's own or that of the leader it joined |
| ResolverProtocol.HitsAreFresh | internal/dns/resolver.go:109-114 | a hit began before its answer's store time plus 60 s (5 s for an error), was stored since the last flush, and the cache holds at most 1024 entries |
| ResolverProtocol.StoredAnswersServed | internal/dns/resolver.go:109-145 | every answer but an error under a cancelled context is cached: until a flush or another store, a call for the host that begins within its 60 s (5 s for an error) is a hit with it, and a later one is not |
| ResolverProtocol.EvictedBounds | internal/dns/resolver.go:166-180 | eviction makes room and, unless it must clear everything, drops only expired entries |
| ResolverProtocol.StoredBounds | internal/dns/resolver.go:141-144 | a store keeps the bound; the stored entry is present afterwards, no other one changes, and another one is dropped only from a full cache, if it is expired or too many are not |
| ResolverProtocol.CancelledErrorsNotStored | internal/dns/resolver.go:139-144 | over every run: no cache entry is a cancellation, or an error stored by a leader whose context was over |
| ResolverProtocol.JoinerInheritsCancellation | internal/dns/resolver.go:116-124 | a run in which a live caller gets its leader's cancellation |
| ResolverProtocol.JoinerInheritsFromAsker | internal/dns/resolver.go:151-162 | a run in which the leader had its token and was cancelled while asking |
| ResolverProtocol.CancellationInheritedExactly | internal/dns/resolver.go:151-162 | in every reachable state: a joiner can still get its leader's cancellation if and only if the leader is waiting for a token or for upstream, or has given up there |
| ResolverCache.Resolver.Lookup | internal/dns/resolver.go:106-149 | the whole call, with any steps of the others in between, is part of a run of the machine: its answer is that of the cache at its first critical section, the result of the call it joined, what upstream replied to this call, or its own context's error; it gives up only when its context is over and, if it need not, every token is out or the joined call is not done; and it goes on waiting only for those |
| ResolverCache.Resolver.Ask | internal/dns/resolver.go:131-162 | a leader returns upstream's reply, unless it gives up; nothing else is recorded as an answer to it |
| ResolverCache.Resolver.Begin | internal/dns/resolver.go:106-130 | served exactly if the entry is fresh, joined to what is in flight, or leading; counted once |
| ResolverCache.Resolver.Finish | internal/dns/resolver.go:133-145 | out of flight and stored, unless an error under a cancelled context, and the bound kept |
| ResolverCache.Resolver.EvictLocked | internal/dns/resolver.go:166-180 | the loop over the map agrees with the declarative eviction, whatever the iteration order |
| DnsRetry.LookupUncached | internal/awg/tunnel.go:609-650 | asks again after a timeout and once after a first not-found, at most three times, each time with its context alive; stops only when settled, out of attempts or cancelled, turns through the local servers, and returns what the last reply means |
| DnsRetry.OutcomesTell | internal/awg/tunnel.go:618-650 | addresses come from the last reply, an empty answer is no success, an error is that of the last reply, and there is none only if nobody was asked |
| DnsRetry.ServersTakeTurns | internal/awg/tunnel.go:602-606 | the first attempt asks the first local resolver, each later one the next, and after the last the first again |
| DnsRetry.OneMore | internal/awg/tunnel.go:966-981 | the retry decision settles the matter exactly on another error or the second not-found |
| Socks5Wire.ParseIsDecode | internal/socks5/udp.go:429-480 | the UDP header parser, on every byte string, in terms of the wire description |
| Socks5Wire.ParsesEveryDatagram | internal/socks5/udp.go:429-480 | every well-formed datagram with a port parses to what it means, with exactly its data |
| Socks5Wire.ParsesOnlyDatagrams | internal/socks5/udp.go:429-480 | and nothing else parses |
| Socks5Wire.ReplyRoundTrip | internal/socks5/udp.go:482-500 | parsing what `buildUDPHeader` built gives the unmapped source and exactly the data, if and only if the port is not zero |
| Socks5Wire.DecodeEncode | internal/socks5/udp.go:440-475 | an address field is read back from any bytes that start with it |
| Socks5Wire.EncodeDecode | internal/socks5/udp.go:440-475 | whatever is read is what was printed |
| Socks5Wire.ReplyReadable | internal/socks5/server.go:681-701 | a client reads back the code, the bound address and the port, with no byte left over |
| Socks5Server.Negotiate | internal/socks5/server.go:465-489 | agrees exactly to the greetings that offer no authentication, reads nothing beyond them, answers as section 3 of RFC 1928 asks, and succeeds only if the answer could be written |
| Socks5Server.ReadRequest | internal/socks5/server.go:505-564 | succeeds exactly on a whole request, with its meaning, leaving every later byte unread; only an unknown address type is answered |
| Socks5Server.ReadName | internal/socks5/server.go:528-546 | the domain branch, names and addresses in their place |
| Socks5Server.RequestIsPrinted | internal/socks5/server.go:505-564 | every printed request is read back, port zero included, and what follows it is left |
| Socks5Server.RequestOnlyPrinted | internal/socks5/server.go:505-564 | and only printed requests are read |
| Socks5Server.HeaderAndRequestAgree | internal/socks5/udp.go:429-480 | the datagram parser and the request parser give the same bytes the same destination |
| Socks5Server.Routable | internal/socks5/server.go:566-574 | the loop keeps the candidates in order |
| Socks5Server.CandidatesAreRoutable | internal/socks5/server.go:566-574 | a candidate is exactly a given address, unmapped, that is not 0.0.0.0 or :: |
| Socks5Server.Connect | internal/socks5/server.go:578-631 | dials candidates in order, each once, stops at the first success, fails only when all failed, with the reply for the last error; dials nothing for an unresolvable or unroutable destination |
| Socks5Server.RepliesTell | internal/socks5/errors.go:18-44 | no failure is reported as a success; "refused" is said only of a refusal, "network unreachable" exactly without a tunnel or network, and "host unreachable" otherwise |
| Socks5Server.UnspecifiedMeans | internal/socks5/server.go:566-574 | an address is unspecified exactly if its bytes are all zero and it has no zone, and an IPv4 address mapped into IPv6 likewise |
| UdpRelay.EverySocketOwned | internal/socks5/udp.go:323-363 | every socket ever opened is the single stored one of its family, or in the hand of an open still going on, or closed |
| UdpRelay.OneSocketPerFamily | internal/socks5/udp.go:347-363 | all opens of a family that returned a socket returned the same one, whether the relay was closed since or not; it is open, and of that family, until `Close` |
| UdpRelay.ClosedRelayKeepsNothing | internal/socks5/udp.go:185-200 | once `Close` ran and no open is pending, no socket stays open |
| UdpRelay.Relay.TunnelConn | internal/socks5/udp.go:323-363 | with the other goroutines moving between its steps, it returns the socket stored for its family as long as the relay is open, and keeps none in its own hand; it returns none only if the relay is closed or a socket cannot be opened, and opens none if that fails |
| UdpRelay.Relay.Close | internal/socks5/udp.go:185-200 | no socket stays open but those in the hand of a pending open |
| UdpRelay.Association.AcceptFrom | internal/socks5/udp.go:258-270 | the verdict and the latch for one datagram |
| UdpRelay.OneClient | internal/socks5/udp.go:256-270 | a declared address is the only one accepted; otherwise the first datagram with a port claims the association, and from then on exactly that address and port are accepted |
| UdpRelay.RepliesGoToTheClient | internal/socks5/udp.go:386-395 | after any datagram was accepted, replies go to that client and nobody else |
| UdpRelay.Association.Deliver | internal/socks5/udp.go:381-411 | a reply is sent exactly if the association is claimed from a loopback address, and to that address; it parses back to its source and data, or not at all if the source port is zero |
| Sessions.SessionsBounded | internal/socks5/server.go:313-375 | at most `maxConns` sessions run; the session counter is the tokens out, less the connections not counted yet, plus the sessions that gave back their token and were not subtracted yet; and it is within the limit if and only if the latter are no more than the tokens left and the former together |
| Sessions.CounterOverstates | internal/socks5/server.go:365-368 | for every n, a run that shows n active sessions while none runs |
| Sessions.NothingLeaks | internal/socks5/server.go:343-373 | when all connections are done with, no token is out, nothing is tracked, the counter is zero, and each connection was counted once, as a session or as a rejection |
| Sessions.ReleaseNeverBlocks | internal/socks5/server.go:365-371 | the deferred calls of a session cannot get stuck |
| Sessions.Server.AcceptLoop | internal/socks5/server.go:313-375 | the loop is a run of the machine that takes every accepted connection, one each, and refuses those from elsewhere; it counts the errors in a row, and stops if and only if the server is closing or that was the tenth |
| Sessions.Server.Serve | internal/socks5/server.go:341-373 | a connection ends up refused or with a session of its own, never the latter if it comes from another machine |
| Sessions.Server.Admit | internal/socks5/server.go:343-358 | a token is taken exactly if the connection is local and one is free, and a refusal is counted |
| Sessions.Server.EndSession | internal/socks5/server.go:365-371 | the deferred calls of a session give back one token, take it off the counter and the tracking, and touch no other connection |
| Sessions.GivesUpOnlyAfterTen | internal/socks5/server.go:321-341 | the loop stops exactly at the tenth accept error in a row, unless the server is closing |
| ConfigScan.ScanConfig | internal/config/tunnel.go:390-446 | the loop computes the accumulators of the specification, first error included |
| ConfigScan.AcceptedExactly | internal/config/tunnel.go:390-446 | a text is accepted exactly if every line is blank, a known header or an entry below one, and some entry is in [Interface] |
| ConfigScan.EveryEntryOnce | internal/config/tunnel.go:390-446 | one peer for each [Peer] header; every entry, with its line number, in exactly one section, once and in order; and a section holds nothing else |
| ConfigScan.FirstErrorReported | internal/config/tunnel.go:402-431 | the reported line is the first offending one, and the error says what is wrong with it |
| ConfigScan.ScanPrint | internal/config/tunnel.go:386-446 | scanning inverts printing, for every document of sections |
| ConfigValues.RangeRoundTrip | internal/config/tunnel.go:711-737 | "a" and "a-b" are read as written, the latter if and only if a <= b and both fit |
| ConfigValues.RangesAreTexts | internal/config/tunnel.go:717-737 | exactly one number, or two in order with a hyphen between, spaces allowed around each, is accepted as a range |
| ConfigValues.RangesAreRanges | internal/config/tunnel.go:717-737 | whatever is accepted is an ordered range within the bits asked for |
| ConfigValues.EndpointsAre | internal/config/tunnel.go:801-838 | accepted exactly if a host, a colon and the digits of a port from 1 to 65535; an IPv6 address needs its brackets |
| ConfigValues.HostsAre | internal/config/tunnel.go:812-838 | a host is an address in brackets, with a zone or without, an address without a colon, or a name of at most 253 bytes without blanks, slashes and colons |
| ConfigValues.Utf8Bounds | internal/config/tunnel.go:834 | the length counts bytes: one for an ASCII character, at most four for any |
| ConfigValues.ValidateCIDRList | internal/config/tunnel.go:762-783 | exactly the lists whose parts are all valid, none empty |
| ConfigValues.ValidateDNSList | internal/config/tunnel.go:785-799 | exactly the lists whose parts are addresses or names without a blank |
| Text.ParseUintMeans | internal/config/tunnel.go:519 | a number is accepted exactly if it is digits whose value fits, and read as that value |
| Text.NumberRoundTrip | internal/awg/stats.go:118-136 | a printed number is read back, or is a range error if it does not fit |
| Text.TrimParts | internal/config/tunnel.go:402-432 | trimming drops spaces at either end and nothing else, and leaves none there |
| Text.JoinSplit | internal/config/tunnel.go:717-718 | the parts of a split text, joined again, are the text |
| ConfigValidate.ValidateScan | internal/config/tunnel.go:451-513 | accepts exactly the scans meeting the declarative description |
| ConfigValidate.ValidateInterface | internal/config/tunnel.go:455-485 | exactly the sections of known, unique, valid keys; otherwise the first wrong entry is reported, with the reason |
| ConfigValidate.ValidateInterfaceSemantics | internal/config/tunnel.go:599-705 | Jc > 0 needs Jmin <= Jmax and Jmax > 0; no message type lies in two header ranges; a header key needs S1 to S4 of at least 12 |
| ConfigValidate.CheckHeaders | internal/config/tunnel.go:649-669 | comparing the bounds pairwise finds exactly the message types with two meanings |
| ConfigValidate.ValidatePeer | internal/config/tunnel.go:493-511 | exactly the peers of known, unique keys with valid, non-empty values; otherwise the first wrong entry is reported, with the reason and the number of the peer |
| ConfigValidate.NumericValues | internal/config/tunnel.go:515-594 | which texts the numeric kinds accept: the digits of a 16-bit number, the same or "off", a number with or without a plus sign from 576 to 65535, or a range of 32-bit numbers, for the 16-bit ranges too |
| ConfigLoad.OverheadIsWhatIsSet | internal/config/tunnel.go:370-384 | since keys are unique, the last-wins loop agrees with the first-match lookups of the validation |
| ConfigLoad.SafeMTUFits | internal/config/tunnel.go:51-57 | the derived MTU fits 1500 bytes over IPv6 exactly up to 140 added bytes, and no larger one fits |
| ConfigLoad.Finalize | internal/config/tunnel.go:231-315 | fails exactly without an address, peer or usable MTU or with an invalid one; the addresses stay in order, and with a resolver on this machine no other one is kept |
| ConfigLoad.ParseTunnel | internal/config/tunnel.go:171-229 | from the text: accepted exactly if well-formed, valid, parsed by the upstream parser and usable; the MTU is the explicit one (1420 if that is zero) or derived from what S4 and the padding are set to |
| UapiStats.ParseUAPIGet | internal/awg/stats.go:78-162 | the loop computes the accumulators of the specification |
| UapiStats.PeersAreBlocks | internal/awg/stats.go:85-162 | one peer for each block, in order, depending on nothing but its block, except for handshake numbers ahead of the first one |
| UapiStats.FirstPeerIgnoresHead | internal/awg/stats.go:85-136 | the first peer, too, depends on nothing but its block if and only if the head holds no handshake number, or the block's own lines replace it, or no time shows either way |
| UapiStats.HeadHandshakeLeaks | internal/awg/stats.go:126-129 | the exception is real |
| UapiStats.ParsePrint | internal/awg/stats.go:78-162 | reading a printed device state gives its port, its parameters and exactly its peers |
| UapiStats.SecretsDoNotShow | internal/awg/stats.go:38-43 | documents that differ only in secret lines give equal results |

## Left out

- The AmneziaWG device, the gVisor stack, Noise, `IpcSet`, `netip` parsing, base64: foreign code, whose outcomes are parameters.
- `BatchTun`: the closed wrapped device is assumed to answer every read with an error, as its own documentation says; writes, MTU and name are passed through and not modelled.
- `Lifecycle` takes a call of `Tunnel.Start` as its check and a build with a free outcome, and a call of `Tunnel.Stop` as the clearing of `running` and the closing of the device; a reload is either taken apart in the same way or, where the runs are called atomic, one step.
- `Lifecycle.AllQuiet`, when the service stops the tunnel for the last time, states what `Manager.Stop` waits for (the pipe's requests, the watcher, the retry loops) and what a failed `Manager.Start` can have left behind (the retry of its automatic start); requests of the service control manager are handled by the goroutine that later calls `Manager.Stop`.
- `ServiceManager` runs each of its methods undisturbed; what interleaved calls do is stated by `Lifecycle`. When several branches of the retry loop's select are ready, the object prefers cancellation, then the wake-up; the machine allows every choice.
- `Readiness.Tunnel`, `UdpRelay.Relay` and `Sessions.Server` hold the state of the other goroutines as well, which move by the functions of the step machine; of the tunnel's methods only the waiting and the critical sections on the readiness channel are written out.
- `Overrides`: each automatic start and each request for the tunnel counts as asking when it begins; a continuation without one lets every thread already under way go on.
- `ResolverProtocol`: when the leader's context ends while it is asking, upstream may answer all the same or return the context's error; which one is a free choice.
- `ResolverCache`: the counters count the calls made through the object, not those of the others. A caller that waits longer than `patience` turns is left waiting.
- `Readiness` assumes that callers of `Start` and `Stop` are serialised by `startMu`, as the manager does.
- `ReloadRace`: reloads that keep the stack, on a tunnel that stays up (a Stop waits for a reconnect under way); a document mentions no setting twice, calls of `IpcSet` exclude each other, and resolving an endpoint again gives the same document.
- `Reload`: every configuration document mentions every setting of the device, and a failing `IpcSet` applies a prefix of it. Rendering, the dry run and the build are outcomes. The report text, the listener swap and log settings of the manager's reload are not modelled.
- `Supervisor`: times are whole seconds on a monotone clock, one reading for each call of the clock.
- `DnsRetry`: the time limits of the attempts; the three kinds of timeout error are one.
- `UdpRelay`: the race of the relay's wait group with a late open, the idle watcher, and the drop counters.
- `Sessions`: `Stop`, which closes the tracked connections and may miss one that is being accepted, and the pauses between accept errors.
- `Socks5Server`: deadlines, relaying and half-close, the statistics counters, and the commands other than connecting and associating.
- `Text.LowerChar`: only the characters whose lower case is an ASCII letter are mapped; a key with any other letter is refused with or without it.
- Decoding of UTF-16 and of byte order marks; text is a sequence of Unicode scalar values.
- `ConfigValidate`: the warnings. `ConfigLoad`: what the upstream parser makes of the text, its addresses, resolvers, peers and MTU, is a parameter, and addresses are opaque.
- `UapiStats`: `time.Unix` itself; a handshake time is the pair of numbers given to it.
- Windows services, pipes and access control, the installer, the command line, logs and their redaction.
