/** The read-ahead adapter of internal/awg/netstack.go as a step machine: one step per
    channel operation of the reader goroutine, of `Read` and of `Close`.

    Buffers are numbered. `mem[b]` is the packet a buffer currently carries, that is
    `buf[:n]`. */
module BatchTunProtocol {
  import opened Basics

  type BufferId = nat
  type Packet = seq<byte>

  const BUFFER_SIZE: nat := 65535

  datatype Error = ErrClosed | Inner(code: int) | TooLarge(size: nat, room: nat)

  /** Where the reader goroutine stands. */
  datatype Reader =
    | WaitFree                                        // select: free or done
    | Reading(buf: BufferId)                          // inside inner.Read
    | Sending(buf: BufferId, err: Option<Error>)      // select: queue or done
    | Releasing(buf: BufferId, err: Option<Error>)    // nothing read: free <- p
    | Checking(err: Option<Error>)
    | ClosingQueue                                    // deferred close(queue)
    | Exited

  /** Where the single caller of `Read` stands; `n` packets are already placed. */
  datatype Consumer =
    | Idle
    | WaitFirst(limit: nat)
    | Holding(buf: BufferId, n: nat, limit: nat)
    | Returning(buf: BufferId, n: nat, limit: nat, fits: bool)
    | Polling(n: nat, limit: nat)

  datatype Outcome = Delivered(packet: Packet) | Refused(packet: Packet)

  /** What has been read, what `Read` took, and what a stopping reader dropped. */
  datatype History = History(
    produced: seq<Packet>,
    out: seq<Outcome>,
    lost: seq<Packet>,
    abandoned: seq<BufferId>,
    innerErr: Option<Error>)

  datatype State = State(
    depth: nat,
    free: seq<BufferId>,
    queue: seq<BufferId>,
    queueClosed: bool,
    mem: seq<Packet>,
    reader: Reader,
    consumer: Consumer,
    readErr: Option<Error>,
    innerClosed: bool,
    doneClosed: bool,
    log: History)

  datatype Label =
    | ReaderTake | ReaderStop
    | InnerReturns(count: nat, data: Packet, err: Option<Error>)
    | ReaderSend | ReaderDrop | ReaderRelease | ReaderCheck | ReaderCloseQueue
    | ReadCall(limit: nat) | RecvFirst | RecvClosed
    | Copy(room: nat) | Release | PollRecv | PollStop
    | CloseInner | CloseDone

  predicate IsReaderLabel(l: Label) {
    l.ReaderTake? || l.ReaderStop? || l.InnerReturns? || l.ReaderSend? || l.ReaderDrop?
    || l.ReaderRelease? || l.ReaderCheck? || l.ReaderCloseQueue?
  }

  function Init(depth: nat): State {
    State(depth, seq(depth, i => i), [], false, seq(depth, i => []), WaitFree, Idle, None,
          false, false, History([], [], [], [], None))
  }

  /** When a step can happen. A channel send waits for capacity, a receive for an element;
      a closed inner device answers every read with an error. */
  predicate Enabled(s: State, l: Label) {
    match l
    case ReaderTake => s.reader.WaitFree? && s.free != []
    case ReaderStop => s.reader.WaitFree? && s.doneClosed
    case InnerReturns(count, data, err) =>
      s.reader.Reading? && s.reader.buf < |s.mem| && |data| <= BUFFER_SIZE && (s.innerClosed ==> err.Some?)
    case ReaderSend => s.reader.Sending? && |s.queue| < s.depth
    case ReaderDrop => s.reader.Sending? && s.reader.buf < |s.mem| && s.doneClosed
    case ReaderRelease => s.reader.Releasing? && |s.free| < s.depth
    case ReaderCheck => s.reader.Checking?
    case ReaderCloseQueue => s.reader.ClosingQueue?
    case ReadCall(limit) => s.consumer.Idle? && limit >= 1
    case RecvFirst => s.consumer.WaitFirst? && s.queue != []
    case RecvClosed => s.consumer.WaitFirst? && s.queue == [] && s.queueClosed
    case Copy(room) => s.consumer.Holding? && s.consumer.buf < |s.mem|
    case Release => s.consumer.Returning? && s.consumer.buf < |s.mem| && |s.free| < s.depth
    case PollRecv => s.consumer.Polling? && s.queue != []
    case PollStop => s.consumer.Polling? && s.queue == []
    case CloseInner => true
    case CloseDone => s.innerClosed
  }

  function Apply(s: State, l: Label): State
    requires Enabled(s, l)
  {
    match l
    case ReaderTake => s.(reader := Reading(s.free[0]), free := s.free[1..])
    case ReaderStop => s.(reader := ClosingQueue)
    case InnerReturns(count, data, err) =>
      var p := s.reader.buf;
      var log := s.log.(innerErr := if err.Some? then err else s.log.innerErr);
      if count > 0 && |data| > 0 then
        s.(mem := s.mem[p := data], log := log.(produced := log.produced + [data]), reader := Sending(p, err))
      else
        s.(log := log, reader := Releasing(p, err))
    case ReaderSend => s.(queue := s.queue + [s.reader.buf], reader := Checking(s.reader.err))
    case ReaderDrop =>
      s.(log := s.log.(abandoned := s.log.abandoned + [s.reader.buf], lost := s.log.lost + [s.mem[s.reader.buf]]),
      reader := ClosingQueue)
    case ReaderRelease => s.(free := s.free + [s.reader.buf], reader := Checking(s.reader.err))
    case ReaderCheck =>
      if s.reader.err.Some? then s.(readErr := s.reader.err, reader := ClosingQueue) else s.(reader := WaitFree)
    case ReaderCloseQueue => s.(queueClosed := true, reader := Exited)
    case ReadCall(limit) => s.(consumer := WaitFirst(limit))
    case RecvFirst => s.(consumer := Holding(s.queue[0], 0, s.consumer.limit), queue := s.queue[1..])
    case RecvClosed => s.(consumer := Idle)
    case Copy(room) =>
      var Holding(p, n, limit) := s.consumer;
      var fits := |s.mem[p]| <= room;
      s.(log := s.log.(out := s.log.out + [if fits then Delivered(s.mem[p]) else Refused(s.mem[p])]),
      consumer := Returning(p, n, limit, fits))
    case Release =>
      var Returning(p, n, limit, fits) := s.consumer;
      s.(mem := s.mem[p := []], free := s.free + [p],
      consumer := if fits && n + 1 < limit then Polling(n + 1, limit) else Idle)
    case PollRecv => s.(consumer := Holding(s.queue[0], s.consumer.n, s.consumer.limit), queue := s.queue[1..])
    case PollStop => s.(consumer := Idle)
    case CloseInner => s.(innerClosed := true)
    case CloseDone => s.(doneClosed := true)
  }

  // --- Runs -----------------------------------------------------------------------------

  predicate Executable(s: State, ls: seq<Label>)
    decreases |ls|
  {
    ls == [] || (Enabled(s, ls[0]) && Executable(Apply(s, ls[0]), ls[1..]))
  }

  function Exec(s: State, ls: seq<Label>): State
    requires Executable(s, ls)
    decreases |ls|
  {
    if ls == [] then s else Exec(Apply(s, ls[0]), ls[1..])
  }

  /** Runs compose: a run extended by one enabled step is a run. */
  lemma {:induction false} ExecGrow(s: State, ls: seq<Label>, l: Label)
    requires Executable(s, ls) && Enabled(Exec(s, ls), l)
    ensures Executable(s, ls + [l])
    ensures Exec(s, ls + [l]) == Apply(Exec(s, ls), l)
    decreases |ls|
  {
    if ls == [] {
      assert ls + [l] == [l] && [l][1..] == [];
    } else {
      ExecGrow(Apply(s, ls[0]), ls[1..], l);
      assert (ls + [l])[1..] == ls[1..] + [l];
    }
  }

  // --- Ownership ------------------------------------------------------------------------

  function One(a: BufferId, b: BufferId): nat {
    if a == b then 1 else 0
  }

  /** How often buffer `b` occurs in a channel. */
  function Occurrences(q: seq<BufferId>, b: BufferId): nat {
    if q == [] then 0 else One(q[0], b) + Occurrences(q[1..], b)
  }

  function InReaderHand(r: Reader, b: BufferId): nat {
    if r.Reading? || r.Sending? || r.Releasing? then One(r.buf, b) else 0
  }

  function InConsumerHand(c: Consumer, b: BufferId): nat {
    if c.Holding? || c.Returning? then One(c.buf, b) else 0
  }

  /** The number of places buffer `b` is in. */
  function Places(s: State, b: BufferId): nat {
    Occurrences(s.free, b) + Occurrences(s.queue, b) + InReaderHand(s.reader, b) + InConsumerHand(s.consumer, b)
    + Occurrences(s.log.abandoned, b)
  }

  function HandCount(s: State): nat {
    (if s.reader.Reading? || s.reader.Sending? || s.reader.Releasing? then 1 else 0)
    + (if s.consumer.Holding? || s.consumer.Returning? then 1 else 0)
  }

  /** Each of the `depth` buffers is in exactly one place, and there are no others. */
  ghost predicate OwnedOnce(s: State) {
    && |s.free| + |s.queue| + HandCount(s) + |s.log.abandoned| == s.depth
    && forall b: BufferId :: Places(s, b) == if b < s.depth then 1 else 0
  }

  lemma {:induction false} OccurrencesSnoc(q: seq<BufferId>, p: BufferId, b: BufferId)
    ensures Occurrences(q + [p], b) == Occurrences(q, b) + One(p, b)
  {
    if q == [] {
      assert [p][1..] == [];
    } else {
      OccurrencesSnoc(q[1..], p, b);
      assert (q + [p])[1..] == q[1..] + [p];
    }
  }

  lemma {:induction false} OccurrencesIn(q: seq<BufferId>, b: BufferId)
    ensures b in q <==> Occurrences(q, b) > 0
  {
    if q != [] {
      OccurrencesIn(q[1..], b);
      assert b in q <==> b == q[0] || b in q[1..];
    }
  }

  lemma {:induction false} OccurrencesInit(depth: nat, b: BufferId)
    ensures Occurrences(seq(depth, i => i), b) == if b < depth then 1 else 0
  {
    if depth > 0 {
      OccurrencesInit(depth - 1, b);
      OccurrencesSnoc(seq(depth - 1, i => i), depth - 1, b);
      assert seq(depth, i => i) == seq(depth - 1, i => i) + [depth - 1];
    }
  }

  // --- Packet order ---------------------------------------------------------------------

  function At(mem: seq<Packet>, b: BufferId): Packet {
    if b < |mem| then mem[b] else []
  }

  function Payload(mem: seq<Packet>, q: seq<BufferId>): seq<Packet> {
    seq(|q|, i requires 0 <= i < |q| => At(mem, q[i]))
  }

  function Taken(out: seq<Outcome>): seq<Packet> {
    seq(|out|, i requires 0 <= i < |out| => out[i].packet)
  }

  /** Received by `Read` but not copied yet. */
  function InConsumer(s: State): seq<Packet> {
    if s.consumer.Holding? then [At(s.mem, s.consumer.buf)] else []
  }

  /** Read from the inner device but not queued yet. */
  function InReader(s: State): seq<Packet> {
    if s.reader.Sending? then [At(s.mem, s.reader.buf)] else []
  }

  ghost predicate Conserved(s: State) {
    s.log.produced == Taken(s.log.out) + InConsumer(s) + Payload(s.mem, s.queue) + InReader(s) + s.log.lost
  }

  /** What the flags and program counters say about each other. */
  ghost predicate Flags(s: State) {
    && |s.log.lost| == |s.log.abandoned| <= 1
    && (s.log.lost != [] ==> s.doneClosed && (s.reader.ClosingQueue? || s.reader.Exited?))
    && (s.queueClosed <==> s.reader.Exited?)
    && (s.doneClosed ==> s.innerClosed)
    && (forall k :: 0 <= k < |s.log.produced| ==> 0 < |s.log.produced[k]| <= BUFFER_SIZE)
    && (s.readErr.Some? ==> s.readErr == s.log.innerErr && (s.reader.ClosingQueue? || s.reader.Exited?))
    && (s.reader.Exited? || s.reader.ClosingQueue? ==> s.doneClosed || s.readErr.Some?)
    && (s.reader.Sending? || s.reader.Releasing? || s.reader.Checking? ==>
          s.reader.err.Some? ==> s.log.innerErr == s.reader.err)
    && (s.consumer.Holding? || s.consumer.Returning? || s.consumer.Polling? ==> s.consumer.n < s.consumer.limit)
    && (s.consumer.WaitFirst? ==> s.consumer.limit >= 1)
    && (s.consumer.Polling? ==> s.consumer.n >= 1)
  }

  ghost predicate Inv(s: State) {
    && s.depth >= 1 && |s.mem| == s.depth
    && OwnedOnce(s)
    && Conserved(s)
    && Flags(s)
  }

  lemma InitInv(depth: nat)
    requires depth >= 1
    ensures Inv(Init(depth))
  {
    var s := Init(depth);
    forall b: BufferId ensures Places(s, b) == if b < depth then 1 else 0 {
      OccurrencesInit(depth, b);
    }
    assert Payload(s.mem, s.queue) == [] && Taken(s.log.out) == [];
  }

  /** No goroutine holds a buffer that is queued or held by the other one. */
  predicate Apart(s: State) {
    && (s.reader.Reading? || s.reader.Sending? ==>
          s.reader.buf !in s.queue
          && (s.consumer.Holding? || s.consumer.Returning? ==> s.reader.buf != s.consumer.buf))
    && (s.consumer.Holding? || s.consumer.Returning? ==> s.consumer.buf !in s.queue)
  }

  lemma OwnedApart(s: State)
    requires OwnedOnce(s)
    ensures Apart(s)
    ensures s.reader.Reading? || s.reader.Sending? ==> s.reader.buf < s.depth
    ensures s.consumer.Holding? || s.consumer.Returning? ==> s.consumer.buf < s.depth
    ensures forall b :: b in s.queue ==> b < s.depth
  {
    forall b | b in s.queue ensures Occurrences(s.queue, b) > 0 && Places(s, b) == 1 {
      OccurrencesIn(s.queue, b);
    }
    if s.reader.Reading? || s.reader.Sending? { assert Places(s, s.reader.buf) > 0; }
    if s.consumer.Holding? || s.consumer.Returning? { assert Places(s, s.consumer.buf) > 0; }
  }

  /** Writing a buffer that is not queued leaves the queued packets alone. */
  lemma PayloadFrame(mem: seq<Packet>, q: seq<BufferId>, p: BufferId, data: Packet)
    requires p < |mem| && p !in q
    ensures Payload(mem[p := data], q) == Payload(mem, q)
  {
  }

  lemma PayloadHead(mem: seq<Packet>, q: seq<BufferId>)
    requires q != []
    ensures Payload(mem, q) == [At(mem, q[0])] + Payload(mem, q[1..])
  {
  }

  lemma ReaderKeepsPlaces(s: State, l: Label, b: BufferId)
    requires Enabled(s, l) && IsReaderLabel(l)
    ensures Places(Apply(s, l), b) == Places(s, b)
  {
    match l
    case ReaderSend => OccurrencesSnoc(s.queue, s.reader.buf, b);
    case ReaderDrop => OccurrencesSnoc(s.log.abandoned, s.reader.buf, b);
    case ReaderRelease => OccurrencesSnoc(s.free, s.reader.buf, b);
    case _ =>
  }

  lemma PlacesStep(s: State, l: Label, b: BufferId)
    requires Enabled(s, l)
    ensures Places(Apply(s, l), b) == Places(s, b)
  {
    if IsReaderLabel(l) {
      ReaderKeepsPlaces(s, l, b);
    } else if l.Release? {
      OccurrencesSnoc(s.free, s.consumer.buf, b);
    }
  }

  lemma OwnedStep(s: State, l: Label)
    requires Enabled(s, l) && OwnedOnce(s)
    ensures OwnedOnce(Apply(s, l))
  {
    forall b: BufferId ensures Places(Apply(s, l), b) == Places(s, b) {
      PlacesStep(s, l, b);
    }
  }

  lemma ConservedInner(s: State, l: Label)
    requires Enabled(s, l) && l.InnerReturns? && Apart(s) && Conserved(s) && s.log.lost == []
    ensures Conserved(Apply(s, l))
  {
    PayloadFrame(s.mem, s.queue, s.reader.buf, l.data);
    assert InConsumer(Apply(s, l)) == InConsumer(s);
  }

  lemma ConservedSend(s: State)
    requires Enabled(s, ReaderSend) && Conserved(s) && s.log.lost == []
    ensures Conserved(Apply(s, ReaderSend))
  {
    var t := Apply(s, ReaderSend);
    assert Payload(t.mem, t.queue) == Payload(s.mem, s.queue) + InReader(s);
  }

  lemma ConservedDrop(s: State)
    requires Enabled(s, ReaderDrop) && Conserved(s) && s.log.lost == []
    ensures Conserved(Apply(s, ReaderDrop))
  {
  }

  lemma ConservedReaderStep(s: State, l: Label)
    requires Enabled(s, l) && IsReaderLabel(l) && Apart(s) && Conserved(s)
    requires !s.reader.ClosingQueue? && !s.reader.Exited? ==> s.log.lost == []
    ensures Conserved(Apply(s, l))
  {
    if l.InnerReturns? {
      ConservedInner(s, l);
    } else if l.ReaderSend? {
      ConservedSend(s);
    } else if l.ReaderDrop? {
      ConservedDrop(s);
    }
  }

  lemma Regroup<T>(a: seq<T>, b: seq<T>, c: seq<T>, b': seq<T>, c': seq<T>)
    requires b + c == b' + c'
    ensures a + b + c == a + b' + c'
  {
    assert a + b + c == a + (b + c);
    assert a + b' + c' == a + (b' + c');
  }

  lemma ConservedReceive(s: State, l: Label)
    requires Enabled(s, l) && (l.RecvFirst? || l.PollRecv?) && Conserved(s)
    ensures Conserved(Apply(s, l))
  {
    var t := Apply(s, l);
    PayloadHead(s.mem, s.queue);
    assert InConsumer(s) == [] && InReader(t) == InReader(s) && t.log == s.log;
    Regroup(Taken(s.log.out), InConsumer(s), Payload(s.mem, s.queue), InConsumer(t), Payload(t.mem, t.queue));
  }

  lemma ConservedCopy(s: State, l: Label)
    requires Enabled(s, l) && l.Copy? && Conserved(s)
    ensures Conserved(Apply(s, l))
  {
    var t := Apply(s, l);
    assert Taken(t.log.out) + InConsumer(t) == Taken(s.log.out) + InConsumer(s);
  }

  lemma ConservedConsumerStep(s: State, l: Label)
    requires Enabled(s, l) && !IsReaderLabel(l) && Apart(s) && Conserved(s)
    ensures Conserved(Apply(s, l))
  {
    if l.RecvFirst? || l.PollRecv? {
      ConservedReceive(s, l);
    } else if l.Copy? {
      ConservedCopy(s, l);
    } else if l.Release? {
      PayloadFrame(s.mem, s.queue, s.consumer.buf, []);
      assert InReader(Apply(s, l)) == InReader(s);
    }
  }

  lemma FlagsReaderStep(s: State, l: Label)
    requires Enabled(s, l) && IsReaderLabel(l) && !l.InnerReturns? && Flags(s)
    ensures Flags(Apply(s, l))
  {
  }

  lemma FlagsInner(s: State, l: Label)
    requires Enabled(s, l) && l.InnerReturns? && Flags(s)
    ensures Flags(Apply(s, l))
  {
  }

  lemma FlagsStep(s: State, l: Label)
    requires Enabled(s, l) && Flags(s)
    ensures Flags(Apply(s, l))
  {
    if l.InnerReturns? {
      FlagsInner(s, l);
    } else if IsReaderLabel(l) {
      FlagsReaderStep(s, l);
    }
  }

  lemma InvStep(s: State, l: Label)
    requires Inv(s) && Enabled(s, l)
    ensures Inv(Apply(s, l))
  {
    OwnedStep(s, l);
    OwnedApart(s);
    FlagsStep(s, l);
    if IsReaderLabel(l) {
      ConservedReaderStep(s, l);
    } else {
      ConservedConsumerStep(s, l);
    }
  }

  lemma {:induction false} InvRun(s: State, ls: seq<Label>)
    requires Inv(s) && Executable(s, ls)
    ensures Inv(Exec(s, ls))
    decreases |ls|
  {
    if ls != [] {
      InvStep(s, ls[0]);
      InvRun(Apply(s, ls[0]), ls[1..]);
    }
  }

  // --- What every run keeps -------------------------------------------------------------

  lemma Reached(depth: nat, ls: seq<Label>)
    requires depth >= 1 && Executable(Init(depth), ls)
    ensures Inv(Exec(Init(depth), ls))
  {
    InitInv(depth);
    InvRun(Init(depth), ls);
  }

  /** Exclusive ownership: in every reachable state each buffer is in exactly one of `free`,
      `queue`, the reader's hand, the consumer's hand or, once `done` is closed, abandoned by
      the exiting reader; so what is read ahead never exceeds `depth`. */
  lemma BuffersHaveOneOwner(depth: nat, ls: seq<Label>)
    requires depth >= 1 && Executable(Init(depth), ls)
    ensures var s := Exec(Init(depth), ls);
      && OwnedOnce(s) && s.depth == depth
      && (!s.doneClosed ==> s.log.abandoned == [])
      && |s.log.abandoned| <= 1
      && |s.queue| + HandCount(s) <= depth
  {
    Reached(depth, ls);
    DepthFixed(Init(depth), ls);
  }

  lemma {:induction false} DepthFixed(s: State, ls: seq<Label>)
    requires Executable(s, ls)
    ensures Exec(s, ls).depth == s.depth
    decreases |ls|
  {
    if ls != [] {
      DepthFixed(Apply(s, ls[0]), ls[1..]);
    }
  }

  /** A send on either channel finds room at once, `queue` is still open when the reader sends on it
      (sending on a closed channel would panic), and what is read ahead never exceeds `depth`. */
  lemma SendsNeverBlock(depth: nat, ls: seq<Label>)
    requires depth >= 1 && Executable(Init(depth), ls)
    ensures var s := Exec(Init(depth), ls);
      && (s.reader.Sending? ==> Enabled(s, ReaderSend) && !s.queueClosed)
      && (s.reader.Releasing? ==> Enabled(s, ReaderRelease))
      && (s.consumer.Returning? ==> Enabled(s, Release))
      && |s.queue| + HandCount(s) <= depth
  {
    BuffersHaveOneOwner(depth, ls);
    Reached(depth, ls);
    var s := Exec(Init(depth), ls);
    OwnedApart(s);
  }

  /** Once `Read` holds its first packet some step of its own is always enabled: it never
      waits for the rest of a batch. */
  lemma ReadNeverWaitsInsideBatch(depth: nat, ls: seq<Label>)
    requires depth >= 1 && Executable(Init(depth), ls)
    ensures var s := Exec(Init(depth), ls);
      !s.consumer.Idle? && !s.consumer.WaitFirst? ==>
        Enabled(s, Copy(0)) || Enabled(s, Release) || Enabled(s, PollRecv) || Enabled(s, PollStop)
  {
    SendsNeverBlock(depth, ls);
    Reached(depth, ls);
    OwnedApart(Exec(Init(depth), ls));
  }

  /** No loss and FIFO order: what the inner device produced is what `Read` took (delivered or
      refused as too large), then the packet being copied, then the queue, then the reader's
      packet; only one packet can be missing, and only after `done` was closed. */
  lemma NoLossInOrder(depth: nat, ls: seq<Label>)
    requires depth >= 1 && Executable(Init(depth), ls)
    ensures var s := Exec(Init(depth), ls);
      && s.log.produced == Taken(s.log.out) + InConsumer(s) + Payload(s.mem, s.queue) + InReader(s) + s.log.lost
      && |s.log.lost| <= 1
      && (s.log.lost != [] ==> s.doneClosed)
  {
    Reached(depth, ls);
  }

  /** The closing error comes last: when `Read` can report it, every packet produced has been
      taken except one abandoned at `Close`, no reader step is possible any more, and the error
      is the one the inner device gave unless the adapter itself was closed. */
  lemma ClosingErrorComesLast(depth: nat, ls: seq<Label>, l: Label)
    requires depth >= 1 && Executable(Init(depth), ls) && Enabled(Exec(Init(depth), ls), RecvClosed)
    ensures var s := Exec(Init(depth), ls);
      && s.log.produced == Taken(s.log.out) + s.log.lost
      && (IsReaderLabel(l) ==> !Enabled(s, l))
      && (s.readErr.None? ==> s.doneClosed)
      && (s.readErr.Some? ==> s.readErr == s.log.innerErr)
  {
    Reached(depth, ls);
    var s := Exec(Init(depth), ls);
    assert Payload(s.mem, s.queue) == [];
  }

  // --- Shutdown -------------------------------------------------------------------------

  /** How many more steps the reader can take once the inner device and `done` are closed. */
  function Rank(r: Reader): nat {
    match r
    case Exited => 0
    case ClosingQueue => 1
    case Checking(err) => if err.Some? then 2 else 6
    case Sending(_, err) => if err.Some? then 3 else 7
    case Releasing(_, err) => if err.Some? then 3 else 7
    case Reading(_) => 4
    case WaitFree => 5
  }

  function ReaderSteps(ls: seq<Label>): nat {
    if ls == [] then 0 else (if IsReaderLabel(ls[0]) then 1 else 0) + ReaderSteps(ls[1..])
  }

  /** A reader that has not exited can always move after shutdown: no select it can be parked
      in stays blocked. `err` is what the closed device answers. */
  function ReaderMove(r: Reader): Label {
    match r
    case WaitFree => ReaderStop
    case Reading(_) => InnerReturns(0, [], Some(ErrClosed))
    case Sending(_, _) => ReaderDrop
    case Releasing(_, _) => ReaderRelease
    case Checking(_) => ReaderCheck
    case ClosingQueue => ReaderCloseQueue
    case Exited => CloseDone
  }

  lemma ReaderCanMove(s: State)
    requires Inv(s) && s.innerClosed && s.doneClosed && !s.reader.Exited?
    ensures IsReaderLabel(ReaderMove(s.reader)) && Enabled(s, ReaderMove(s.reader))
  {
    OwnedApart(s);
    if s.reader.Releasing? {
      assert Places(s, s.reader.buf) > 0;
    }
  }

  lemma RankStep(s: State, l: Label)
    requires Enabled(s, l) && s.innerClosed && s.doneClosed
    ensures var t := Apply(s, l);
      && t.innerClosed && t.doneClosed
      && (if IsReaderLabel(l) then Rank(t.reader) < Rank(s.reader) else t.reader == s.reader)
  {
  }

  /** Clean shutdown: from every reachable state in which both are closed, whatever the other
      goroutines do, the reader takes at most `Rank` (so at most seven) further steps, and as
      long as it has not exited it is able to take one. */
  lemma {:induction false} ReaderExits(s: State, ls: seq<Label>)
    requires Inv(s) && s.innerClosed && s.doneClosed && Executable(s, ls)
    ensures ReaderSteps(ls) + Rank(Exec(s, ls).reader) <= Rank(s.reader) <= 7
    ensures !Exec(s, ls).reader.Exited? ==> Enabled(Exec(s, ls), ReaderMove(Exec(s, ls).reader))
    decreases |ls|
  {
    if ls == [] {
      if !s.reader.Exited? { ReaderCanMove(s); }
    } else {
      RankStep(s, ls[0]);
      InvStep(s, ls[0]);
      ReaderExits(Apply(s, ls[0]), ls[1..]);
    }
  }

  /** ... and after that exit a blocked `Read` wakes: it drains the queue or reports the end. */
  lemma BlockedReadWakes(s: State)
    requires Inv(s) && s.reader.Exited? && s.consumer.WaitFirst?
    ensures Enabled(s, RecvFirst) || Enabled(s, RecvClosed)
  {
  }
}
