/** The adapter object of internal/awg/netstack.go: its channels as fields, `newBatchTun`,
    `Read`, `deliver` and the read loop, written against the step machine of BatchTunProtocol.

    The ghost field `run` is the run of the machine that the object has gone through; `Valid`
    ties every field to it. Between two channel operations other goroutines move: each such
    point is a call to `Elsewhere` with an arbitrary schedule. */
module BatchTunDevice {
  import opened Basics
  import opened BatchTunProtocol

  /** One turn of the read loop: which way its two selects go when both are ready, what the
      wrapped device returns, and what the other goroutines do in between. */
  datatype Turn = Turn(stop: bool, count: nat, data: Packet, err: Option<Error>, drop: bool,
                       before: seq<Label>, during: seq<Label>, after: seq<Label>)

  /** How one pass of the read loop ends: no buffer to read into yet, stopped by `done`, the packet dropped
      under `done`, ended by an error, or on to the next one. */
  datatype Pass = NoBuffer | Stopped | Dropped | Failed(err: Error) | Again

  /** The pass took a buffer, and so read from the wrapped device. */
  predicate Took(pass: Pass) {
    pass.Dropped? || pass.Failed? || pass.Again?
  }

  /** What fits of it into a buffer. */
  function Clipped(data: Packet): Packet {
    if |data| <= BUFFER_SIZE then data else data[..BUFFER_SIZE]
  }

  /** The packets the wrapped device returns in a turn: one, unless it counts none or it is empty. */
  function Packets(turn: Turn): seq<Packet> {
    if turn.count > 0 && turn.data != [] then [Clipped(turn.data)] else []
  }

  /** The packets read in the first passes of the loop, in order. */
  function PacketsOf(turns: seq<Turn>, passes: seq<Pass>): seq<Packet>
    requires |passes| <= |turns|
  {
    if passes == [] then []
    else
      var n := |passes| - 1;
      PacketsOf(turns, passes[..n]) + if Took(passes[n]) then Packets(turns[n]) else []
  }

  /** How a turn and its pass fit: a packet is dropped only if there is one and the select goes that way;
      the pass fails with the error of the wrapped device, or with ErrClosed if that is closed; and it
      goes on only if there was no error. */
  predicate Fits(turn: Turn, pass: Pass, innerClosed: bool) {
    match pass
    case NoBuffer => true
    case Stopped => true
    case Dropped => turn.drop && Packets(turn) != []
    case Failed(e) => if turn.err.Some? then e == turn.err.value else e == ErrClosed && innerClosed
    case Again => turn.err.None?
  }

  /** The passes of a loop that has not returned. */
  predicate GoneThrough(turns: seq<Turn>, passes: seq<Pass>, innerClosed: bool) {
    |passes| <= |turns| && forall i :: 0 <= i < |passes| ==> !Ends(passes[i]) && Fits(turns[i], passes[i], innerClosed)
  }

  /** ... and of one that has. */
  predicate Returned(turns: seq<Turn>, passes: seq<Pass>, innerClosed: bool) {
    && 0 < |passes| <= |turns|
    && var n := |passes| - 1;
       GoneThrough(turns, passes[..n], innerClosed) && Ends(passes[n]) && Fits(turns[n], passes[n], innerClosed)
  }

  /** One more of them, with what was read before it and after it. */
  lemma OneMorePass(turns: seq<Turn>, passes: seq<Pass>, pass: Pass, all: seq<Pass>, first: seq<Packet>, before: seq<Packet>,
                    after: seq<Packet>, wasClosed: bool, innerClosed: bool)
    requires |passes| < |turns| && all == passes + [pass] && (wasClosed ==> innerClosed)
    requires GoneThrough(turns, passes, wasClosed) && Fits(turns[|passes|], pass, innerClosed)
    requires before == first + PacketsOf(turns, passes)
    requires after == before + if Took(pass) then Packets(turns[|passes|]) else []
    ensures all[..|passes|] == passes && after == first + PacketsOf(turns, all)
    ensures if Ends(pass) then Returned(turns, all, innerClosed) else GoneThrough(turns, all, innerClosed)
    ensures Again !in passes && !pass.Again? ==> Again !in all
  {
    assert all[..|passes|] == passes;
  }

  /** The loop returns after it. */
  predicate Ends(pass: Pass) {
    pass.Stopped? || pass.Dropped? || pass.Failed?
  }

  /** A run that leaves no buffer to read into, and `done` open. */
  ghost predicate Starved(depth: nat, run: seq<Label>) {
    Executable(Init(depth), run) && Exec(Init(depth), run).free == [] && !Exec(Init(depth), run).doneClosed
  }

  /** `mid` is such a run between the two. */
  ghost predicate WasStarved(depth: nat, was: seq<Label>, mid: seq<Label>, now: seq<Label>) {
    was <= mid <= now && Starved(depth, mid)
  }

  predicate Theirs(readerMoves: bool, l: Label) {
    l.CloseInner? || l.CloseDone? || IsReaderLabel(l) == readerMoves
  }

  /** What one delivery leaves in the caller's buffer: the packet at `offset` and every other
      byte as it was, or, when it does not fit, nothing at all. */
  predicate Stored(before: seq<byte>, after: seq<byte>, offset: nat, o: Outcome, err: Option<Error>) {
    var p := o.packet;
    && offset <= |before|
    && match err
       case None => o.Delivered? && |p| <= |before| - offset
                    && after == before[..offset] + p + before[offset + |p|..]
       case Some(e) => o.Refused? && |p| > |before| - offset
                       && e == TooLarge(|p|, |before| - offset) && after == before
  }

  /** The bytes of all the caller's buffers. */
  ghost function Contents(bufs: seq<array<byte>>): seq<seq<byte>>
    reads bufs
  {
    seq(|bufs|, i requires 0 <= i < |bufs| reads bufs => bufs[i][..])
  }

  /** Slots `from .. n` hold the given outcomes, all delivered. */
  ghost predicate Filled(before: seq<seq<byte>>, after: seq<seq<byte>>, sizes: seq<int>, offset: nat, taken: seq<Outcome>,
                         from: nat, n: nat)
  {
    && from <= n <= |before| == |after| && n <= |sizes| && n - from <= |taken|
    && forall i :: from <= i < n ==>
        && Stored(before[i], after[i], offset, taken[i - from], None)
        && sizes[i] == |taken[i - from].packet| > 0
  }

  /** The two agree outside `from .. to`. */
  predicate Outside<T(==)>(was: seq<T>, now: seq<T>, from: nat, to: nat) {
    |was| == |now| && forall i :: 0 <= i < |was| && !(from <= i < to) ==> now[i] == was[i]
  }

  lemma OutsideMore<T>(was: seq<T>, before: seq<T>, now: seq<T>, n: nat)
    requires Outside(was, before, 1, n) && 1 <= n
    requires |now| == |before| && (now == before || (n < |before| && now == before[n := now[n]]))
    ensures Outside(was, now, 1, n + 1) && |before| == |was| && (n < |was| ==> before[n] == was[n])
  {
  }

  /** A first delivery into slot 0 followed by a filled batch from slot 1. */
  lemma FilledFrom(was: seq<seq<byte>>, now: seq<seq<byte>>, after: seq<seq<byte>>, lens0: seq<int>, lens: seq<int>,
                   sizes: seq<int>, offset: nat, o: Outcome, rest: seq<Outcome>, n: nat)
    requires |was| == |now| > 0 && now == was[0 := now[0]] && Stored(was[0], now[0], offset, o, None)
    requires Filled(now, after, sizes, offset, rest, 1, n) && Outside(now, after, 1, |rest| + 1)
    requires |lens0| > 0 && |o.packet| > 0 && lens == lens0[0 := |o.packet|] && Outside(lens, sizes, 1, n)
    ensures Filled(was, after, sizes, offset, [o] + rest, 0, n)
    ensures Outside(was, after, 0, |rest| + 1) && Outside(lens0, sizes, 0, n)
    ensures forall i :: 1 <= i < |was| ==> now[i] == was[i]
  {
    forall i | 1 <= i < n
      ensures ([o] + rest)[i] == rest[i - 1] && now[i] == was[i]
    {
    }
  }

  /** A first packet that was refused. */
  lemma OnlyRefused(was: seq<seq<byte>>, now: seq<seq<byte>>, sizes: seq<int>, offset: nat, o: Outcome, err: Option<Error>)
    requires |was| == |now| > 0 && now == was[0 := now[0]] && Stored(was[0], now[0], offset, o, err)
    ensures Filled(was, now, sizes, offset, [o], 0, 0) && Outside(was, now, 0, 1) && Outside(sizes, sizes, 0, 0)
  {
  }

  /** One more slot of a batch, delivered or refused. */
  lemma BatchGrows(was: seq<seq<byte>>, before: seq<seq<byte>>, after: seq<seq<byte>>, lens: seq<int>, sizesBefore: seq<int>,
                   sizes: seq<int>, offset: nat, taken: seq<Outcome>, o: Outcome, err: Option<Error>, n: nat)
    requires Filled(was, before, sizesBefore, offset, taken, 1, n) && |taken| == n - 1
    requires Outside(was, before, 1, n) && Outside(lens, sizesBefore, 1, n)
    requires n < |before| == |after| && after == before[n := after[n]] && n < |sizesBefore|
    requires Stored(before[n], after[n], offset, o, err)
    requires sizes == if err.None? then sizesBefore[n := |o.packet|] else sizesBefore
    requires err.None? ==> |o.packet| > 0
    ensures Outside(was, after, 1, n + 1) && Stored(was[n], after[n], offset, o, err)
    ensures var m := if err.None? then n + 1 else n;
      Filled(was, after, sizes, offset, taken + [o], 1, m) && Outside(lens, sizes, 1, m)
  {
    OutsideMore(was, before, after, n);
    OutsideMore(lens, sizesBefore, sizes, n);
    forall i | 1 <= i < n
      ensures after[i] == before[i] && sizes[i] == sizesBefore[i] && (taken + [o])[i - 1] == taken[i - 1]
    {
    }
  }

  class BatchTun {
    const batch: nat
    const depth: nat
    var free: seq<BufferId>
    var queue: seq<BufferId>
    var queueClosed: bool
    var mem: seq<Packet>
    var reader: Reader
    var consumer: Consumer
    var readErr: Option<Error>
    var innerClosed: bool
    var doneClosed: bool
    var log: History
    ghost var run: seq<Label>

    function View(): State
      reads this
    {
      State(depth, free, queue, queueClosed, mem, reader, consumer, readErr, innerClosed, doneClosed, log)
    }

    ghost predicate Valid()
      reads this
    {
      depth >= batch >= 1 && Executable(Init(depth), run) && Exec(Init(depth), run) == View()
    }

    /** A batch holds at least one packet and fits in the buffers. */
    constructor (batch: int, depth: int)
      ensures Valid() && run == []
      ensures this.batch == if batch < 1 then 1 else batch
      ensures this.depth == if depth < this.batch then this.batch else depth
    {
      var b := if batch < 1 then 1 else batch;
      var d := if depth < b then b else depth;
      this.batch, this.depth := b, d;
      free, queue, queueClosed, mem := seq(d, i => i), [], false, seq(d, i => []);
      reader, consumer, readErr, innerClosed, doneClosed := WaitFree, Idle, None, false, false;
      log, run := History([], [], [], [], None), [];
    }

    method Adopt(t: State)
      requires t.depth == depth
      modifies `free, `queue, `queueClosed, `mem, `reader, `consumer, `readErr, `innerClosed, `doneClosed, `log
      ensures View() == t
    {
      free, queue, queueClosed, mem, reader, consumer := t.free, t.queue, t.queueClosed, t.mem, t.reader, t.consumer;
      readErr, innerClosed, doneClosed, log := t.readErr, t.innerClosed, t.doneClosed, t.log;
    }

    /** Books the step that led from `s` to the present. */
    ghost method Book(s: State, l: Label)
      requires depth >= batch >= 1 && Executable(Init(depth), run) && Exec(Init(depth), run) == s
      requires Enabled(s, l) && Apply(s, l) == View()
      modifies this`run
      ensures Valid() && run == old(run) + [l]
    {
      ExecGrow(Init(depth), run, l);
      run := run + [l];
    }

    /** The other goroutines take whichever of the scheduled steps they can: the reader and
        `Close` while `Read` runs, the caller of `Read` and `Close` while the reader runs. */
    method Elsewhere(readerMoves: bool, schedule: seq<Label>)
      requires Valid()
      modifies this
      ensures Valid() && old(run) <= run
      ensures readerMoves ==> consumer == old(consumer) && log.out == old(log.out)
      ensures !readerMoves ==> reader == old(reader) && log.produced == old(log.produced) && readErr == old(readErr)
      ensures (old(innerClosed) ==> innerClosed) && (old(doneClosed) ==> doneClosed)
      ensures readerMoves && (consumer.Holding? || consumer.Returning?) ==>
                At(mem, consumer.buf) == At(old(mem), consumer.buf)
    {
      for i := 0 to |schedule|
        invariant Valid() && old(run) <= run
        invariant readerMoves ==> consumer == old(consumer) && log.out == old(log.out)
        invariant !readerMoves ==> reader == old(reader) && log.produced == old(log.produced) && readErr == old(readErr)
        invariant (old(innerClosed) ==> innerClosed) && (old(doneClosed) ==> doneClosed)
        invariant readerMoves && (consumer.Holding? || consumer.Returning?) ==>
            At(mem, consumer.buf) == At(old(mem), consumer.buf)
      {
        var l := schedule[i];
        if Theirs(readerMoves, l) && Enabled(View(), l) {
          ghost var s := View();
          Reached(depth, run);
          OthersFrame(readerMoves, s, l);
          Adopt(Apply(View(), l));
          Book(s, l);
        }
      }
    }

    // --- Read ---------------------------------------------------------------------------

    /** Copies the packet in hand into the caller's buffer at `offset`, or refuses it when it does
        not fit; either way the queue buffer goes back to the free list, after the copy. */
    method Deliver(bufs: seq<array<byte>>, sizes: array<int>, offset: nat, i: nat, between: seq<Label>)
      returns (err: Option<Error>, ghost o: Outcome)
      requires Valid() && consumer.Holding? && consumer.n == i
      requires i < |bufs| && i < sizes.Length && offset <= bufs[i].Length
      modifies this, sizes, bufs[i]
      ensures Valid() && old(run) <= run && log.out == old(log.out) + [o]
      ensures Stored(old(bufs[i][..]), bufs[i][..], offset, o, err)
      ensures err.None? ==> |o.packet| > 0
      ensures sizes[..] == if err.None? then old(sizes[..])[i := |o.packet|] else old(sizes[..])
      ensures consumer == if err.None? && i + 1 < old(consumer).limit then Polling(i + 1, old(consumer).limit) else Idle
    {
      Reached(depth, run);
      HeldNotEmpty(View());
      var packet := mem[consumer.buf];
      var room := bufs[i].Length - offset;
      err := Place(bufs[i], sizes, offset, i, packet);
      o := Settle(room, between);
    }

    /** `copy(dst, p.buf[:n])` and `sizes[i] = n`, or the error. */
    method Place(dst: array<byte>, sizes: array<int>, offset: nat, i: nat, packet: Packet) returns (err: Option<Error>)
      requires i < sizes.Length && offset <= dst.Length
      modifies dst, sizes
      ensures err == if |packet| <= dst.Length - offset then None else Some(TooLarge(|packet|, dst.Length - offset))
      ensures dst[..] == if err.None? then old(dst[..offset]) + packet + old(dst[..])[offset + |packet|..] else old(dst[..])
      ensures sizes[..] == if err.None? then old(sizes[..])[i := |packet|] else old(sizes[..])
    {
      if dst.Length - offset < |packet| {
        return Some(TooLarge(|packet|, dst.Length - offset));
      }
      forall k | 0 <= k < |packet| {
        dst[offset + k] := packet[k];
      }
      sizes[i] := |packet|;
      err := None;
    }

    /** The bookkeeping of `Deliver`: the packet is taken, the others move, the buffer goes back.
        The buffer is still owned in between, so nothing the reader does can touch the packet. */
    method Settle(room: nat, between: seq<Label>) returns (ghost o: Outcome)
      requires Valid() && consumer.Holding?
      modifies this
      ensures Valid() && old(run) <= run && log.out == old(log.out) + [o]
      ensures var p := At(old(mem), old(consumer).buf);
        o == (if |p| <= room then Delivered(p) else Refused(p))
      ensures consumer == if o.Delivered? && old(consumer).n + 1 < old(consumer).limit
                          then Polling(old(consumer).n + 1, old(consumer).limit) else Idle
    {
      o := Account(room);
      Elsewhere(true, between);
      GiveBack();
    }

    method Account(room: nat) returns (ghost o: Outcome)
      requires Valid() && consumer.Holding?
      modifies `log, `consumer, `run
      ensures Valid() && run == old(run) + [Copy(room)] && log.out == old(log.out) + [o]
      ensures var p := At(mem, old(consumer).buf);
        && o == (if |p| <= room then Delivered(p) else Refused(p))
        && consumer == Returning(old(consumer).buf, old(consumer).n, old(consumer).limit, |p| <= room)
    {
      ghost var s := View();
      Reached(depth, run);
      HeldNotEmpty(s);
      var p := consumer.buf;
      var fits := |mem[p]| <= room;
      o := if fits then Delivered(mem[p]) else Refused(mem[p]);
      log := log.(out := log.out + [if fits then Delivered(mem[p]) else Refused(mem[p])]);
      consumer := Returning(p, consumer.n, consumer.limit, fits);
      Book(s, Copy(room));
    }

    method GiveBack()
      requires Valid() && consumer.Returning?
      modifies `mem, `free, `consumer, `run
      ensures Valid() && run == old(run) + [Release]
      ensures consumer == if old(consumer).fits && old(consumer).n + 1 < old(consumer).limit
                          then Polling(old(consumer).n + 1, old(consumer).limit) else Idle
    {
      ghost var s := View();
      Reached(depth, run);
      ReturnHasRoom(s);
      var p := consumer.buf;
      mem := mem[p := []];
      free := free + [p];
      consumer := if consumer.fits && consumer.n + 1 < consumer.limit
                  then Polling(consumer.n + 1, consumer.limit) else Idle;
      Book(s, Release);
    }

    /** `p, ok := <-t.queue` with a packet there. */
    method Receive()
      requires Valid() && queue != [] && (consumer.WaitFirst? || consumer.Polling?)
      modifies this
      ensures Valid() && old(run) <= run && log.out == old(log.out)
      ensures consumer == Holding(old(queue)[0], if old(consumer).WaitFirst? then 0 else old(consumer).n, old(consumer).limit)
    {
      ghost var s := View();
      ghost var l := if consumer.WaitFirst? then RecvFirst else PollRecv;
      consumer := Holding(queue[0], if consumer.WaitFirst? then 0 else consumer.n, consumer.limit);
      queue := queue[1..];
      Book(s, l);
    }

    /** Leaving `Read`: nothing (more) is there. */
    method Leave()
      requires Valid() && queue == [] && (consumer.Polling? || (consumer.WaitFirst? && queueClosed))
      modifies this
      ensures Valid() && old(run) <= run && log.out == old(log.out)
      ensures consumer == Idle && queue == [] && queueClosed == old(queueClosed) && readErr == old(readErr)
    {
      ghost var s := View();
      ghost var l := if consumer.WaitFirst? then RecvClosed else PollStop;
      consumer := Idle;
      Book(s, l);
    }

    /** The blocking receive at the head of `Read`: it comes back when a packet is queued or the
        queue is closed, or not at all (`parked`) when `patience` turns of the others bring
        neither. */
    method AwaitFirst(limit: nat, others: nat -> seq<Label>, patience: nat) returns (parked: bool)
      requires Valid() && consumer.Idle? && limit >= 1
      modifies this
      ensures Valid() && old(run) <= run
      ensures consumer == WaitFirst(limit) && log.out == old(log.out)
      ensures parked <==> queue == [] && !queueClosed
    {
      ghost var s := View();
      consumer := WaitFirst(limit);
      Book(s, ReadCall(limit));
      var turn := 0;
      while queue == [] && !queueClosed && turn < patience
        invariant Valid() && old(run) <= run
        invariant consumer == WaitFirst(limit) && log.out == old(log.out)
      {
        Elsewhere(true, others(turn));
        turn := turn + 1;
      }
      parked := queue == [] && !queueClosed;
    }

    /** One turn of the batch loop: the others move, then a packet is taken if one is queued. */
    method PollOne(bufs: seq<array<byte>>, sizes: array<int>, offset: nat, n: nat, before: seq<Label>, between: seq<Label>)
      returns (found: bool, err: Option<Error>, ghost o: Outcome)
      requires Valid() && consumer.Polling? && consumer.n == n
      requires n < |bufs| && n < sizes.Length && offset <= bufs[n].Length
      requires forall i, j :: 0 <= i < j < |bufs| ==> bufs[i] != bufs[j]
      modifies this, sizes, bufs[n]
      ensures Valid() && old(run) <= run
      ensures !found ==> queue == [] && err.None? && consumer.Idle? && Contents(bufs) == old(Contents(bufs))
                         && log.out == old(log.out) && sizes[..] == old(sizes[..])
      ensures found ==>
          && log.out == old(log.out) + [o]
          && Contents(bufs) == old(Contents(bufs))[n := Contents(bufs)[n]]
          && Stored(old(Contents(bufs))[n], Contents(bufs)[n], offset, o, err)
          && sizes[..] == (if err.None? then old(sizes[..])[n := |o.packet|] else old(sizes[..]))
          && (err.None? ==> |o.packet| > 0)
          && consumer == if err.None? && n + 1 < old(consumer).limit then Polling(n + 1, old(consumer).limit) else Idle
    {
      err, o := None, Refused([]);
      Elsewhere(true, before);
      found := queue != [];
      if found {
        Receive();
        err, o := Deliver(bufs, sizes, offset, n, between);
      } else {
        Leave();
      }
    }

    /** The rest of a batch: whatever is already queued, without waiting, until the batch is full,
        the queue is found empty, or a packet does not fit. */
    method FillBatch(bufs: seq<array<byte>>, sizes: array<int>, offset: nat, limit: nat, others: nat -> seq<Label>)
      returns (n: nat, err: Option<Error>, ghost taken: seq<Outcome>)
      requires Valid() && 1 <= limit <= |bufs| && limit <= sizes.Length
      requires consumer == if 1 < limit then Polling(1, limit) else Idle
      requires forall i :: 0 <= i < limit ==> offset <= bufs[i].Length
      requires forall i, j :: 0 <= i < j < |bufs| ==> bufs[i] != bufs[j]
      modifies this, sizes, bufs
      ensures Valid() && old(run) <= run
      ensures 1 <= n <= limit && consumer.Idle? && (n < limit && err.None? ==> queue == [])
      ensures log.out == old(log.out) + taken && |taken| == if err.Some? then n else n - 1
      ensures Filled(old(Contents(bufs)), Contents(bufs), sizes[..], offset, taken, 1, n)
      ensures err.Some? ==> n < limit && Stored(old(Contents(bufs))[n], Contents(bufs)[n], offset, taken[n - 1], err)
      ensures Outside(old(Contents(bufs)), Contents(bufs), 1, |taken| + 1) && Outside(old(sizes[..]), sizes[..], 1, n)
    {
      n, err, taken := 1, None, [];
      ghost var was := Contents(bufs);
      ghost var lens := sizes[..];
      while n < limit
        invariant 1 <= n <= limit && err.None?
        invariant Valid() && old(run) <= run
        invariant consumer == if n < limit then Polling(n, limit) else Idle
        invariant log.out == old(log.out) + taken && |taken| == n - 1
        invariant Filled(was, Contents(bufs), sizes[..], offset, taken, 1, n)
        invariant Outside(was, Contents(bufs), 1, n) && Outside(lens, sizes[..], 1, n)
      {
        ghost var before, sizesBefore := Contents(bufs), sizes[..];
        var found;
        ghost var o;
        found, err, o := PollOne(bufs, sizes, offset, n, others(2 * n), others(2 * n + 1));
        if !found {
          return;
        }
        BatchGrows(was, before, Contents(bufs), lens, sizesBefore, sizes[..], offset, taken, o, err, n);
        taken := taken + [o];
        if err.Some? {
          return;
        }
        n := n + 1;
      }
    }

    method DeliverFirst(bufs: seq<array<byte>>, sizes: array<int>, offset: nat, limit: nat, between: seq<Label>)
      returns (err: Option<Error>, ghost o: Outcome)
      requires Valid() && consumer == WaitFirst(limit) && queue != [] && |bufs| > 0 && sizes.Length > 0
      requires offset <= bufs[0].Length
      requires forall i, j :: 0 <= i < j < |bufs| ==> bufs[i] != bufs[j]
      modifies this, sizes, bufs
      ensures Valid() && old(run) <= run && log.out == old(log.out) + [o]
      ensures Contents(bufs) == old(Contents(bufs))[0 := Contents(bufs)[0]]
      ensures Stored(old(Contents(bufs))[0], Contents(bufs)[0], offset, o, err) && (err.None? ==> |o.packet| > 0)
      ensures sizes[..] == if err.None? then old(sizes[..])[0 := |o.packet|] else old(sizes[..])
      ensures consumer == if err.None? && 1 < limit then Polling(1, limit) else Idle
    {
      Receive();
      err, o := Deliver(bufs, sizes, offset, 0, between);
    }

    /** `Read` from the moment the first packet is there. */
    method ReadQueued(bufs: seq<array<byte>>, sizes: array<int>, offset: nat, limit: nat, others: nat -> seq<Label>)
      returns (n: nat, err: Option<Error>, ghost taken: seq<Outcome>)
      requires Valid() && consumer == WaitFirst(limit) && queue != [] && 1 <= limit <= |bufs| && limit <= sizes.Length
      requires forall i :: 0 <= i < limit ==> offset <= bufs[i].Length
      requires forall i, j :: 0 <= i < j < |bufs| ==> bufs[i] != bufs[j]
      modifies this, sizes, bufs
      ensures Valid() && old(run) <= run
      ensures log.out == old(log.out) + taken && n <= limit && |taken| == if err.Some? then n + 1 else n
      ensures (err.None? ==> n >= 1) && consumer.Idle? && (0 < n < limit && err.None? ==> queue == [])
      ensures err.Some? ==> n < |bufs| && Stored(old(Contents(bufs))[n], Contents(bufs)[n], offset, taken[n], err)
      ensures Filled(old(Contents(bufs)), Contents(bufs), sizes[..], offset, taken, 0, n)
      ensures Outside(old(Contents(bufs)), Contents(bufs), 0, |taken|) && Outside(old(sizes[..]), sizes[..], 0, n)
    {
      ghost var o;
      ghost var was, lens0 := Contents(bufs), sizes[..];
      err, o := DeliverFirst(bufs, sizes, offset, limit, others(0));
      if err.Some? {
        OnlyRefused(was, Contents(bufs), lens0, offset, o, err);
        return 0, err, [o];
      }
      n, err, taken := ReadRest(bufs, sizes, offset, limit, others, was, lens0, o);
    }

    /** The other packets of a batch whose first one, `o`, was delivered. */
    method ReadRest(bufs: seq<array<byte>>, sizes: array<int>, offset: nat, limit: nat, others: nat -> seq<Label>,
                    ghost was: seq<seq<byte>>, ghost lens0: seq<int>, ghost o: Outcome)
      returns (n: nat, err: Option<Error>, ghost taken: seq<Outcome>)
      requires Valid() && 1 <= limit <= |bufs| && limit <= sizes.Length
      requires consumer == if 1 < limit then Polling(1, limit) else Idle
      requires forall i :: 0 <= i < limit ==> offset <= bufs[i].Length
      requires forall i, j :: 0 <= i < j < |bufs| ==> bufs[i] != bufs[j]
      requires |was| == |bufs| && Contents(bufs) == was[0 := Contents(bufs)[0]] && Stored(was[0], Contents(bufs)[0], offset, o, None)
      requires |lens0| == sizes.Length && |o.packet| > 0 && sizes[..] == lens0[0 := |o.packet|]
      modifies this, sizes, bufs
      ensures Valid() && old(run) <= run
      ensures [o] <= taken && log.out == old(log.out) + taken[1..] && 1 <= n <= limit && |taken| == if err.Some? then n + 1 else n
      ensures consumer.Idle? && (n < limit && err.None? ==> queue == [])
      ensures err.Some? ==> n < |bufs| && Stored(was[n], Contents(bufs)[n], offset, taken[n], err)
      ensures Filled(was, Contents(bufs), sizes[..], offset, taken, 0, n)
      ensures Outside(was, Contents(bufs), 0, |taken|) && Outside(lens0, sizes[..], 0, n)
    {
      ghost var now, lens, rest := Contents(bufs), sizes[..], [];
      n, err, rest := FillBatch(bufs, sizes, offset, limit, others);
      taken := [o] + rest;
      FilledFrom(was, now, Contents(bufs), lens0, lens, sizes[..], offset, o, rest, n);
    }

    /** Delivers at least one and at most `batch` packets. It waits for the first one only; what
        it took are the next outcomes of the machine, in order, and the bytes of packet `i` are
        exactly those at `offset` in `bufs[i]`. `others` is what the other goroutines do at each
        point in between; `parked` says the call is still waiting when the schedule ends. */
    method Read(bufs: seq<array<byte>>, sizes: array<int>, offset: nat, others: nat -> seq<Label>, patience: nat)
      returns (n: nat, err: Option<Error>, parked: bool, ghost taken: seq<Outcome>)
      requires Valid() && consumer.Idle?
      requires forall i :: 0 <= i < Min(Min(|bufs|, sizes.Length), batch) ==> offset <= bufs[i].Length
      requires forall i, j :: 0 <= i < j < |bufs| ==> bufs[i] != bufs[j]
      modifies this, sizes, bufs
      ensures Valid() && old(run) <= run
      ensures log.out == old(log.out) + taken && n <= |taken| <= n + 1
      ensures var limit := Min(Min(|bufs|, sizes.Length), batch);
        && n <= limit
        && (limit >= 1 && err.None? && !parked ==> n >= 1)
        && (limit < 1 ==> n == 0 && err.None? && !parked && run == old(run))
        // A short batch means the queue was found empty, not that Read gave up early.
        && (0 < n < limit && err.None? ==> queue == [])
        && (parked ==> n == 0 && err.None? && taken == [] && consumer == WaitFirst(limit) && queue == [] && !queueClosed)
        && (!parked ==> consumer.Idle?)
      // An error is a refused packet, or the end of a drained queue.
      ensures |taken| == n + 1 ==> n < |bufs| && err.Some?
                                   && Stored(old(Contents(bufs))[n], Contents(bufs)[n], offset, taken[n], err)
      ensures err.Some? && |taken| == n ==>
                n == 0 && queue == [] && queueClosed && err == Some(if readErr.Some? then readErr.value else ErrClosed)
      ensures Filled(old(Contents(bufs)), Contents(bufs), sizes[..], offset, taken, 0, n)
      ensures forall i :: |taken| <= i < |bufs| ==> Contents(bufs)[i] == old(Contents(bufs))[i]
      ensures forall k :: n <= k < sizes.Length ==> sizes[..][k] == old(sizes[..])[k]
    {
      n, err, parked, taken := 0, None, false, [];
      var limit := Min(Min(|bufs|, sizes.Length), batch);
      if limit < 1 {
        return;
      }
      parked := AwaitFirst(limit, others, patience);
      if parked {
        return;
      }
      if queue == [] {
        Leave();
        err := Some(if readErr.Some? then readErr.value else ErrClosed);
        return;
      }
      n, err, taken := ReadQueued(bufs, sizes, offset, limit, (k: nat) => others(patience + k));
    }
  
    // --- The read loop ------------------------------------------------------------------

    /** The packets of the passes so far were added to those produced before, and the last error is the
        one that ended the loop, if any did. */
    ghost predicate Accounts(turns: seq<Turn>, passes: seq<Pass>, first: seq<Packet>, firstErr: Option<Error>)
      requires |passes| <= |turns|
      reads `log, `readErr
    {
      && log.produced == first + PacketsOf(turns, passes)
      && readErr == if passes != [] && passes[|passes| - 1].Failed? then Some(passes[|passes| - 1].err) else firstErr
    }

    /** `readLoop`: keeps one reader parked inside the wrapped device. It comes back when it has
        closed the queue, or is still `parked` (waiting for a free buffer, or for the next turn)
        when the schedule ends. What it has read is exactly what the wrapped device returned in the
        turns that found a buffer, in order; it goes on after every turn but the last one, and the
        error it leaves is the one that ended it. */
    method ReadLoop(turns: seq<Turn>) returns (parked: bool, passes: seq<Pass>, ghost starved: seq<Label>)
      requires Valid() && reader == WaitFree
      modifies this
      ensures Valid() && old(run) <= run
      ensures if parked then reader == WaitFree && |passes| == |turns| && GoneThrough(turns, passes, innerClosed)
              else reader == Exited && queueClosed && Returned(turns, passes, innerClosed)
      ensures Accounts(turns, passes, old(log.produced), old(readErr))
      ensures old(innerClosed) ==> Again !in passes
      // It reads nothing in a turn only for want of a buffer, or once done is closed.
      ensures NoBuffer in passes ==> WasStarved(depth, old(run), starved, run)
      ensures !parked && !passes[|passes| - 1].Failed? ==> doneClosed
    {
      parked, passes, starved := ReadTurns(turns);
      if !parked {
        CloseQueue();
      }
    }

    /** Its loop. */
    method ReadTurns(turns: seq<Turn>) returns (parked: bool, passes: seq<Pass>, ghost starved: seq<Label>)
      requires Valid() && reader == WaitFree
      modifies this
      ensures Valid() && old(run) <= run && reader == if parked then WaitFree else ClosingQueue
      ensures if parked then |passes| == |turns| && GoneThrough(turns, passes, innerClosed) else Returned(turns, passes, innerClosed)
      ensures Accounts(turns, passes, old(log.produced), old(readErr))
      ensures old(innerClosed) ==> Again !in passes
      ensures NoBuffer in passes ==> WasStarved(depth, old(run), starved, run)
      ensures !parked && !passes[|passes| - 1].Failed? ==> doneClosed
    {
      parked, passes, starved := true, [], run;
      for i := 0 to |turns|
        invariant Valid() && old(run) <= run && reader == WaitFree && |passes| == i && parked
        invariant GoneThrough(turns, passes, innerClosed) && Accounts(turns, passes, old(log.produced), old(readErr))
        invariant old(innerClosed) ==> innerClosed && Again !in passes
        invariant NoBuffer in passes ==> WasStarved(depth, old(run), starved, run)
      {
        passes, starved := NextPass(turns, passes, old(log.produced), old(readErr), old(run), starved);
        if Ends(passes[i]) {
          parked := false;
          return;
        }
      }
    }

    method NextPass(turns: seq<Turn>, passes: seq<Pass>, ghost first: seq<Packet>, ghost firstErr: Option<Error>,
                    ghost start: seq<Label>, ghost starved: seq<Label>)
      returns (all: seq<Pass>, ghost starved': seq<Label>)
      requires Valid() && reader == WaitFree && |passes| < |turns| && GoneThrough(turns, passes, innerClosed)
      requires Accounts(turns, passes, first, firstErr)
      requires start <= run && (NoBuffer in passes ==> WasStarved(depth, start, starved, run))
      modifies this
      ensures Valid() && old(run) <= run && |all| == |passes| + 1 && passes == all[..|passes|]
      ensures reader == if Ends(all[|passes|]) then ClosingQueue else WaitFree
      ensures if Ends(all[|passes|]) then Returned(turns, all, innerClosed) else GoneThrough(turns, all, innerClosed)
      ensures Accounts(turns, all, first, firstErr)
      ensures old(innerClosed) ==> innerClosed && (Again !in passes ==> Again !in all)
      ensures NoBuffer in all ==> WasStarved(depth, start, starved', run)
      ensures Ends(all[|passes|]) && !all[|passes|].Failed? ==> doneClosed
    {
      ghost var before, wasClosed := log.produced, innerClosed;
      var pass := ReadTurn(turns[|passes|]);
      all := passes + [pass];
      OneMorePass(turns, passes, pass, all, first, before, log.produced, wasClosed, innerClosed);
      starved' := if pass.NoBuffer? then run else starved;
    }

    /** One pass through the body of the loop. It reads nothing only if no buffer is free, or `done` is
        closed and the select goes that way. */
    method ReadTurn(turn: Turn) returns (pass: Pass)
      requires Valid() && reader == WaitFree
      modifies this
      ensures Valid() && old(run) <= run && (old(innerClosed) ==> innerClosed && !pass.Again?)
      ensures reader == if Ends(pass) then ClosingQueue else WaitFree
      ensures pass.NoBuffer? ==> free == [] && !doneClosed
      ensures pass.Stopped? ==> doneClosed && (turn.stop || free == [])
      ensures pass.Dropped? ==> doneClosed
      ensures Fits(turn, pass, innerClosed)
      ensures log.produced == old(log.produced) + if Took(pass) then Packets(turn) else []
      ensures readErr == if pass.Failed? then Some(pass.err) else old(readErr)
    {
      Elsewhere(false, turn.before);
      if free == [] && !doneClosed {
        return NoBuffer;
      }
      var stopped := TakeFree(turn.stop);
      if stopped {
        return Stopped;
      }
      pass := ReadPacket(turn);
    }

    /** The rest of the pass, with a free buffer in hand. */
    method ReadPacket(turn: Turn) returns (pass: Pass)
      requires Valid() && reader.Reading?
      modifies this
      ensures Valid() && old(run) <= run && (old(innerClosed) ==> innerClosed && !pass.Again?)
      ensures reader == if Ends(pass) then ClosingQueue else WaitFree
      ensures Took(pass) && Fits(turn, pass, innerClosed)
      ensures pass.Dropped? <==> doneClosed && turn.drop && Packets(turn) != []
      ensures log.produced == old(log.produced) + Packets(turn)
      ensures readErr == if pass.Failed? then Some(pass.err) else old(readErr)
    {
      var err := Fetch(turn);
      var dropped := HandOver(turn.drop);
      if dropped {
        return Dropped;
      }
      var stopped := CheckError();
      return if stopped then Failed(err.value) else Again;
    }

    /** The read itself, into the buffer in hand. The wrapped device copies as much as fits, and answers
        with an error once it is closed. */
    method Fetch(turn: Turn) returns (err: Option<Error>)
      requires Valid() && reader.Reading?
      modifies this
      ensures Valid() && old(run) <= run && (old(innerClosed) ==> innerClosed && err.Some?)
      ensures err == turn.err || (turn.err.None? && err == Some(ErrClosed) && innerClosed)
      ensures reader == if Packets(turn) != [] then Sending(old(reader).buf, err) else Releasing(old(reader).buf, err)
      ensures log.produced == old(log.produced) + Packets(turn) && readErr == old(readErr)
    {
      Elsewhere(false, turn.during);
      err := if innerClosed && turn.err.None? then Some(ErrClosed) else turn.err;
      ReadInner(turn.count, Clipped(turn.data), err);
      Elsewhere(false, turn.after);
    }

    /** `select { case p = <-t.free: case <-t.done: return }`, with one of them ready. */
    method TakeFree(stop: bool) returns (stopped: bool)
      requires Valid() && reader == WaitFree && (free != [] || doneClosed)
      modifies `free, `reader, `run
      ensures Valid() && old(run) <= run
      ensures stopped <==> doneClosed && (stop || old(free) == [])
      ensures if stopped then reader == ClosingQueue && free == old(free) else reader == Reading(old(free)[0])
    {
      ghost var s := View();
      stopped := doneClosed && (stop || free == []);
      if stopped {
        reader := ClosingQueue;
        Book(s, ReaderStop);
      } else {
        reader := Reading(free[0]);
        free := free[1..];
        Book(s, ReaderTake);
      }
    }

    method ReadInner(count: nat, data: Packet, err: Option<Error>)
      requires Valid() && reader.Reading? && |data| <= BUFFER_SIZE && (innerClosed ==> err.Some?)
      modifies `mem, `reader, `log, `run
      ensures Valid() && old(run) <= run
      ensures var p := old(reader).buf;
        && reader == (if count > 0 && |data| > 0 then Sending(p, err) else Releasing(p, err))
        && log.produced == old(log.produced) + (if count > 0 && |data| > 0 then [data] else [])
    {
      ghost var s := View();
      Reached(depth, run);
      OwnedApart(s);
      var p := reader.buf;
      var got := count > 0 && |data| > 0;
      if err.Some? {
        log := log.(innerErr := err);
      }
      if got {
        mem := mem[p := data];
        log := log.(produced := log.produced + [data]);
      }
      reader := if got then Sending(p, err) else Releasing(p, err);
      Book(s, InnerReturns(count, data, err));
    }

    /** `select { case t.queue <- p: case <-t.done: return }`, or `t.free <- p`: neither can wait. */
    method HandOver(drop: bool) returns (stopped: bool)
      requires Valid() && (reader.Sending? || reader.Releasing?)
      modifies `queue, `free, `reader, `log, `run
      ensures Valid() && old(run) <= run
      ensures stopped <==> old(reader).Sending? && doneClosed && drop
      ensures if stopped then reader == ClosingQueue else reader == Checking(old(reader).err)
      ensures log.produced == old(log.produced)
      ensures old(reader).Sending? && !stopped ==> queue == old(queue) + [old(reader).buf] && free == old(free)
      ensures old(reader).Releasing? ==> !stopped && free == old(free) + [old(reader).buf] && queue == old(queue)
    {
      ghost var s := View();
      Reached(depth, run);
      SendsNeverBlock(depth, run);
      OwnedApart(s);
      var p := reader.buf;
      stopped := reader.Sending? && doneClosed && drop;
      if stopped {
        log := log.(abandoned := log.abandoned + [p], lost := log.lost + [mem[p]]);
        reader := ClosingQueue;
        Book(s, ReaderDrop);
      } else if reader.Sending? {
        queue := queue + [p];
        reader := Checking(reader.err);
        Book(s, ReaderSend);
      } else {
        free := free + [p];
        reader := Checking(reader.err);
        Book(s, ReaderRelease);
      }
    }

    method CheckError() returns (stopped: bool)
      requires Valid() && reader.Checking?
      modifies `readErr, `reader, `run
      ensures Valid() && old(run) <= run
      ensures stopped <==> old(reader).err.Some?
      ensures readErr == if stopped then old(reader).err else old(readErr)
      ensures reader == if stopped then ClosingQueue else WaitFree
    {
      ghost var s := View();
      stopped := reader.err.Some?;
      if stopped {
        readErr := reader.err;
      }
      reader := if stopped then ClosingQueue else WaitFree;
      Book(s, ReaderCheck);
    }

    /** `defer close(t.queue)`. */
    method CloseQueue()
      requires Valid() && reader == ClosingQueue
      modifies `queueClosed, `reader, `run
      ensures Valid() && old(run) <= run && queueClosed && reader == Exited
    {
      ghost var s := View();
      queueClosed := true;
      reader := Exited;
      Book(s, ReaderCloseQueue);
    }

    // --- Close --------------------------------------------------------------------------

    /** `Close`: closes the wrapped device, then `done`, then waits for the reader. The wait ends
        in every state the reader can be in, whatever the caller of `Read` does meanwhile. */
    method Close(others: nat -> seq<Label>)
      requires Valid()
      modifies this
      ensures Valid() && old(run) <= run
      ensures innerClosed && doneClosed && reader == Exited && queueClosed
    {
      ghost var s := View();
      innerClosed := true;
      Book(s, CloseInner);
      s := View();
      doneClosed := true;
      Book(s, CloseDone);
      while reader != Exited
        invariant Valid() && old(run) <= run && innerClosed && doneClosed
        decreases Rank(reader)
      {
        Elsewhere(false, others(Rank(reader)));
        AdvanceReader();
      }
      Reached(depth, run);
    }

    /** The step a reader that is shutting down can always take. */
    method AdvanceReader()
      requires Valid() && innerClosed && doneClosed && reader != Exited
      modifies this
      ensures Valid() && old(run) <= run && innerClosed && doneClosed && Rank(reader) < Rank(old(reader))
    {
      ghost var s := View();
      Reached(depth, run);
      ReaderCanMove(s);
      var l := ReaderMove(reader);
      RankStep(s, l);
      DepthStep(s, l);
      Adopt(Apply(View(), l));
      Book(s, l);
    }
  }

  lemma DepthStep(s: State, l: Label)
    requires Enabled(s, l)
    ensures Apply(s, l).depth == s.depth
  {
  }

  /** A step of the others leaves this goroutine where it is, and leaves the packet it holds. */
  lemma OthersFrame(readerMoves: bool, s: State, l: Label)
    requires Inv(s) && Enabled(s, l) && Theirs(readerMoves, l)
    ensures var t := Apply(s, l);
      && t.depth == s.depth
      && (readerMoves ==> t.consumer == s.consumer && t.log.out == s.log.out)
      && (!readerMoves ==> t.reader == s.reader && t.log.produced == s.log.produced && t.readErr == s.readErr)
      && (s.innerClosed ==> t.innerClosed) && (s.doneClosed ==> t.doneClosed)
      && (readerMoves && (s.consumer.Holding? || s.consumer.Returning?) ==>
            At(t.mem, s.consumer.buf) == At(s.mem, s.consumer.buf))
  {
    OwnedApart(s);
  }

  /** A packet that left the queue is never empty. */
  lemma HeldNotEmpty(s: State)
    requires Inv(s) && s.consumer.Holding?
    ensures s.consumer.buf < |s.mem|
    ensures 0 < |s.mem[s.consumer.buf]| <= BUFFER_SIZE
  {
    OwnedApart(s);
    var k := |Taken(s.log.out)|;
    assert s.log.produced[k] == s.mem[s.consumer.buf];
  }

  lemma ReturnHasRoom(s: State)
    requires Inv(s) && s.consumer.Returning?
    ensures |s.free| < s.depth && s.consumer.buf < |s.mem|
  {
    OwnedApart(s);
  }
}
