/** The per-connection state machine of the multi-reactor echo server's Handler, as
    functions on its whole state: READING, PROCESSING and SENDING, the 1024-byte buffer,
    the selection key, the socket and the Processer tasks handed to the worker pool.
    The class Handler (module MultiThreadEchoServer) is proved to follow these functions
    step by step; the lemmas here state what the steps promise. */
module Connection {
  import opened Buffers
  import opened Channels

  datatype Phase = Reading | Processing | Sending

  /** What a handler's behaviour depends on. `pending` counts the Processer tasks submitted
      to the worker pool for this connection that have not run yet. */
  datatype Conn = Conn(state: Phase, buf: Buf, key: Key, chan: Chan, pending: nat)

  /** What escapes a call: nothing, an IOException, or an unchecked exception
      (RejectedExecutionException from a shut-down pool, CancelledKeyException from a
      cancelled key). */
  datatype Raised = Nothing | IOError | Unchecked

  datatype Outcome = Outcome(conn: Conn, raised: Raised)

  /** The state of a handler just built on the open channel `ch`: READING, a fresh clear
      1024-byte buffer, registered for read readiness, no task pending. */
  function Initial(ch: Chan): (c: Conn)
    requires ch.open
    ensures Inv(c) && c.state == Reading && c.buf.IsClear() && c.buf.position == 0
    ensures c.key == Key(OpRead, true) && c.chan == ch && c.pending == 0
  {
    Conn(Reading, Allocated(CAPACITY), Key(OpRead, true), ch, 0)
  }

  /** The invariant every reachable handler state keeps:
      - the buffer is a valid 1024-byte buffer;
      - the key is registered exactly as long as the socket is open;
      - at most one Processer task is pending, and only while PROCESSING;
      - while READING the buffer is clear and the key waits for read readiness;
      - while PROCESSING the key still waits for read readiness;
      - while SENDING on a live key, the key waits for write readiness. */
  predicate Inv(c: Conn)
  {
    && c.buf.Valid() && |c.buf.data| == CAPACITY
    && c.key.valid == c.chan.open
    && c.pending <= 1 && (c.pending == 1 ==> c.state == Processing)
    && (c.state == Reading ==> c.buf.IsClear())
    && (c.state != Sending ==> c.key.interest == OpRead)
    && (c.state == Sending && c.key.valid ==> c.key.interest == OpWrite)
  }

  /** `close()`: cancel the key, close the socket. Nothing else changes. */
  function CloseStep(c: Conn): (r: Conn)
    ensures !r.key.valid && !r.chan.open
    ensures r.state == c.state && r.buf == c.buf && r.pending == c.pending
    ensures r.key.interest == c.key.interest
    ensures r.chan.received == c.chan.received && r.chan.sent == c.chan.sent
  {
    c.(key := c.key.(valid := false), chan := c.chan.(open := false))
  }

  /** `read()`: one socket read into the buffer. More than zero bytes: the state becomes
      PROCESSING and one Processer is submitted (a shut-down pool rejects it with an
      unchecked exception, after the state has changed); end of stream: close; zero
      bytes: nothing. An IOException from the socket propagates to the caller. */
  function ReadOp(c: Conn, incoming: ReadOutcome, poolShutdown: bool): (r: Outcome)
    requires c.buf.Valid()
    ensures r.raised == IOError <==> !c.chan.open || (c.buf.Remaining() > 0 && incoming.ReadFault?)
    ensures r.raised == IOError ==> r.conn == c
    ensures r.raised == Unchecked ==> poolShutdown && r.conn.state == Processing && r.conn.pending == c.pending
    ensures r.conn.pending == c.pending + 1 <==>
              c.chan.open && c.buf.Remaining() > 0 && incoming.Arrived? && |incoming.bytes| > 0 && !poolShutdown
    ensures r.conn.pending == c.pending || r.conn.pending == c.pending + 1
    ensures c.chan.open && c.buf.Remaining() > 0 && incoming.Arrived? && |incoming.bytes| > 0 ==>
              r.conn.state == Processing && (r.raised == Unchecked <==> poolShutdown)
    ensures r.conn.state == c.state || r.conn.state == Processing
    ensures !(c.chan.open && c.buf.Remaining() > 0 && incoming.Arrived? && |incoming.bytes| > 0) ==>
              r.conn.state == c.state
    ensures r.conn.chan.open <==> c.chan.open && !(c.buf.Remaining() > 0 && incoming.EndOfStream?)
    ensures r.conn.chan.sent == c.chan.sent && |r.conn.buf.data| == |c.buf.data|
    ensures r.conn.buf.data[..c.buf.position] == c.buf.data[..c.buf.position]
  {
    var rr := ReadEffect(c.chan, c.buf, incoming);
    var c1 := c.(chan := rr.chan, buf := rr.buf);
    if rr.result.IoFailure? then Outcome(c1, IOError)
    else if rr.result.value > 0 then
      if poolShutdown then Outcome(c1.(state := Processing), Unchecked)
      else Outcome(c1.(state := Processing, pending := c.pending + 1), Nothing)
    else if rr.result.value == -1 then Outcome(CloseStep(c1), Nothing)
    else Outcome(c1, Nothing)
  }

  /** `send()`: flip the buffer, write once; if nothing remains, go back to READING with
      read interest and a cleared buffer. The flip happens on every call. */
  function SendOp(c: Conn, room: WriteOutcome): (r: Outcome)
    requires c.buf.Valid()
    ensures r.raised == IOError <==> !c.chan.open || (room.WriteFault? && c.buf.position > 0)
    ensures r.conn.chan.received == c.chan.received && r.conn.pending == c.pending
    ensures c.chan.sent <= r.conn.chan.sent <= c.chan.sent + c.buf.data[..c.buf.position]
    ensures r.raised != IOError && (room.Room? ==> room.k >= c.buf.position) ==>
              && r.conn.state == Reading
              && r.conn.chan.sent == c.chan.sent + c.buf.data[..c.buf.position]
              && (r.raised == Nothing <==> c.key.valid)
              && (c.key.valid ==> r.conn.buf.IsClear() && r.conn.key == c.key.(interest := OpRead))
    ensures r.raised != IOError && room.Room? && room.k < c.buf.position ==>
              && r.raised == Nothing && r.conn.state == c.state && r.conn.key == c.key
              && r.conn.buf == Buf(c.buf.data, room.k, c.buf.position)
  {
    var b1 := Flipped(c.buf);
    var wr := WriteEffect(c.chan, b1, room);
    var c1 := c.(buf := wr.buf, chan := wr.chan);
    if wr.result.IoFailure? then Outcome(c1, IOError)
    else if wr.buf.Remaining() == 0 then
      if c.key.valid then
        Outcome(c1.(state := Reading, key := c.key.(interest := OpRead), buf := Cleared(wr.buf)), Nothing)
      else
        Outcome(c1.(state := Reading), Unchecked)
    else Outcome(c1, Nothing)
  }

  /** `run()`: READING reads, SENDING sends, PROCESSING does nothing; an IOException from
      either is caught and closes the connection. `incoming` is used only when reading and
      `room` only when sending. */
  function RunStep(c: Conn, incoming: ReadOutcome, room: WriteOutcome, poolShutdown: bool): (r: Outcome)
    requires c.buf.Valid()
    ensures r.raised != IOError && r.conn.buf.Valid()
  {
    var o := match c.state
      case Reading => ReadOp(c, incoming, poolShutdown)
      case Sending => SendOp(c, room)
      case Processing => Outcome(c, Nothing);
    if o.raised == IOError then Outcome(CloseStep(o.conn), Nothing) else o
  }

  /** `Processer.run` on a pool thread, consuming one pending task: the state becomes
      SENDING and the key is switched to write readiness; on a cancelled key the switch
      throws CancelledKeyException after the state has changed. */
  function ProcessStep(c: Conn): (r: Outcome)
    requires c.pending > 0
    ensures r.conn.state == Sending && r.conn.pending == c.pending - 1
    ensures r.conn.buf == c.buf && r.conn.chan == c.chan && r.conn.key.valid == c.key.valid
    ensures r.raised == Unchecked <==> !c.key.valid
    ensures r.raised != Unchecked ==> r.raised == Nothing && r.conn.key.interest == OpWrite
  {
    var c1 := c.(state := Sending, pending := c.pending - 1);
    if c.key.valid then Outcome(c1.(key := c.key.(interest := OpWrite)), Nothing)
    else Outcome(c1, Unchecked)
  }

  /** The legal transitions of the state machine: staying put, READING to PROCESSING,
      PROCESSING to SENDING, SENDING to READING. */
  predicate Legal(p: Phase, q: Phase)
  {
    p == q || (p == Reading && q == Processing) || (p == Processing && q == Sending)
    || (p == Sending && q == Reading)
  }

  lemma InvPreservedByRun(c: Conn, incoming: ReadOutcome, room: WriteOutcome, poolShutdown: bool)
    requires Inv(c)
    ensures Inv(RunStep(c, incoming, room, poolShutdown).conn)
  {
  }

  /** `read()` keeps the invariant even when it raises, before `run()` catches anything. */
  lemma InvPreservedByRead(c: Conn, incoming: ReadOutcome, poolShutdown: bool)
    requires Inv(c) && c.state == Reading
    ensures Inv(ReadOp(c, incoming, poolShutdown).conn)
  {
  }

  /** `send()` keeps the invariant even when it raises, before `run()` catches anything. */
  lemma InvPreservedBySend(c: Conn, room: WriteOutcome)
    requires Inv(c) && c.state == Sending
    ensures Inv(SendOp(c, room).conn)
  {
  }

  lemma InvPreservedByProcess(c: Conn)
    requires Inv(c) && c.pending > 0
    ensures Inv(ProcessStep(c).conn)
  {
  }

  lemma InvPreservedByClose(c: Conn)
    requires Inv(c)
    ensures Inv(CloseStep(c))
  {
  }

  /** Every dispatch and every completed task moves along a legal transition; in particular
      READING never jumps to SENDING, so PROCESSING is never skipped. */
  lemma TransitionsAreLegal(c: Conn, incoming: ReadOutcome, room: WriteOutcome, poolShutdown: bool)
    requires Inv(c)
    ensures Legal(c.state, RunStep(c, incoming, room, poolShutdown).conn.state)
    ensures c.pending > 0 ==> c.state == Processing && ProcessStep(c).conn.state == Sending
    ensures CloseStep(c).state == c.state
  {
  }

  /** A dispatch while PROCESSING does nothing: no read, no write, no state change. */
  lemma ProcessingIgnoresEvents(c: Conn, incoming: ReadOutcome, room: WriteOutcome, poolShutdown: bool)
    requires c.buf.Valid() && c.state == Processing
    ensures RunStep(c, incoming, room, poolShutdown) == Outcome(c, Nothing)
  {
  }

  /** The three outcomes of a read event in READING on an open connection. */
  lemma ReadEventCases(c: Conn, incoming: ReadOutcome, room: WriteOutcome)
    requires Inv(c) && c.state == Reading && c.chan.open
    ensures var r := RunStep(c, incoming, room, false);
      && (incoming.Arrived? && |incoming.bytes| > 0 ==>
            && r.conn.state == Processing && r.conn.pending == c.pending + 1
            && r.raised == Nothing && r.conn.chan.open && r.conn.key == c.key
            && var n := Min(|incoming.bytes|, CAPACITY);
            && r.conn.chan.received == c.chan.received + incoming.bytes[..n]
            && r.conn.chan.sent == c.chan.sent
            && r.conn.buf.position == n && r.conn.buf.limit == CAPACITY
            && r.conn.buf.data[..n] == incoming.bytes[..n])
      && (incoming == Arrived([]) ==> r == Outcome(c, Nothing))
      && (incoming.EndOfStream? || incoming.ReadFault? ==>
            r == Outcome(CloseStep(c), Nothing))
  {
  }

  /** On a shut-down pool the read still moves to PROCESSING, but no task is queued and an
      unchecked exception escapes; nothing will ever complete this connection's processing. */
  lemma ReadOnShutdownPool(c: Conn, bytes: seq<byte>, room: WriteOutcome)
    requires Inv(c) && c.state == Reading && c.chan.open && |bytes| > 0
    ensures var r := RunStep(c, Arrived(bytes), room, true);
      r.conn.state == Processing && r.conn.pending == 0 && r.raised == Unchecked
  {
  }

  /** Completing processing on a live key: SENDING, write interest, and the buffer and the
      socket untouched. */
  lemma ProcessDoneKeepsData(c: Conn)
    requires Inv(c) && c.pending > 0 && c.chan.open
    ensures var r := ProcessStep(c);
      && r.raised == Nothing && r.conn.state == Sending && r.conn.key.interest == OpWrite
      && r.conn.buf == c.buf && r.conn.chan == c.chan && r.conn.pending == 0
  {
  }

  /** A send event: when the write leaves nothing of the flipped buffer, READING with read
      interest and a cleared buffer; when bytes remain, still SENDING. */
  lemma SendEventCases(c: Conn, incoming: ReadOutcome, k: nat)
    requires Inv(c) && c.state == Sending && c.chan.open
    ensures var r := RunStep(c, incoming, Room(k), false);
      && r.raised == Nothing && r.conn.chan.open
      && (k >= c.buf.position ==>
            && r.conn.state == Reading && r.conn.key.interest == OpRead
            && r.conn.buf.IsClear()
            && r.conn.chan.sent == c.chan.sent + c.buf.data[..c.buf.position])
      && (k < c.buf.position ==>
            && r.conn.state == Sending && r.conn.key == c.key
            && r.conn.buf == Buf(c.buf.data, k, c.buf.position)
            && r.conn.chan.sent == c.chan.sent + c.buf.data[..k])
  {
  }

  /** Any IOException raised by the read or the write closes the connection and leaves the
      state where it was. */
  lemma IoFailureCloses(c: Conn, incoming: ReadOutcome, room: WriteOutcome, poolShutdown: bool)
    requires c.buf.Valid() && c.state != Processing
    requires !c.chan.open || (c.state == Reading && incoming.ReadFault? && c.buf.Remaining() > 0)
             || (c.state == Sending && room.WriteFault? && c.buf.position > 0)
    ensures var r := RunStep(c, incoming, room, poolShutdown);
      !r.conn.chan.open && !r.conn.key.valid && r.conn.state == c.state && r.raised == Nothing
  {
  }

  /** Closing twice is closing once. */
  lemma CloseIdempotent(c: Conn)
    ensures CloseStep(CloseStep(c)) == CloseStep(c)
  {
  }

  /** Once closed, every further dispatch leaves the connection closed and raises nothing
      from an undefined state: a read or write on the closed socket fails and closes again. */
  lemma ClosedStaysClosed(c: Conn, incoming: ReadOutcome, room: WriteOutcome, poolShutdown: bool)
    requires Inv(c) && !c.chan.open
    ensures var r := RunStep(c, incoming, room, poolShutdown);
      !r.conn.chan.open && !r.conn.key.valid && r.raised == Nothing
      && r.conn.chan.sent == c.chan.sent && r.conn.chan.received == c.chan.received
  {
  }

  /** The echo: from READING, a read of `bytes`, the completed processing and a write that
      takes the whole buffer in one call send back exactly the bytes read (at most 1024 of
      them), and the state runs READING, PROCESSING, SENDING, READING. */
  lemma EchoCycle(c: Conn, bytes: seq<byte>, k: nat, idleRoom: WriteOutcome, idleIn: ReadOutcome)
    requires Inv(c) && c.state == Reading && c.chan.open
    requires |bytes| > 0 && k >= Min(|bytes|, CAPACITY)
    ensures
      var n := Min(|bytes|, CAPACITY);
      var s1 := RunStep(c, Arrived(bytes), idleRoom, false);
      && s1.raised == Nothing && s1.conn.state == Processing && s1.conn.pending == 1
      && var s2 := ProcessStep(s1.conn);
      && s2.raised == Nothing && s2.conn.state == Sending && s2.conn.key.interest == OpWrite
      && var s3 := RunStep(s2.conn, idleIn, Room(k), false);
      && s3.raised == Nothing && s3.conn.state == Reading
      && s3.conn.key == Key(OpRead, true) && s3.conn.buf.IsClear() && s3.conn.pending == 0
      && s3.conn.chan.open
      && s3.conn.chan.received == c.chan.received + bytes[..n]
      && s3.conn.chan.sent == c.chan.sent + bytes[..n]
  {
    var n := Min(|bytes|, CAPACITY);
    var s1 := RunStep(c, Arrived(bytes), idleRoom, false);
    assert s1.conn.buf.data[..n] == bytes[..n];
    var s2 := ProcessStep(s1.conn);
    assert s2.conn.buf == s1.conn.buf;
  }

  // ---------------------------------------------------------------------------
  // The send of the code as written re-flips the buffer on every call. After a
  // partial write the second flip sets the limit to the number of bytes already
  // written, so that prefix is sent again and the rest is never sent.

  /** Two write events while SENDING, the first taking only k1 of the bytes: `send()` flips
      again, so the second write starts over from byte 0, sends the first k1 bytes a second
      time and finishes the phase. */
  lemma TwoSendsResend(c: Conn, k1: nat, k2: nat, idleIn: ReadOutcome)
    requires Inv(c) && c.state == Sending && c.chan.open
    requires 0 < k1 < c.buf.position && k2 >= k1
    ensures
      var s3 := RunStep(c, idleIn, Room(k1), false);
      var s4 := RunStep(s3.conn, idleIn, Room(k2), false);
      && s3.conn.state == Sending && s4.conn.state == Reading && s4.conn.buf.IsClear()
      && s4.conn.chan.received == c.chan.received
      && s4.conn.chan.sent == c.chan.sent + c.buf.data[..k1] + c.buf.data[..k1]
  {
    SendEventCases(c, idleIn, k1);
    var s3 := RunStep(c, idleIn, Room(k1), false);
    InvPreservedByRun(c, idleIn, Room(k1), false);
    SendEventCases(s3.conn, idleIn, k2);
  }

  /** A write event that takes nothing (the socket's send buffer is full) leaves position 0
      and limit n; the next `send()` flips that into an empty buffer, writes nothing
      whatever the socket would do, and returns to READING: the whole reply is lost. */
  lemma ZeroWriteLosesReply(c: Conn, idleIn: ReadOutcome, room: WriteOutcome)
    requires Inv(c) && c.state == Sending && c.chan.open && c.buf.position > 0
    ensures
      var s1 := RunStep(c, idleIn, Room(0), false);
      var s2 := RunStep(s1.conn, idleIn, room, false);
      && s1.conn.state == Sending && s1.conn.chan.sent == c.chan.sent
      && s2.raised == Nothing && s2.conn.state == Reading && s2.conn.chan.open
      && s2.conn.buf.IsClear() && s2.conn.chan.sent == c.chan.sent
  {
    SendEventCases(c, idleIn, 0);
    var s1 := RunStep(c, idleIn, Room(0), false);
    InvPreservedByRun(c, idleIn, Room(0), false);
    assert s1.conn.buf == Buf(c.buf.data, 0, c.buf.position);
  }

  /** After a read of n bytes, a first write that takes only k1 < n of them and a second
      write with room for k1 more, the connection is READING again having sent the first
      k1 bytes twice and the last n - k1 never. With [1, 2] and k1 = 1 the peer gets [1, 1]. */
  lemma ResendAfterPartialWrite(c: Conn, bytes: seq<byte>, k1: nat, k2: nat,
                                idleRoom: WriteOutcome, idleIn: ReadOutcome)
    requires Inv(c) && c.state == Reading && c.chan.open
    requires 0 < k1 < Min(|bytes|, CAPACITY) && k2 >= k1
    ensures
      var s1 := RunStep(c, Arrived(bytes), idleRoom, false);
      s1.conn.pending == 1 &&
      var s2 := ProcessStep(s1.conn);
      var s3 := RunStep(s2.conn, idleIn, Room(k1), false);
      var s4 := RunStep(s3.conn, idleIn, Room(k2), false);
      && s3.conn.state == Sending && s4.conn.state == Reading && s4.conn.buf.IsClear()
      && s4.conn.chan.received == c.chan.received + bytes[..Min(|bytes|, CAPACITY)]
      && s4.conn.chan.sent == c.chan.sent + bytes[..k1] + bytes[..k1]
      && (bytes == [1, 2] && k1 == 1 ==> s4.conn.chan.sent == c.chan.sent + [1, 1])
  {
    var n := Min(|bytes|, CAPACITY);
    var s1 := RunStep(c, Arrived(bytes), idleRoom, false);
    ReadEventCases(c, Arrived(bytes), idleRoom);
    InvPreservedByRun(c, Arrived(bytes), idleRoom, false);
    var s2 := ProcessStep(s1.conn);
    ProcessDoneKeepsData(s1.conn);
    InvPreservedByProcess(s1.conn);
    assert s2.conn.buf.data[..k1] == bytes[..k1] by {
      assert s2.conn.buf.data[..k1] == s2.conn.buf.data[..n][..k1];
    }
    TwoSendsResend(s2.conn, k1, k2, idleIn);
  }

  /** Processer.run as evidently intended: the buffer is flipped once, when SENDING begins. */
  function FixedProcessStep(c: Conn): (r: Outcome)
    requires c.pending > 0 && c.buf.Valid()
    ensures r.conn.buf.Valid() && r.conn.buf.Pending() == c.buf.data[..c.buf.position]
  {
    var o := ProcessStep(c);
    o.(conn := o.conn.(buf := Flipped(c.buf)))
  }

  /** send() as evidently intended: no flip, write what is still pending. */
  function FixedSendOp(c: Conn, room: WriteOutcome): (r: Outcome)
    requires c.buf.Valid()
    ensures r.raised != IOError && r.conn.chan.received == c.chan.received
    ensures c.chan.sent <= r.conn.chan.sent <= c.chan.sent + c.buf.Pending()
    ensures r.conn.buf.Valid() && r.conn.buf.data == c.buf.data
    ensures !c.chan.open || (room.WriteFault? && c.buf.Remaining() > 0) ==> !r.conn.chan.open && r.conn.buf == c.buf
    ensures c.chan.open && room.Room? ==>
              && r.conn.chan.sent == c.chan.sent + c.buf.Pending()[..Min(room.k, c.buf.Remaining())]
              && (room.k < c.buf.Remaining() ==> r.conn.state == c.state && r.conn.buf.Pending() == c.buf.Pending()[room.k..])
    ensures r.raised == Unchecked <==>
              c.chan.open && (room.Room? ==> room.k >= c.buf.Remaining())
              && (room.WriteFault? ==> c.buf.Remaining() == 0) && !c.key.valid
    ensures r.raised != Unchecked ==> r.raised == Nothing
    ensures c.key.valid == c.chan.open ==> r.raised == Nothing
    ensures c.chan.open && (room.Room? ==> room.k >= c.buf.Remaining())
            && (room.WriteFault? ==> c.buf.Remaining() == 0) && c.key.valid ==>
              r.conn.state == Reading && r.conn.buf.IsClear() && r.conn.key == c.key.(interest := OpRead)
  {
    var wr := WriteEffect(c.chan, c.buf, room);
    var c1 := c.(buf := wr.buf, chan := wr.chan);
    if wr.result.IoFailure? then Outcome(CloseStep(c1), Nothing)
    else if wr.buf.Remaining() == 0 then
      if c.key.valid then
        Outcome(c1.(state := Reading, key := c.key.(interest := OpRead), buf := Cleared(wr.buf)), Nothing)
      else
        Outcome(c1.(state := Reading), Unchecked)
    else Outcome(c1, Nothing)
  }

  /** Write events delivered one after another while SENDING, with the rooms in `ws`. */
  function FixedSendAll(c: Conn, ws: seq<WriteOutcome>): (r: Conn)
    requires c.buf.Valid()
    ensures r.buf.Valid()
    decreases |ws|
  {
    if ws == [] || c.state != Sending then c
    else FixedSendAll(FixedSendOp(c, ws[0]).conn, ws[1..])
  }

  /** With the fix, however the socket splits the writes, a SENDING phase that is not cut
      short by a fault sends exactly the pending bytes and ends in READING, cleared. */
  lemma {:induction false} FixedSendDrains(c: Conn, ws: seq<WriteOutcome>)
    requires c.buf.Valid() && c.state == Sending && c.chan.open && c.key.valid
    requires Drains(ws, c.buf.Remaining()) && c.buf.Remaining() > 0
    requires forall i :: 0 <= i < |ws| ==> ws[i].Room?
    ensures var r := FixedSendAll(c, ws);
      && r.state == Reading && r.buf.IsClear() && r.key == c.key.(interest := OpRead)
      && r.chan.open && r.chan.sent == c.chan.sent + c.buf.Pending()
      && r.chan.received == c.chan.received
    decreases |ws|
  {
    var o := FixedSendOp(c, ws[0]);
    var wr := WriteEffect(c.chan, c.buf, ws[0]);
    if wr.buf.Remaining() > 0 {
      assert o.conn.buf == wr.buf && o.conn.state == Sending;
      FixedSendDrains(o.conn, ws[1..]);
      assert c.buf.Pending() == c.buf.data[c.buf.position..wr.buf.position] + wr.buf.Pending();
    } else {
      assert c.buf.Pending() == c.buf.data[c.buf.position..wr.buf.position];
    }
  }

  /** The evidently intended echo: from READING, a read of `bytes`, the completed processing
      and any sequence of partial writes that takes everything sends back exactly the bytes
      read, and the connection is READING again. */
  lemma FixedEchoCycle(c: Conn, bytes: seq<byte>, ws: seq<WriteOutcome>, idleRoom: WriteOutcome)
    requires Inv(c) && c.state == Reading && c.chan.open && |bytes| > 0
    requires Drains(ws, Min(|bytes|, CAPACITY))
    requires forall i :: 0 <= i < |ws| ==> ws[i].Room?
    ensures
      var n := Min(|bytes|, CAPACITY);
      var s1 := RunStep(c, Arrived(bytes), idleRoom, false);
      s1.conn.pending == 1 &&
      var s2 := FixedProcessStep(s1.conn);
      var s3 := FixedSendAll(s2.conn, ws);
      && s3.state == Reading && s3.buf.IsClear() && s3.key == Key(OpRead, true)
      && s3.chan.received == c.chan.received + bytes[..n]
      && s3.chan.sent == c.chan.sent + bytes[..n]
  {
    var n := Min(|bytes|, CAPACITY);
    var s1 := RunStep(c, Arrived(bytes), idleRoom, false);
    ReadEventCases(c, Arrived(bytes), idleRoom);
    assert s1.conn.buf.position == n;
    assert s1.conn.buf.data[..n] == bytes[..n];
    var s2 := FixedProcessStep(s1.conn);
    ProcessDoneKeepsData(s1.conn);
    assert s2.conn.buf.Pending() == bytes[..n];
    assert s2.conn.state == Sending && s2.conn.key == Key(OpWrite, true) && s2.conn.chan == s1.conn.chan;
    assert s2.conn.buf.Remaining() == n;
    FixedSendDrains(s2.conn, ws);
    var s3 := FixedSendAll(s2.conn, ws);
    assert s3.chan.sent == c.chan.sent + bytes[..n];
  }
}
