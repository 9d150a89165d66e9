/** The single-reactor echo server: one reactor thread accepts connections and runs each
    connection's EchoHandler when its socket is readable. The handler reads into its
    1024-byte buffer and, if anything is there, copies it out, writes the copy back until
    the socket has taken all of it, clears the buffer and keeps waiting for reads. Any
    exception closes the socket. */
module EchoServer {
  import opened Buffers
  import opened Channels

  /** What an EchoHandler's behaviour depends on: its buffer, its key and its socket. */
  datatype Echo = Echo(buf: Buf, key: Key, chan: Chan)

  /** The end of the write loop: the socket, the output buffer, and whether the loop
      finished (false: a write threw). */
  datatype Drained = Drained(chan: Chan, out: Buf, ok: bool)

  /** `while (output.hasRemaining()) socket.write(output);` against the write schedule
      `ws`: one write per round, the loop left by the first exception. */
  function WriteAll(ch: Chan, out: Buf, ws: seq<WriteOutcome>): (r: Drained)
    requires out.Valid() && Drains(ws, out.Remaining())
    ensures r.out.Valid() && r.out.data == out.data && r.out.limit == out.limit
    ensures out.position <= r.out.position
    ensures r.chan.open == ch.open && r.chan.received == ch.received
    ensures r.chan.sent == ch.sent + out.data[out.position..r.out.position]
    ensures r.ok ==> r.out.position == out.limit && r.chan.sent == ch.sent + out.Pending()
    ensures !ch.open && out.Remaining() > 0 ==> !r.ok && r.chan == ch && r.out == out
    ensures ch.open && (forall i :: 0 <= i < |ws| ==> ws[i].Room?) ==> r.ok
    decreases |ws|
  {
    if out.Remaining() == 0 then Drained(ch, out, true)
    else
      var w := WriteEffect(ch, out, ws[0]);
      if w.result.IoFailure? then Drained(w.chan, w.buf, false)
      else
        assert forall i :: 0 <= i < |ws[1..]| ==> ws[1..][i] == ws[i + 1];
        WriteAll(w.chan, w.buf, ws[1..])
  }

  /** One round of the write loop: the first write either throws, ending the loop, or
      leaves a schedule that still drains what is left. */
  lemma WriteAllStep(ch: Chan, out: Buf, ws: seq<WriteOutcome>)
    requires out.Valid() && Drains(ws, out.Remaining()) && out.Remaining() > 0
    ensures |ws| > 0
    ensures var w := WriteEffect(ch, out, ws[0]);
            && (w.result.IoFailure? ==> WriteAll(ch, out, ws) == Drained(w.chan, w.buf, false))
            && (w.result.Ok? ==> Drains(ws[1..], w.buf.Remaining())
                                 && WriteAll(ch, out, ws) == WriteAll(w.chan, w.buf, ws[1..]))
  {
  }

  /** `socket.close()`; closing a registered channel also cancels its key. */
  function CloseEcho(e: Echo): (r: Echo)
    ensures !r.chan.open && !r.key.valid && r.buf == e.buf
    ensures r.key.interest == e.key.interest
    ensures r.chan.received == e.chan.received && r.chan.sent == e.chan.sent
  {
    Echo(e.buf, e.key.(valid := false), e.chan.(open := false))
  }

  /** The buffer's position once `incoming` has been read into it: the number of bytes
      a run may have to write back. */
  function Readable(b: Buf, incoming: ReadOutcome): (n: nat)
    requires b.Valid()
    ensures b.position <= n <= b.limit
  {
    if incoming.Arrived? then b.position + Min(|incoming.bytes|, b.Remaining()) else b.position
  }

  /** One run of `EchoHandler.run()`. `incoming` is what the socket read finds, `ws` how
      much each write call gets rid of, and `interrupted` whether the sleep between the
      echo and the reset is interrupted (InterruptedException). */
  function HandleRead(e: Echo, incoming: ReadOutcome, ws: seq<WriteOutcome>, interrupted: bool): (r: Echo)
    requires e.buf.Valid() && Drains(ws, Readable(e.buf, incoming))
    ensures r.buf.Valid() && |r.buf.data| == |e.buf.data|
    ensures r.chan.open ==> e.chan.open
    ensures e.chan.received <= r.chan.received && e.chan.sent <= r.chan.sent
    ensures e.buf.position == 0 && r.chan.received == e.chan.received ==> r.chan.sent == e.chan.sent
    ensures r.key.valid ==> e.key.valid
  {
    var rd := ReadEffect(e.chan, e.buf, incoming);
    if rd.result.IoFailure? then CloseEcho(e)
    else if rd.buf.position == 0 then Echo(rd.buf, e.key, rd.chan)
    else
      DrainsFewer(ws, rd.buf.position, Readable(e.buf, incoming));
      Replied(Echo(rd.buf, e.key, rd.chan), ws, interrupted)
  }

  /** The echo part of `run()` once the buffer holds something: flip, copy the bytes out,
      write the copy back, sleep, clear the buffer and renew the read interest. */
  function Replied(e: Echo, ws: seq<WriteOutcome>, interrupted: bool): (r: Echo)
    requires e.buf.Valid() && e.buf.position > 0 && Drains(ws, e.buf.position)
    ensures r.chan.received == e.chan.received && r.buf.data == e.buf.data
    ensures e.chan.sent <= r.chan.sent <= e.chan.sent + e.buf.data[..e.buf.position]
    ensures r.chan.open ==> && r.chan.sent == e.chan.sent + e.buf.data[..e.buf.position]
                            && r.buf.IsClear() && r.key == e.key.(interest := OpRead)
    ensures !r.chan.open ==> !r.key.valid
    ensures interrupted || !e.key.valid ==> !r.chan.open
    ensures !WriteAll(e.chan, Wrapped(e.buf.data[..e.buf.position]), ws).ok ==> !r.chan.open
    ensures e.chan.open && e.key.valid && !interrupted && (forall i :: 0 <= i < |ws| ==> ws[i].Room?)
            ==> r.chan.open
  {
    var flipped := Flipped(e.buf);
    var bytes := flipped.Pending();
    var got := Advanced(flipped, |bytes|);
    var d := WriteAll(e.chan, Wrapped(bytes), ws);
    if !d.ok || interrupted then CloseEcho(Echo(got, e.key, d.chan))
    else if !e.key.valid then CloseEcho(Echo(Cleared(got), e.key, d.chan))
    else Echo(Cleared(got), e.key.(interest := OpRead), d.chan)
  }

  /** What holds between runs: a valid 1024-byte buffer, read interest, a key registered
      exactly while the socket is open, a clear buffer while open, and the echo so far:
      everything sent is a prefix of everything received, and all of it while open. */
  predicate EchoInv(e: Echo)
  {
    && e.buf.Valid() && |e.buf.data| == CAPACITY
    && e.key.interest == OpRead
    && e.key.valid == e.chan.open
    && (e.chan.open ==> e.buf.IsClear())
    && e.chan.sent <= e.chan.received
    && (e.chan.open ==> e.chan.sent == e.chan.received)
  }

  /** The state of a handler built on a freshly accepted channel. */
  function Registered(ch: Chan): (e: Echo)
    requires ch.open && ch.sent == ch.received
    ensures EchoInv(e) && e.chan == ch && e.buf.IsClear()
  {
    Echo(Allocated(CAPACITY), Key(OpRead, true), ch)
  }

  /** A run keeps the invariant: in particular the server only ever sends back bytes it
      has received, in order, and while the connection is open it has sent back all of them. */
  lemma EchoKeepsInv(e: Echo, incoming: ReadOutcome, ws: seq<WriteOutcome>, interrupted: bool)
    requires EchoInv(e) && Drains(ws, Readable(e.buf, incoming))
    ensures EchoInv(HandleRead(e, incoming, ws, interrupted))
  {
    var rd := ReadEffect(e.chan, e.buf, incoming);
    if !rd.result.IoFailure? && rd.buf.position != 0 {
      var n := rd.buf.position;
      var bytes := rd.buf.data[..n];
      assert rd.chan.received == e.chan.received + bytes;
      DrainsFewer(ws, |bytes|, Readable(e.buf, incoming));
      var d := WriteAll(rd.chan, Wrapped(bytes), ws);
      assert d.chan.sent == e.chan.sent + bytes[..d.out.position];
      assert bytes[..d.out.position] <= bytes;
    }
  }

  /** A readable event with the bytes `bytes` on an open connection whose writes never
      fail: the first min(|bytes|, 1024) of them are read, all of them are written back in
      order, and the handler is left open, cleared and waiting for reads. */
  lemma EchoesWhatWasRead(e: Echo, bytes: seq<byte>, ws: seq<WriteOutcome>)
    requires EchoInv(e) && e.chan.open && |bytes| > 0 && Drains(ws, Min(|bytes|, CAPACITY))
    requires forall i :: 0 <= i < |ws| ==> ws[i].Room?
    ensures var r := HandleRead(e, Arrived(bytes), ws, false);
            var n := Min(|bytes|, CAPACITY);
            && r.chan.open && r.key == e.key && r.buf.IsClear()
            && r.chan.received == e.chan.received + bytes[..n]
            && r.chan.sent == e.chan.sent + bytes[..n]
  {
    var rd := ReadEffect(e.chan, e.buf, Arrived(bytes));
    var n := rd.buf.position;
    assert rd.buf.data[..n] == bytes[..n];
  }

  /** Zero bytes or end of stream leave the handler exactly as it was: the source does not
      close the connection when the peer closes its side. */
  lemma NoDataNoReply(e: Echo, incoming: ReadOutcome, ws: seq<WriteOutcome>, interrupted: bool)
    requires EchoInv(e) && e.chan.open
    requires incoming == EndOfStream || incoming == Arrived([])
    ensures HandleRead(e, incoming, ws, interrupted) == e
  {
    assert Filled(e.buf, []) == e.buf;
  }

  /** The number of bytes the rooms of a write schedule add up to (a fault adds none). */
  function RoomSum(ws: seq<WriteOutcome>): nat
  {
    if ws == [] then 0 else (if ws[0].Room? then ws[0].k else 0) + RoomSum(ws[1..])
  }

  /** A fault the write loop reaches before the output is drained ends the loop with the
      exception: `ws0` are the writes before the fault, and they take fewer bytes than
      the output holds. */
  lemma {:induction false} WriteAllHitsFault(ch: Chan, out: Buf, ws0: seq<WriteOutcome>, rest: seq<WriteOutcome>)
    requires out.Valid() && RoomSum(ws0) < out.Remaining()
    requires Drains(ws0 + [WriteFault] + rest, out.Remaining())
    ensures !WriteAll(ch, out, ws0 + [WriteFault] + rest).ok
    decreases |ws0|
  {
    var ws := ws0 + [WriteFault] + rest;
    WriteAllStep(ch, out, ws);
    if ws0 != [] {
      assert ws[0] == ws0[0];
      var w := WriteEffect(ch, out, ws[0]);
      if w.result.Ok? {
        assert ws[1..] == ws0[1..] + [WriteFault] + rest;
        WriteAllHitsFault(w.chan, w.buf, ws0[1..], rest);
      }
    } else {
      assert ws[0] == WriteFault;
    }
  }

  /** Any exception in `run()` closes the socket and cancels the key: a read fault, a write
      fault reached while the echo is still being written (after any number of partial
      writes `ws0`), or an interrupted sleep. */
  lemma FailureCloses(e: Echo, incoming: ReadOutcome, ws: seq<WriteOutcome>, interrupted: bool,
                      ws0: seq<WriteOutcome>, rest: seq<WriteOutcome>)
    requires EchoInv(e) && e.chan.open && Drains(ws, Readable(e.buf, incoming))
    requires incoming == ReadFault
             || (incoming.Arrived? && |incoming.bytes| > 0
                 && (interrupted
                     || (ws == ws0 + [WriteFault] + rest
                         && RoomSum(ws0) < Min(|incoming.bytes|, CAPACITY))))
    ensures var r := HandleRead(e, incoming, ws, interrupted);
            !r.chan.open && !r.key.valid
  {
    if incoming.Arrived? {
      var rd := ReadEffect(e.chan, e.buf, incoming);
      var n := rd.buf.position;
      assert n == Min(|incoming.bytes|, CAPACITY);
      if !interrupted {
        var out := Wrapped(Flipped(rd.buf).Pending());
        assert out.Remaining() == n;
        WriteAllHitsFault(rd.chan, out, ws0, rest);
      }
    }
  }

  /** Once closed, a run changes nothing: every read throws and the catch closes again. */
  lemma ClosedIsInert(e: Echo, incoming: ReadOutcome, ws: seq<WriteOutcome>, interrupted: bool)
    requires EchoInv(e) && !e.chan.open && Drains(ws, Readable(e.buf, incoming))
    ensures HandleRead(e, incoming, ws, interrupted) == e
  {
  }

  /** The handler: socket, key and receive buffer. */
  class EchoHandler {
    const socket: Channel
    const sk: SelectionKey
    const input: ByteBuffer

    ghost function View(): Echo
      reads this, input, input.data, sk, socket
    {
      Echo(input.View(), sk.View(), socket.View())
    }

    ghost predicate Valid()
      reads this, input, input.data, sk, socket
    {
      input.Valid() && EchoInv(View()) && sk.attachment == this
    }

    /** Registers the channel with the selector for reads and attaches the handler. */
    constructor (c: Channel)
      requires c.open && c.sent == c.received
      ensures Valid() && View() == Registered(c.View()) && socket == c
      ensures fresh(sk) && fresh(input) && fresh(input.data)
    {
      socket := c;
      input := new ByteBuffer.Allocate(CAPACITY);
      sk := new SelectionKey.Register(OpRead);
      new;
      sk.Attach(this);
    }

    /** `close()` in the catch block (the key is cancelled with it). */
    method Close()
      modifies socket, sk
      ensures View() == CloseEcho(old(View())) && sk.attachment == old(sk.attachment)
    {
      socket.Close();
      sk.Cancel();
    }

    /** The write loop of `run()`: write until the output buffer is empty; the first
        exception leaves the loop (`ok` false). */
    method WriteOut(output: ByteBuffer, ws: seq<WriteOutcome>) returns (ok: bool)
      requires output.Valid() && Drains(ws, output.Remaining())
      modifies socket, output
      ensures output.Valid()
      ensures Drained(socket.View(), output.View(), ok) == WriteAll(old(socket.View()), old(output.View()), ws)
    {
      ghost var goal := WriteAll(socket.View(), output.View(), ws);
      var rest := ws;
      ok := true;
      while ok && output.Remaining() > 0
        invariant output.Valid()
        invariant ok ==> Drains(rest, output.Remaining())
        invariant ok ==> WriteAll(socket.View(), output.View(), rest) == goal
        invariant !ok ==> Drained(socket.View(), output.View(), false) == goal
        decreases |rest|
      {
        ok := WriteOnce(output, rest);
        rest := rest[1..];
      }
    }

    /** One round of the write loop: `socket.write(output)`. */
    method WriteOnce(output: ByteBuffer, ws: seq<WriteOutcome>) returns (ok: bool)
      requires output.Valid() && Drains(ws, output.Remaining()) && output.Remaining() > 0
      modifies socket, output
      ensures output.Valid() && |ws| > 0
      ensures ok ==> && Drains(ws[1..], output.Remaining())
                     && WriteAll(socket.View(), output.View(), ws[1..])
                        == WriteAll(old(socket.View()), old(output.View()), ws)
      ensures !ok ==> Drained(socket.View(), output.View(), false)
                      == WriteAll(old(socket.View()), old(output.View()), ws)
    {
      WriteAllStep(socket.View(), output.View(), ws);
      var w := socket.Write(output, ws[0]);
      ok := w.Ok?;
    }

    /** `run()`: one readable event. */
    method Run(incoming: ReadOutcome, ws: seq<WriteOutcome>, interrupted: bool)
      requires Valid() && Drains(ws, Readable(input.View(), incoming))
      modifies input, input.data, socket, sk
      ensures Valid()
      ensures View() == HandleRead(old(View()), incoming, ws, interrupted)
    {
      ghost var e := View();
      EchoKeepsInv(e, incoming, ws, interrupted);
      var length := socket.Read(input, incoming);
      if length.IoFailure? {
        Close();
        return;
      }
      if input.position > 0 {
        DrainsFewer(ws, input.position, Readable(e.buf, incoming));
        EchoBack(ws, interrupted);
      }
    }

    /** `flip()`, then `get` of everything pending into a new array, then `wrap` of that array. */
    method CopyOut() returns (output: ByteBuffer)
      requires input.Valid()
      modifies input
      ensures input.Valid() && fresh(output) && fresh(output.data) && output.Valid()
      ensures var flipped := Flipped(old(input.View()));
              && input.View() == Advanced(flipped, |flipped.Pending()|)
              && output.View() == Wrapped(flipped.Pending())
    {
      input.Flip();
      var bytes := new byte[input.Remaining()];
      input.Get(bytes);
      output := new ByteBuffer.Wrap(bytes);
    }

    /** The `if (input.position() > 0)` block of `run()`, with its catch. */
    method EchoBack(ws: seq<WriteOutcome>, interrupted: bool)
      requires input.Valid() && input.position > 0 && Drains(ws, input.position)
      modifies input, socket, sk
      ensures input.Valid() && sk.attachment == old(sk.attachment)
      ensures View() == Replied(old(View()), ws, interrupted)
    {
      var output := CopyOut();
      var ok := WriteOut(output, ws);
      if !ok || interrupted {
        Close();
        return;
      }
      input.Clear();
      var live := sk.InterestOps(OpRead);
      if !live {
        Close();
      }
    }
  }

  /** The reactor's accept side. `handlers` records the handlers it has built. */
  class Reactor {
    ghost var handlers: seq<EchoHandler>

    constructor ()
      ensures handlers == []
    {
      handlers := [];
    }

    /** `Acceptor.run`: `connectionWaiting` is false when `accept()` returns null (or
        throws); otherwise the new connection gets a handler registered for reads. */
    method Accept(connectionWaiting: bool) returns (h: EchoHandler?)
      modifies this
      ensures h != null <==> connectionWaiting
      ensures h != null ==> && fresh(h) && h.Valid()
                            && h.View() == Registered(Chan(true, [], []))
      ensures handlers == old(handlers) + (if h == null then [] else [h])
    {
      h := null;
      if connectionWaiting {
        var c := new Channel.Accepted();
        h := new EchoHandler(c);
        handlers := handlers + [h];
      }
    }
  }
}
