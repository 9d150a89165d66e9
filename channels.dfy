/** The socket and selection-key operations the handlers call, with the operating
    system replaced by explicit inputs: what the peer has sent (or end of stream,
    or a fault) when the handler reads, and how many bytes the socket's send buffer
    takes in (or a fault) when it writes. */
module Channels {
  import opened Buffers

  /** The result of a call that may throw an IOException. */
  datatype Io<T> = Ok(value: T) | IoFailure

  /** What a read finds on the socket: some bytes (possibly none), end of stream, or an I/O fault. */
  datatype ReadOutcome = Arrived(bytes: seq<byte>) | EndOfStream | ReadFault

  /** How many bytes the socket takes in on one non-blocking write, or an I/O fault. */
  datatype WriteOutcome = Room(k: nat) | WriteFault

  /** A connected socket: open or closed, and the byte streams read from and written to the peer. */
  datatype Chan = Chan(open: bool, received: seq<byte>, sent: seq<byte>)

  datatype Interest = OpRead | OpWrite

  /** A selection key: the readiness it waits for, and whether it is still registered. */
  datatype Key = Key(interest: Interest, valid: bool)

  datatype ReadResult = ReadResult(chan: Chan, buf: Buf, result: Io<int>)

  datatype WriteResult = WriteResult(chan: Chan, buf: Buf, result: Io<nat>)

  /** `SocketChannel.read(buf)`: a closed channel throws; a buffer with no room reads
      nothing; otherwise as many arrived bytes as fit are put at the position, -1 reports
      end of stream, and a fault throws. */
  function ReadEffect(ch: Chan, b: Buf, incoming: ReadOutcome): (r: ReadResult)
    requires b.Valid()
    ensures r.buf.Valid() && |r.buf.data| == |b.data| && r.buf.limit == b.limit
    ensures r.chan.open == ch.open && r.chan.sent == ch.sent
    ensures r.result.IoFailure? <==> !ch.open || (b.Remaining() > 0 && incoming.ReadFault?)
    ensures r.result == Ok(-1) <==> ch.open && b.Remaining() > 0 && incoming.EndOfStream?
    ensures r.result.Ok? ==> -1 <= r.result.value <= b.Remaining()
    ensures ch.open && b.Remaining() == 0 ==> r.result == Ok(0)
    ensures ch.open && b.Remaining() > 0 && incoming.Arrived? ==>
              r.result == Ok(Min(|incoming.bytes|, b.Remaining()))
    ensures r.result.Ok? && r.result.value > 0 ==>
              && incoming.Arrived?
              && r.result.value == Min(|incoming.bytes|, b.Remaining())
              && r.buf.position == b.position + r.result.value
              && r.buf.data[..b.position] == b.data[..b.position]
              && r.chan.received == ch.received + incoming.bytes[..r.result.value]
              && r.buf.data[b.position..r.buf.position] == incoming.bytes[..r.result.value]
    ensures !(r.result.Ok? && r.result.value > 0) ==> r.buf == b && r.chan == ch
  {
    if !ch.open then ReadResult(ch, b, IoFailure)
    else if b.Remaining() == 0 then ReadResult(ch, b, Ok(0))
    else
      match incoming
      case Arrived(bytes) =>
        var n := Min(|bytes|, b.Remaining());
        ReadResult(ch.(received := ch.received + bytes[..n]), Filled(b, bytes[..n]), Ok(n))
      case EndOfStream => ReadResult(ch, b, Ok(-1))
      case ReadFault => ReadResult(ch, b, IoFailure)
  }

  /** `SocketChannel.write(buf)`: a closed channel throws; a buffer with nothing pending
      writes nothing without touching the socket; otherwise a fault throws or the socket
      takes the leading pending bytes, as many as it has room for. */
  function WriteEffect(ch: Chan, b: Buf, w: WriteOutcome): (r: WriteResult)
    requires b.Valid()
    ensures r.buf.Valid() && r.buf.data == b.data && r.buf.limit == b.limit
    ensures b.position <= r.buf.position
    ensures r.chan.open == ch.open && r.chan.received == ch.received
    ensures r.chan.sent == ch.sent + b.data[b.position..r.buf.position]
    ensures r.result.Ok? <==> ch.open && (w.Room? || b.Remaining() == 0)
    ensures ch.open && b.Remaining() == 0 ==> r.result == Ok(0) && r.buf == b && r.chan == ch
    ensures r.result.Ok? && w.Room? ==> r.result.value == Min(w.k, b.Remaining())
    ensures r.result.Ok? ==> r.buf.position == b.position + r.result.value
    ensures r.result.IoFailure? ==> r.buf == b && r.chan == ch
  {
    if !ch.open then WriteResult(ch, b, IoFailure)
    else if b.Remaining() == 0 then WriteResult(ch, b, Ok(0))
    else
      match w
      case Room(k) =>
        var n := Min(k, b.Remaining());
        var b' := Advanced(b, n);
        WriteResult(ch.(sent := ch.sent + b.data[b.position..b'.position]), b', Ok(n))
      case WriteFault => WriteResult(ch, b, IoFailure)
  }

  /** The write schedule `ws` takes in `n` pending bytes before it runs out: its rooms,
      used up in order, add up to at least `n`, or one of them is a fault first. */
  predicate Drains(ws: seq<WriteOutcome>, n: nat)
    decreases |ws|
  {
    n == 0 ||
    (|ws| > 0 &&
     match ws[0]
     case WriteFault => true
     case Room(k) => Drains(ws[1..], n - Min(k, n)))
  }

  /** A schedule that drains `m` bytes drains any smaller number. */
  lemma {:induction false} DrainsFewer(ws: seq<WriteOutcome>, n: nat, m: nat)
    requires n <= m && Drains(ws, m)
    ensures Drains(ws, n)
    decreases |ws|
  {
    if n > 0 && ws[0].Room? {
      DrainsFewer(ws[1..], n - Min(ws[0].k, n), m - Min(ws[0].k, m));
    }
  }

  /** A connected socket channel. The streams are history kept for the proofs. */
  class Channel {
    var open: bool
    ghost var received: seq<byte>
    ghost var sent: seq<byte>

    ghost function View(): Chan
      reads this
    {
      Chan(open, received, sent)
    }

    /** A channel just returned by `accept`. */
    constructor Accepted()
      ensures View() == Chan(true, [], [])
    {
      open := true;
      received, sent := [], [];
    }

    method Read(buf: ByteBuffer, incoming: ReadOutcome) returns (r: Io<int>)
      requires buf.Valid()
      modifies this, buf, buf.data
      ensures buf.Valid()
      ensures ReadResult(View(), buf.View(), r) == ReadEffect(old(View()), old(buf.View()), incoming)
    {
      if !open {
        return IoFailure;
      }
      if buf.Remaining() == 0 {
        return Ok(0);
      }
      match incoming
      case Arrived(bytes) =>
        var n := Min(|bytes|, buf.Remaining());
        buf.Put(bytes[..n]);
        received := received + bytes[..n];
        r := Ok(n);
      case EndOfStream =>
        r := Ok(-1);
      case ReadFault =>
        r := IoFailure;
    }

    method Write(buf: ByteBuffer, w: WriteOutcome) returns (r: Io<nat>)
      requires buf.Valid()
      modifies this, buf
      ensures buf.Valid()
      ensures WriteResult(View(), buf.View(), r) == WriteEffect(old(View()), old(buf.View()), w)
    {
      if !open {
        return IoFailure;
      }
      if buf.Remaining() == 0 {
        return Ok(0);
      }
      match w
      case Room(k) =>
        var n := Min(k, buf.Remaining());
        sent := sent + buf.data[buf.position..buf.position + n];
        buf.Skip(n);
        r := Ok(n);
      case WriteFault =>
        r := IoFailure;
    }

    /** `close()`: closing an already closed channel has no further effect. */
    method Close()
      modifies this
      ensures View() == old(View()).(open := false)
    {
      open := false;
    }
  }

  /** The key a channel gets when it is registered with a selector. */
  class SelectionKey {
    var interest: Interest
    var valid: bool
    ghost var attachment: object?

    ghost function View(): Key
      reads this
    {
      Key(interest, valid)
    }

    /** `channel.register(selector, ops)`. */
    constructor Register(ops: Interest)
      ensures View() == Key(ops, true) && attachment == null
    {
      interest, valid := ops, true;
      attachment := null;
    }

    method Attach(o: object)
      modifies this
      ensures View() == old(View()) && attachment == o
    {
      attachment := o;
    }

    /** `interestOps(ops)`: on a cancelled key it throws CancelledKeyException (`ok` false)
        and leaves the key as it was. */
    method InterestOps(ops: Interest) returns (ok: bool)
      modifies this
      ensures ok == old(valid)
      ensures View() == if ok then old(View()).(interest := ops) else old(View())
      ensures attachment == old(attachment)
    {
      ok := valid;
      if ok {
        interest := ops;
      }
    }

    /** `cancel()`: cancelling a cancelled key has no further effect. */
    method Cancel()
      modifies this
      ensures View() == old(View()).(valid := false) && attachment == old(attachment)
    {
      valid := false;
    }
  }
}
