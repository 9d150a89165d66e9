/** The part of java.nio's heap ByteBuffer that the echo handlers rely on:
    allocate, wrap, flip, clear, remaining, the relative bulk get, and the two
    transfers a socket makes (a read puts bytes at the position, a write takes
    them from the position). A buffer is a backing array of fixed capacity
    with a position and a limit; no mark is ever set by the handlers. */
module Buffers {

  /** An octet as it travels on the wire (Java's signed byte, read as its bit pattern). */
  type byte = x: int | 0 <= x < 256

  /** Capacity of every handler's receive buffer: `ByteBuffer.allocate(1024)`. */
  const CAPACITY: nat := 1024

  function Min(a: nat, b: nat): nat { if a <= b then a else b }

  /** The value of a buffer: backing bytes (the capacity is their number), position and limit. */
  datatype Buf = Buf(data: seq<byte>, position: nat, limit: nat) {

    /** java.nio's invariant: 0 <= position <= limit <= capacity. */
    predicate Valid() { position <= limit <= |data| }

    function Remaining(): nat
      requires Valid()
    {
      limit - position
    }

    /** The bytes between position and limit: what a get or a channel write consumes next. */
    function Pending(): seq<byte>
      requires Valid()
    {
      data[position..limit]
    }

    /** The buffer is as `clear()` or `allocate` leaves it. */
    predicate IsClear() { position == 0 && limit == |data| }
  }

  /** `ByteBuffer.allocate(capacity)`: zero-filled, clear. */
  function Allocated(capacity: nat): (b: Buf)
    ensures b.Valid() && b.IsClear() && |b.data| == capacity
    ensures b.Remaining() == capacity
    ensures forall i :: 0 <= i < capacity ==> b.data[i] == 0
  {
    Buf(seq(capacity, _ => 0), 0, capacity)
  }

  /** `ByteBuffer.wrap(bytes)`: shares the bytes, position 0, limit and capacity |bytes|. */
  function Wrapped(bytes: seq<byte>): (b: Buf)
    ensures b.Valid() && b.IsClear() && b.Pending() == bytes
  {
    Buf(bytes, 0, |bytes|)
  }

  /** `flip()`: what was written so far, data[0..position), becomes what is read next. */
  function Flipped(b: Buf): (r: Buf)
    requires b.Valid()
    ensures r.Valid() && r.data == b.data && r.position == 0
    ensures r.Pending() == b.data[..b.position]
  {
    Buf(b.data, 0, b.position)
  }

  /** `clear()`: the whole capacity is writable again; the contents are left as they are. */
  function Cleared(b: Buf): (r: Buf)
    ensures r.Valid() && r.IsClear() && r.data == b.data
    ensures r.Remaining() == |b.data|
  {
    Buf(b.data, 0, |b.data|)
  }

  /** A relative bulk put of `src` at the position (the effect of a channel read). */
  function Filled(b: Buf, src: seq<byte>): (r: Buf)
    requires b.Valid() && |src| <= b.Remaining()
    ensures r.Valid() && |r.data| == |b.data| && r.limit == b.limit
    ensures r.position == b.position + |src|
    ensures r.data[..b.position] == b.data[..b.position]
    ensures r.data[b.position..r.position] == src
    ensures r.data[r.position..] == b.data[r.position..]
    ensures r.Remaining() == b.Remaining() - |src|
  {
    var after := b.data[b.position + |src|..];
    var r := Buf(b.data[..b.position] + src + after, b.position + |src|, b.limit);
    assert r.data[..b.position] == b.data[..b.position];
    assert r.data[b.position..r.position] == src;
    r
  }

  /** Moving the position forward by `n` (a relative bulk get of `n` bytes, or the part
      of a channel write the socket accepted). */
  function Advanced(b: Buf, n: nat): (r: Buf)
    requires b.Valid() && n <= b.Remaining()
    ensures r.Valid() && r.data == b.data && r.limit == b.limit
    ensures r.Remaining() == b.Remaining() - n
    ensures b.Pending() == b.data[b.position..r.position] + r.Pending()
  {
    var r := Buf(b.data, b.position + n, b.limit);
    assert b.data[b.position..b.limit] == b.data[b.position..r.position] + b.data[r.position..b.limit];
    r
  }

  /** The echo at the level of the buffer: bytes put into a cleared buffer are, after
      `flip()`, exactly the bytes pending, in order. */
  lemma FlipAfterFill(b: Buf, src: seq<byte>)
    requires b.Valid() && b.IsClear() && |src| <= b.Remaining()
    ensures Flipped(Filled(b, src)).Pending() == src
  {
  }

  /** The handlers' heap buffer: a backing array and two cursors updated in place. */
  class ByteBuffer {
    const data: array<byte>
    var position: nat
    var limit: nat

    ghost predicate Valid()
      reads this
    {
      position <= limit <= data.Length
    }

    ghost function View(): Buf
      reads this, data
    {
      Buf(data[..], position, limit)
    }

    constructor Allocate(capacity: nat)
      ensures Valid() && fresh(data) && View() == Allocated(capacity)
    {
      data := new byte[capacity](_ => 0);
      position, limit := 0, capacity;
      new;
      assert data[..] == seq(capacity, _ => 0);
    }

    constructor Wrap(backing: array<byte>)
      ensures Valid() && data == backing && View() == Wrapped(backing[..])
    {
      data := backing;
      position, limit := 0, backing.Length;
    }

    function Remaining(): nat
      reads this
      requires Valid()
    {
      limit - position
    }

    method Flip()
      requires Valid()
      modifies this
      ensures Valid() && View() == Flipped(old(View()))
    {
      limit := position;
      position := 0;
    }

    method Clear()
      requires Valid()
      modifies this
      ensures Valid() && View() == Cleared(old(View()))
    {
      position := 0;
      limit := data.Length;
    }

    /** Relative bulk get: copies the next `dst.Length` pending bytes into `dst`. */
    method Get(dst: array<byte>)
      requires Valid() && dst != data && dst.Length <= Remaining()
      modifies this, dst
      ensures Valid()
      ensures dst[..] == old(View()).Pending()[..dst.Length]
      ensures View() == Advanced(old(View()), dst.Length)
    {
      forall i | 0 <= i < dst.Length {
        dst[i] := data[position + i];
      }
      position := position + dst.Length;
    }

    /** Relative bulk put of `src` (what a channel read does to the buffer). */
    method Put(src: seq<byte>)
      requires Valid() && |src| <= Remaining()
      modifies this, data
      ensures Valid() && View() == Filled(old(View()), src)
    {
      ghost var before := View();
      forall i | 0 <= i < |src| {
        data[position + i] := src[i];
      }
      position := position + |src|;
      assert data[..] == before.data[..before.position] + src + before.data[before.position + |src|..];
    }

    /** Moves the position forward by `n` without copying (what a channel write does to the buffer). */
    method Skip(n: nat)
      requires Valid() && n <= Remaining()
      modifies this
      ensures Valid() && View() == Advanced(old(View()), n)
    {
      position := position + n;
    }
  }
}
