/** How the acceptor reactor spreads accepted connections over its N sub-reactors:
    the count-th accepted connection (counting from 0) goes to sub-reactor count mod N.
    The counter of the code as written is a 32-bit AtomicInteger read with Java's `%`;
    the last part of this module models that and shows where it leaves the array. */
module RoundRobin {

  /** The sub-reactor the `count`-th accepted connection (0-based) is handed to. */
  function Target(count: nat, n: nat): (t: nat)
    requires n >= 1
    ensures t < n
  {
    count % n
  }

  lemma {:induction false} MulAtLeast(n: nat, d: nat)
    requires d >= 1
    ensures n * d >= n
  {
    if d > 1 {
      MulAtLeast(n, d - 1);
      assert n * d == n * (d - 1) + n;
    }
  }

  /** Division with remainder has one answer: x = n * q + r with 0 <= r < n fixes q and r. */
  lemma DivModUnique(x: int, n: nat, q: int, r: int)
    requires n >= 1 && 0 <= r < n && x == n * q + r
    ensures x / n == q && x % n == r
  {
    var q', r' := x / n, x % n;
    assert n * q' + r' == n * q + r;
    assert n * (q' - q) == r - r';
    if q' - q >= 1 {
      MulAtLeast(n, q' - q);
    } else if q - q' >= 1 {
      MulAtLeast(n, q - q');
    }
  }

  /** Consecutive connections go to consecutive sub-reactors, wrapping from the last to the first. */
  lemma TargetSuccessor(count: nat, n: nat)
    requires n >= 1
    ensures Target(count + 1, n) == if Target(count, n) + 1 == n then 0 else Target(count, n) + 1
    ensures (count + 1) / n == if Target(count, n) + 1 == n then count / n + 1 else count / n
  {
    var q, r := count / n, count % n;
    assert count == n * q + r;
    if r + 1 == n {
      assert count + 1 == n * (q + 1) + 0;
      DivModUnique(count + 1, n, q + 1, 0);
    } else {
      DivModUnique(count + 1, n, q, r + 1);
    }
  }

  /** How many of the first `k` accepted connections went to sub-reactor `j`. */
  function Hits(k: nat, n: nat, j: nat): nat
    requires n >= 1
  {
    if k == 0 then 0
    else Hits(k - 1, n, j) + (if Target(k - 1, n) == j then 1 else 0)
  }

  /** After k accepts, sub-reactor j < N holds k div N connections, plus one when j is
      among the first k mod N: the load never differs by more than one. */
  lemma {:induction false} HitsCount(k: nat, n: nat, j: nat)
    requires n >= 1 && j < n
    ensures Hits(k, n, j) == k / n + (if j < k % n then 1 else 0)
  {
    if k > 0 {
      HitsCount(k - 1, n, j);
      TargetSuccessor(k - 1, n);
      var q, r := (k - 1) / n, (k - 1) % n;
      assert Hits(k, n, j) == q + (if j < r then 1 else 0) + (if r == j then 1 else 0);
      if r + 1 == n {
        assert k / n == q + 1 && k % n == 0;
      } else {
        assert k / n == q && k % n == r + 1;
      }
    }
  }

  /** With at least N accepts every sub-reactor has been given a connection, and any two
      sub-reactors hold numbers of connections that differ by at most one. */
  lemma Balanced(k: nat, n: nat, i: nat, j: nat)
    requires n >= 1 && i < n && j < n
    ensures k >= n ==> Hits(k, n, j) >= 1
    ensures Hits(k, n, i) <= Hits(k, n, j) + 1
  {
    HitsCount(k, n, i);
    HitsCount(k, n, j);
    if k >= n {
      DivModUnique(k, n, 1 + (k - n) / n, (k - n) % n);
    }
  }

  // ---------------------------------------------------------------------------
  // The code as written: `subReactors[next.getAndIncrement() % subReactors.length]`.

  /** Java's `int` arithmetic: two's-complement wrap-around into [-2^31, 2^31). */
  function Wrap32(x: int): (r: int)
    ensures -0x8000_0000 <= r < 0x8000_0000
    ensures (x - r) % 0x1_0000_0000 == 0
  {
    var m := x % 0x1_0000_0000;
    if m >= 0x8000_0000 then m - 0x1_0000_0000 else m
  }

  /** Java's `%` on int: truncating division, so the remainder has the sign of the dividend. */
  function JavaRem(a: int, b: int): (r: int)
    requires b > 0
    ensures a >= 0 ==> r == a % b
    ensures a < 0 ==> -b < r <= 0
    ensures (a - r) % b == 0
  {
    if a >= 0 then
      DivModUnique(a - a % b, b, a / b, 0);
      a % b
    else
      DivModUnique(a + (-a) % b, b, -((-a) / b), 0);
      -((-a) % b)
  }

  /** The index the source computes for the `count`-th accept: the AtomicInteger has been
      incremented `count` times from 0, wrapping at 2^31, and its value is taken modulo N
      with Java's `%`. */
  function IndexAsWritten(count: nat, n: nat): (i: int)
    requires n >= 1
    ensures -(n as int) < i < n
    ensures i < 0 ==> Wrap32(count) < 0
  {
    JavaRem(Wrap32(count), n)
  }

  /** For the first 2^31 accepts the code as written picks count mod N. */
  lemma AsWrittenAgreesBeforeWrap(count: nat, n: nat)
    requires n >= 1 && count < 0x8000_0000
    ensures IndexAsWritten(count, n) == Target(count, n)
  {
  }

  /** The accept numbered 2^31 reads the counter as -2^31; with three sub-reactors the
      index is -2, outside the array, and the ArrayIndexOutOfBoundsException ends the
      acceptor's loop. */
  lemma AsWrittenOutOfBoundsAtWrap()
    ensures IndexAsWritten(0x8000_0000, 3) == -2
  {
    assert Wrap32(0x8000_0000) == -0x8000_0000;
  }

  /** Of two consecutive integers at most one is a multiple of n >= 2. */
  lemma NextNotMultiple(x: int, n: nat)
    requires n >= 2 && x % n == 0
    ensures (x + 1) % n == 1
  {
    DivModUnique(x + 1, n, x / n, 1);
  }

  /** No number of sub-reactors other than one is safe: accept 2^31 or accept 2^31 + 1
      computes a negative index. */
  lemma EveryNFailsAtWrap(n: nat)
    requires n >= 2
    ensures IndexAsWritten(0x8000_0000, n) < 0 || IndexAsWritten(0x8000_0001, n) < 0
  {
    assert Wrap32(0x8000_0000) == -0x8000_0000;
    assert Wrap32(0x8000_0001) == -0x7FFF_FFFF;
    if IndexAsWritten(0x8000_0000, n) == 0 {
      NextNotMultiple(-0x8000_0000, n);
    }
  }
}
