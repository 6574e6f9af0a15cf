/** Rings: a window of n places from head on, wrapping at the ring's length,
    and the masks that stand for the remainder when that length is a power of two. */
module RingWindow {

  // ---- masks ----

  /** Bitwise and of two naturals. */
  function And(a: nat, b: nat): nat {
    if a == 0 || b == 0 then 0 else (a % 2) * (b % 2) + 2 * And(a / 2, b / 2)
  }

  function Pow2(k: nat): (p: nat)
    ensures p >= 1
  {
    if k == 0 then 1 else 2 * Pow2(k - 1)
  }

  ghost predicate IsPow2(n: nat) { exists k: nat :: n == Pow2(k) }

  function Remainder(x: nat, n: nat): nat
    requires n >= 1
  {
    x % n
  }

  /** Masking with a power of two less one is the remainder. */
  lemma MaskIsMod(x: nat, k: nat)
    ensures And(x, Pow2(k) - 1) == x % Pow2(k)
  {
    hide And;
    MaskIsRemainder(x, k);
  }

  lemma {:induction false} MaskIsRemainder(x: nat, k: nat)
    ensures And(x, Pow2(k) - 1) == Remainder(x, Pow2(k))
    decreases k
  {
    hide And, Remainder;
    if k == 0 || x == 0 {
      AndZero(x, Pow2(k) - 1);
      RemainderZero(x, Pow2(k));
    } else {
      var m := Pow2(k - 1);
      AndOdd(x, m);
      MaskIsRemainder(x / 2, k - 1);
      HalfRemainder(x, m);
    }
  }

  lemma AndZero(x: nat, y: nat)
    requires x == 0 || y == 0
    ensures And(x, y) == 0
  {
  }

  lemma RemainderZero(x: nat, n: nat)
    requires n == 1 || (x == 0 && n > 0)
    ensures Remainder(x, n) == 0
  {
  }

  lemma AndOdd(x: nat, m: nat)
    requires x > 0 && m >= 1
    ensures And(x, 2 * m - 1) == x % 2 + 2 * And(x / 2, m - 1)
  {
    var y := 2 * m - 1;
    assert y % 2 == 1 && y / 2 == m - 1;
  }

  lemma HalfRemainder(x: nat, m: nat)
    requires m >= 1
    ensures Remainder(x, 2 * m) == x % 2 + 2 * Remainder(x / 2, m)
  {
    var q, r := x / 2 / m, x / 2 % m;
    assert x == 2 * (q * m + r) + x % 2;
    assert x == q * (2 * m) + (x % 2 + 2 * r);
    ModUnique(x, 2 * m, q, x % 2 + 2 * r);
  }

  lemma MulAtLeast(d: nat, n: nat)
    requires d >= 1
    ensures d * n >= n
  {
    assert d * n == (d - 1) * n + n;
    assert (d - 1) * n >= 0;
  }

  lemma ModUnique(x: nat, n: nat, q: nat, r: nat)
    requires n >= 1 && x == q * n + r && r < n
    ensures x % n == r
  {
    QuotientUnique(n, q, r, x / n, x % n);
  }

  lemma QuotientUnique(n: nat, q: nat, r: nat, q': nat, r': nat)
    requires n >= 1 && q * n + r == q' * n + r' && r < n && r' < n
    ensures r == r'
  {
    if q' > q {
      assert q' * n == q * n + (q' - q) * n;
      MulAtLeast(q' - q, n);
    } else if q' < q {
      assert q * n == q' * n + (q - q') * n;
      MulAtLeast(q - q', n);
    }
  }

  lemma {:induction false} Pow2Double(n: nat)
    requires IsPow2(n)
    ensures IsPow2(2 * n)
  {
    var k: nat :| n == Pow2(k);
    assert 2 * n == Pow2(k + 1);
  }

  lemma Pow2Init()
    ensures IsPow2(16)
  {
    assert Pow2(4) == 16;
  }

  // ---- windows ----

  /** Place k behind head in a ring of len slots. */
  function Place(head: nat, k: nat, len: nat): (i: nat)
    requires head < len && k <= len
    ensures k < len ==> i < len
  {
    if head + k < len then head + k else head + k - len
  }

  lemma PlaceIsMod(head: nat, k: nat, len: nat)
    requires head < len && k <= len
    ensures (head + k) % len == Place(head, k, len)
  {
    if head + k >= len { ModUnique(head + k, len, 1, head + k - len); } else { ModUnique(head + k, len, 0, head + k); }
  }

  /** The ring's contents, oldest first. */
  function Window<T>(ring: seq<T>, head: nat, n: nat): (w: seq<T>)
    requires n <= |ring| && (|ring| == 0 || head < |ring|)
    ensures |w| == n
  {
    seq(n, k requires 0 <= k < n => ring[Place(head, k, |ring|)])
  }

  /** A window that starts at the front. */
  lemma FrontWindow<T>(ring: seq<T>, n: nat)
    requires n <= |ring|
    ensures Window(ring, 0, n) == ring[..n]
  {
  }

  lemma WindowAt<T>(ring: seq<T>, head: nat, n: nat, k: nat)
    requires k < n <= |ring| && head < |ring|
    ensures Window(ring, head, n)[k] == ring[Place(head, k, |ring|)]
  {
  }

  /** Writing behind the window appends to it. */
  lemma WindowPush<T>(ring: seq<T>, head: nat, n: nat, x: T)
    requires n < |ring| && head < |ring|
    ensures Window(ring[Place(head, n, |ring|) := x], head, n + 1) == Window(ring, head, n) + [x]
  {
  }

  /** Advancing the head takes the oldest away; the slot left behind may be cleared. */
  lemma WindowPop<T>(ring: seq<T>, head: nat, n: nat, zero: T)
    requires 0 < n <= |ring| && head < |ring|
    ensures Window(ring[head := zero], (head + 1) % |ring|, n - 1) == Window(ring, head, n)[1..]
    ensures Window(ring, head, n)[0] == ring[head] && (head + 1) % |ring| < |ring|
  {
    PlaceIsMod(head, 1, |ring|);
  }
}
