/** quic/datagram.go: the growable rings of the egress and ingress queues.
    Both are proved to be FIFO sequences through growth, masked or modular
    indexing and release; the egress write keeps the count and byte bounds. */
module QuicRings {
  import opened Bytes
  import opened RingWindow

  const EGRESS_MAX := 4096     // egressMax
  const EGRESS_INIT := 16      // egressInit
  const EGRESS_AGE := 250      // egressAge, in milliseconds
  const INGRESS_MAX := 2048    // ingressMax
  const INGRESS_INIT := 16     // ingressInit

  // ---- the egress queue ----

  /** A queued datagram: its bytes, its buffer's capacity, when it was queued. */
  datatype Slot = Slot(b: seq<Byte>, cap: nat, at: int)

  const NO_SLOT := Slot([], 0, 0)

  function Caps(q: seq<Slot>): nat {
    if q == [] then 0 else q[0].cap + Caps(q[1..])
  }

  lemma {:induction false} CapsAppend(q: seq<Slot>, s: Slot)
    ensures Caps(q + [s]) == Caps(q) + s.cap
  {
    if q == [] {
      assert q + [s] == [s];
    } else {
      assert (q + [s])[1..] == q[1..] + [s];
      CapsAppend(q[1..], s);
    }
  }

  /** WriteTo need drop nothing of q for a new buffer of this capacity. */
  predicate Fits(q: seq<Slot>, cap: nat, max: nat, now: int) {
    q == [] || (|q| != EGRESS_MAX && Caps(q) + cap <= max && now - q[0].at <= EGRESS_AGE)
  }

  /** The fewest oldest datagrams WriteTo drops. */
  function Stale(q: seq<Slot>, cap: nat, max: nat, now: int): (k: nat)
    ensures k <= |q| && Fits(q[k..], cap, max, now)
    ensures forall j :: 0 <= j < k ==> !Fits(q[j..], cap, max, now)
  {
    if Fits(q, cap, max, now) then 0
    else
      var k := Stale(q[1..], cap, max, now);
      assert q[1..][k..] == q[k + 1..];
      assert forall j :: 0 < j < k + 1 ==> q[j..] == q[1..][j - 1..];
      k + 1
  }

  /** egress, as the sender and WriteTo change it under its lock. */
  class Egress {
    var ring: array<Slot>
    var head: nat
    var n: nat
    var bytes: nat
    const max: nat

    ghost predicate Valid()
      reads this, ring
    {
      && (ring.Length == 0 || (IsPow2(ring.Length) && head < ring.Length))
      && n <= ring.Length && n <= EGRESS_MAX
      && bytes == Caps(Window(ring[..], head, n))
    }

    /** The queued datagrams, oldest first. */
    ghost function Queue(): seq<Slot>
      reads this, ring
      requires Valid()
    {
      Window(ring[..], head, n)
    }

    constructor (max: nat)
      ensures Valid() && Queue() == [] && this.max == max && fresh(ring)
    {
      this.max := max;
      ring := new Slot[0];
      head, n, bytes := 0, 0, 0;
    }

    /** slot: where the k-th queued datagram is. */
    method At(k: nat) returns (i: nat)
      requires Valid() && k < ring.Length
      ensures i == Place(head, k, ring.Length)
    {
      i := And(head + k, ring.Length - 1);
      ghost var p: nat :| ring.Length == Pow2(p);
      MaskIsMod(head + k, p);
      PlaceIsMod(head, k, ring.Length);
    }

    /** The queued datagrams, copied to the front of r. */
    method CopyTo(r: array<Slot>)
      requires Valid() && n <= r.Length && r != ring
      modifies r
      ensures r[..n] == Queue()
    {
      hide Caps, IsPow2;
      ghost var q := Queue();
      for i := 0 to n
        invariant r[..i] == q[..i]
      {
        WindowAt(ring[..], head, n, i);
        var j := At(i);
        r[i] := ring[j];
        assert r[..i + 1] == r[..i] + [r[i]] && q[..i + 1] == q[..i] + [q[i]];
      }
      assert q[..n] == q;
    }

    /** The ring doubles (at least EGRESS_INIT slots), its datagrams moved to the front. */
    method Grow()
      requires Valid() && n == ring.Length && n < EGRESS_MAX
      modifies this`ring, this`head
      ensures Valid() && Queue() == old(Queue()) && n < ring.Length && fresh(ring)
    {
      hide Caps, Window;
      var size := if 2 * n > EGRESS_INIT then 2 * n else EGRESS_INIT;
      assert IsPow2(size) by {
        Pow2Init();
        if n > 0 { Pow2Double(n); }
      }
      var r := new Slot[size](_ => NO_SLOT);
      CopyTo(r);
      FrontWindow(r[..], n);
      assert r[..][..n] == r[..n];
      ring, head := r, 0;
    }

    method Push(s: Slot)
      requires Valid() && n < EGRESS_MAX
      modifies this, ring
      ensures Valid() && Queue() == old(Queue()) + [s] && (ring == old(ring) || fresh(ring))
    {
      if n == ring.Length { Grow(); }
      ghost var before := ring[..];
      var i := At(n);
      WindowPush(before, head, n, s);
      CapsAppend(Queue(), s);
      ring[i] := s;
      assert ring[..] == before[i := s];
      n, bytes := n + 1, bytes + s.cap;
    }

    /** pop: the oldest; a drained ring above 4 * EGRESS_INIT slots is released. */
    method Pop() returns (s: Slot)
      requires Valid() && n > 0
      modifies this, ring
      ensures Valid() && old(Queue()) == [s] + Queue() && (ring == old(ring) || fresh(ring))
    {
      ghost var before, q := ring[..], Queue();
      WindowPop(before, head, n, NO_SLOT);
      var i := At(0);
      s := ring[i];
      var next := And(head + 1, ring.Length - 1);
      ghost var p: nat :| ring.Length == Pow2(p);
      MaskIsMod(head + 1, p);
      ring[i] := NO_SLOT;
      assert ring[..] == before[head := NO_SLOT];
      assert q == [s] + q[1..];
      head, n, bytes := next, n - 1, bytes - s.cap;
      if n == 0 && ring.Length > 4 * EGRESS_INIT {
        ring, head := new Slot[0], 0;
      }
    }

    /** WriteTo's region: makes room at the old end, then queues; what it drops is the least that makes room. */
    method Write(b: seq<Byte>, cap: nat, now: int) returns (dropped: nat)
      requires Valid()
      modifies this, ring
      ensures Valid() && (ring == old(ring) || fresh(ring))
      ensures dropped == Stale(old(Queue()), cap, max, now)
      ensures Queue() == old(Queue())[dropped..] + [Slot(b, cap, now)]
      ensures bytes <= max || n == 1
    {
      dropped := MakeRoom(cap, now);
      CapsAppend(Queue(), Slot(b, cap, now));
      Push(Slot(b, cap, now));
    }

    /** The old end leaves until the datagram fits. */
    method MakeRoom(cap: nat, now: int) returns (dropped: nat)
      requires Valid()
      modifies this, ring
      ensures Valid() && (ring == old(ring) || fresh(ring))
      ensures dropped == Stale(old(Queue()), cap, max, now) && Queue() == old(Queue())[dropped..]
      ensures n < EGRESS_MAX && (n == 0 || bytes + cap <= max)
    {
      dropped := 0;
      ghost var q := Queue();
      while true
        invariant Valid() && dropped <= |q| && Queue() == q[dropped..] && (ring == old(ring) || fresh(ring))
        invariant forall j :: 0 <= j < dropped ==> !Fits(q[j..], cap, max, now)
        decreases n
      {
        if n == 0 { break; }
        var i := At(0);
        assert ring[i] == Queue()[0];
        if !(n == EGRESS_MAX || bytes + cap > max || now - ring[i].at > EGRESS_AGE) { break; }
        var s := Pop();
        dropped := dropped + 1;
      }
    }

    /** discard: what is still queued, counted. */
    method Discard() returns (dropped: nat)
      requires Valid()
      modifies this, ring
      ensures Valid() && Queue() == [] && dropped == |old(Queue())|
    {
      dropped := n;
      while n > 0
        invariant Valid() && (ring == old(ring) || fresh(ring))
        decreases n
      {
        var s := Pop();
      }
    }
  }

  // ---- the ingress queue ----

  function Lens(q: seq<seq<Byte>>): nat {
    if q == [] then 0 else |q[0]| + Lens(q[1..])
  }

  lemma {:induction false} LensAppend(q: seq<seq<Byte>>, b: seq<Byte>)
    ensures Lens(q + [b]) == Lens(q) + |b|
  {
    if q == [] {
      assert q + [b] == [b];
    } else {
      assert (q + [b])[1..] == q[1..] + [b];
      LensAppend(q[1..], b);
    }
  }

  datatype PopResult = Datagram(b: seq<Byte>) | Deadline | Failed | Wait

  /** ingress: tail drop by count and bytes, and a terminal error behind the queue. */
  class Ingress {
    var ring: array<seq<Byte>>
    var head: nat
    var n: nat
    var bytes: nat
    var failed: bool
    const max: nat

    ghost predicate Valid()
      reads this, ring
    {
      && ring.Length > 0 && head < ring.Length && n <= ring.Length && n <= INGRESS_MAX
      && bytes == Lens(Window(ring[..], head, n)) && bytes <= max
    }

    ghost function Queue(): seq<seq<Byte>>
      reads this, ring
      requires Valid()
    {
      Window(ring[..], head, n)
    }

    constructor (max: nat)
      ensures Valid() && Queue() == [] && !failed && this.max == max && fresh(ring)
    {
      this.max := max;
      ring := new seq<Byte>[INGRESS_INIT](_ => []);
      head, n, bytes, failed := 0, 0, 0, false;
    }

    method Grow()
      requires Valid() && n == ring.Length
      modifies this`ring, this`head
      ensures Valid() && Queue() == old(Queue()) && n < ring.Length && fresh(ring)
    {
      ghost var q := Queue();
      var r := new seq<Byte>[2 * n](_ => []);
      for i := 0 to n
        invariant Valid() && Queue() == q && forall k :: 0 <= k < i ==> r[k] == q[k]
        modifies r
      {
        PlaceIsMod(head, i, n);
        r[i] := ring[(head + i) % n];
      }
      ring, head := r, 0;
      assert Window(ring[..], head, n) == q;
    }

    /** push: refused when failed (closed) or full, else behind the rest. */
    method Push(b: seq<Byte>) returns (full: bool, closed: bool)
      requires Valid()
      modifies this, ring
      ensures Valid() && failed == old(failed) && (ring == old(ring) || fresh(ring))
      ensures closed == old(failed)
      ensures full == (!closed && (|old(Queue())| == INGRESS_MAX || Lens(old(Queue())) + |b| > max))
      ensures Queue() == if full || closed then old(Queue()) else old(Queue()) + [b]
    {
      if failed { return false, true; }
      if n == INGRESS_MAX || bytes + |b| > max { return true, false; }
      full, closed := false, false;
      if n == ring.Length { Grow(); }
      ghost var before := ring[..];
      WindowPush(before, head, n, b);
      LensAppend(Queue(), b);
      PlaceIsMod(head, n, ring.Length);
      var i := (head + n) % ring.Length;
      ring[i] := b;
      assert ring[..] == before[i := b];
      n, bytes := n + 1, bytes + |b|;
    }

    /** fail: the terminal error; Close also discards what is queued. */
    method Fail(discard: bool)
      requires Valid()
      modifies this, ring
      ensures Valid() && failed && ring == old(ring) && Queue() == if discard then [] else old(Queue())
    {
      failed := true;
      if discard {
        ghost var q := Queue();
        forall i | 0 <= i < ring.Length { ring[i] := []; }
        n, bytes := 0, 0;
      }
    }

    /** One round of pop: the oldest datagram unless the deadline passed, else
        the deadline before a queue, the terminal error before the deadline. */
    method Pop(expired: bool) returns (r: PopResult)
      requires Valid()
      modifies this, ring
      ensures Valid() && failed == old(failed) && (ring == old(ring) || fresh(ring))
      ensures r.Datagram? <==> old(Queue()) != [] && !expired
      ensures r.Datagram? ==> old(Queue()) == [r.b] + Queue()
      ensures !r.Datagram? ==> Queue() == old(Queue())
      ensures r.Deadline? <==> expired && (old(Queue()) != [] || !failed)
      ensures r.Failed? <==> old(Queue()) == [] && failed
    {
      if n > 0 && !expired {
        ghost var before, q := ring[..], Queue();
        WindowPop(before, head, n, []);
        var b := ring[head];
        ring[head] := [];
        assert ring[..] == before[head := []];
        assert q == [b] + q[1..];
        head, n, bytes := (head + 1) % ring.Length, n - 1, bytes - |b|;
        if n == 0 && ring.Length > 4 * INGRESS_INIT {
          ring, head := new seq<Byte>[INGRESS_INIT](_ => []), 0;
        }
        return Datagram(b);
      }
      if n > 0 || (!failed && expired) { return Deadline; }
      return if failed then Failed else Wait;
    }
  }
}
