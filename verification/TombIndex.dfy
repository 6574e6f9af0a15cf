/** tables.go: the tombstone index. A doubly linked FIFO list and an indexed
    min-heap (container/heap's sift operations) hold the same tombstones; the
    class keeps both in place and is proved against one sequence, oldest first. */
module TombIndex {

  /** A tombstone: its expiry never changes; its links belong to the index. */
  class Tomb {
    const expiry: int
    var prev: Tomb?
    var next: Tomb?
    var heapIdx: int

    constructor (expiry: int)
      ensures this.expiry == expiry && prev == null && next == null && heapIdx == -1
    {
      this.expiry := expiry;
      prev, next, heapIdx := null, null, -1;
    }
  }

  // ---- the heap, as a sequence ----

  predicate Child(p: int, i: int) { i == 2 * p + 1 || i == 2 * p + 2 }

  ghost predicate HeapOrder(h: seq<Tomb>) {
    forall p, i :: 0 <= p < i < |h| && Child(p, i) ==> h[p].expiry <= h[i].expiry
  }

  /** Heap order but between place j and its parent; j's children are above j's parent. */
  ghost predicate OrderButUp(h: seq<Tomb>, m: nat, j: nat)
    requires m <= |h|
  {
    && (forall p, i :: 0 <= p < i < m && Child(p, i) && i != j ==> h[p].expiry <= h[i].expiry)
    && (forall p, i :: 0 <= p < j < i < m && Child(p, j) && Child(j, i) ==> h[p].expiry <= h[i].expiry)
  }

  /** Heap order among the first m but around place j, whose children are above its parent. */
  ghost predicate OrderBut(h: seq<Tomb>, m: nat, j: nat)
    requires m <= |h|
  {
    && (forall p, i :: 0 <= p < i < m && Child(p, i) && p != j && i != j ==> h[p].expiry <= h[i].expiry)
    && (forall p, i :: 0 <= p < j < i < m && Child(p, j) && Child(j, i) ==> h[p].expiry <= h[i].expiry)
  }

  /** The root of a heap expires first. */
  lemma {:induction false} RootIsLeast(h: seq<Tomb>, i: nat)
    requires HeapOrder(h) && i < |h|
    ensures h[0].expiry <= h[i].expiry
  {
    if i > 0 {
      RootIsLeast(h, (i - 1) / 2);
      assert Child((i - 1) / 2, i);
    }
  }

  /** Exchanging place j with its parent i moves the exception up. */
  lemma SwapUp(h: seq<Tomb>, m: nat, i: nat, j: nat)
    requires i < j < m <= |h| && OrderButUp(h, m, j) && Child(i, j) && h[j].expiry < h[i].expiry
    ensures OrderButUp(h[i := h[j]][j := h[i]], m, i)
  {
  }

  lemma UpDone(h: seq<Tomb>, m: nat, j: nat)
    requires j < m <= |h| && OrderButUp(h, m, j) && (j == 0 || h[(j - 1) / 2].expiry <= h[j].expiry)
    ensures HeapOrder(h[..m])
  {
    forall p, i | 0 <= p < i < m && Child(p, i) ensures h[p].expiry <= h[i].expiry {
      if i == j { assert p == (j - 1) / 2; }
    }
  }

  /** Exchanging place i with its least child moves the exception down. */
  lemma SwapDown(h: seq<Tomb>, m: nat, i: nat, j: nat)
    requires i < j < m <= |h| && OrderBut(h, m, i) && Child(i, j)
    requires h[j].expiry < h[i].expiry && forall k :: 0 <= k < m && Child(i, k) ==> h[j].expiry <= h[k].expiry
    ensures var r := h[i := h[j]][j := h[i]];
            OrderBut(r, m, j) && forall p :: 0 <= p < j && Child(p, j) ==> r[p].expiry <= r[j].expiry
  {
  }

  lemma DownDone(h: seq<Tomb>, m: nat, i: nat)
    requires i < m <= |h| && OrderBut(h, m, i)
    requires forall k :: 0 <= k < m && Child(i, k) ==> h[i].expiry <= h[k].expiry
    ensures OrderButUp(h, m, i)
    ensures (forall p :: 0 <= p < i && Child(p, i) ==> h[p].expiry <= h[i].expiry) ==> HeapOrder(h[..m])
  {
  }

  /** What is left at now, oldest first. */
  function Unexpired(q: seq<Tomb>, now: int): seq<Tomb> {
    if q == [] then [] else (if now < q[0].expiry then [q[0]] else []) + Unexpired(q[1..], now)
  }

  lemma {:induction false} UnexpiredSkips(q: seq<Tomb>, k: nat, now: int)
    requires k < |q| && q[k].expiry <= now
    ensures Unexpired(q[..k] + q[k + 1..], now) == Unexpired(q, now)
  {
    if k == 0 {
      assert q[..0] + q[1..] == q[1..];
    } else {
      UnexpiredSkips(q[1..], k - 1, now);
      assert (q[..k] + q[k + 1..])[1..] == q[1..][..k - 1] + q[1..][k..];
    }
  }

  lemma {:induction false} UnexpiredAll(q: seq<Tomb>, now: int)
    requires forall i :: 0 <= i < |q| ==> now < q[i].expiry
    ensures Unexpired(q, now) == q
  {
    if q != [] { UnexpiredAll(q[1..], now); }
  }

  /** tombIndex, under its mutex. fifo is the list it keeps, oldest first. */
  class Index {
    const limit: nat
    var head: Tomb?
    var tail: Tomb?
    var n: nat
    var h: seq<Tomb>
    ghost var fifo: seq<Tomb>

    /** The list part: links, ends and count follow fifo. */
    ghost predicate Linked()
      reads this, fifo
    {
      && n == |fifo|
      && (forall i, j :: 0 <= i < j < |fifo| ==> fifo[i] != fifo[j])
      && (forall i {:trigger fifo[i].prev} :: 0 <= i < |fifo| ==> fifo[i].prev == if i == 0 then null else fifo[i - 1])
      && (forall i {:trigger fifo[i].next} :: 0 <= i < |fifo| ==>
            fifo[i].next == if i == |fifo| - 1 then null else fifo[i + 1])
      && head == (if fifo == [] then null else fifo[0])
      && tail == (if fifo == [] then null else fifo[|fifo| - 1])
    }

    ghost predicate Indexed(repr: set<Tomb>)
      reads this, repr
    {
      forall i :: 0 <= i < |h| ==> h[i] in repr && h[i].heapIdx == i
    }

    ghost function Members(): set<Tomb>
      reads this
    {
      set e | e in fifo
    }

    /** Both orders hold the same tombstones, each once. */
    ghost predicate Valid()
      reads this, fifo
    {
      Linked() && Indexed(Members()) && HeapOrder(h) && multiset(h) == multiset(fifo)
    }

    constructor (limit: nat)
      ensures Valid() && fifo == [] && this.limit == limit
    {
      this.limit := limit;
      head, tail, n, h, fifo := null, null, 0, [], [];
    }

    // container/heap over h

    method Swap(i: nat, j: nat, ghost repr: set<Tomb>)
      requires Indexed(repr) && i < |h| && j < |h|
      modifies this`h, repr`heapIdx
      ensures Indexed(repr) && h == old(h)[i := old(h)[j]][j := old(h)[i]]
      ensures multiset(h) == multiset(old(h))
    {
      h := h[i := h[j]][j := h[i]];
      h[i].heapIdx := i;
      h[j].heapIdx := j;
    }

    /** up among the first m places; the rest stays. */
    method Up(j0: nat, m: nat, ghost repr: set<Tomb>)
      requires Indexed(repr) && j0 < m <= |h| && OrderButUp(h, m, j0)
      modifies this`h, repr`heapIdx
      ensures Indexed(repr) && multiset(h) == multiset(old(h)) && |h| == |old(h)| && h[m..] == old(h)[m..]
      ensures HeapOrder(h[..m])
    {
      hide OrderButUp, HeapOrder;
      var j: nat := j0;
      while true
        invariant |h| == |old(h)| && j < m && Indexed(repr) && OrderButUp(h, m, j)
        invariant multiset(h) == multiset(old(h)) && h[m..] == old(h)[m..]
        decreases j
      {
        var i := (j - 1) / 2;
        if j == 0 || !(h[j].expiry < h[i].expiry) { break; }
        assert Child(i, j);
        ghost var was := h;
        Swap(i, j, repr);
        SwapUp(was, m, i, j);
        j := i;
      }
      UpDone(h, m, j);
    }

    /** down over the first m places; the rest stays. moved: place i0 changed. */
    method Down(i0: nat, m: nat, ghost repr: set<Tomb>) returns (moved: bool)
      requires Indexed(repr) && i0 < m <= |h| && OrderBut(h, m, i0)
      modifies this`h, repr`heapIdx
      ensures Indexed(repr) && multiset(h) == multiset(old(h)) && |h| == |old(h)| && h[m..] == old(h)[m..]
      ensures moved ==> HeapOrder(h[..m])
      ensures !moved ==> h == old(h) && OrderButUp(h, m, i0)
    {
      var i: nat := i0;
      while true
        invariant |h| == |old(h)| && i0 <= i < m && Indexed(repr) && OrderBut(h, m, i)
        invariant multiset(h) == multiset(old(h)) && h[m..] == old(h)[m..]
        invariant i == i0 ==> h == old(h)
        invariant i != i0 ==> forall p :: 0 <= p < i && Child(p, i) ==> h[p].expiry <= h[i].expiry
        decreases m - i
      {
        var j := 2 * i + 1;
        if j >= m { break; }
        if j + 1 < m && h[j + 1].expiry < h[j].expiry { j := j + 1; }
        if !(h[j].expiry < h[i].expiry) { break; }
        SwapDown(h, m, i, j);
        Swap(i, j, repr);
        i := j;
      }
      DownDone(h, m, i);
      moved := i > i0;
    }

    /** heap.Push. */
    method HeapPush(e: Tomb, ghost repr: set<Tomb>)
      requires Indexed(repr) && HeapOrder(h) && e in repr && e !in h
      modifies this`h, repr`heapIdx
      ensures Indexed(repr) && HeapOrder(h) && multiset(h) == multiset(old(h)) + multiset{e}
    {
      e.heapIdx := |h|;
      h := h + [e];
      ghost var m := |h|;
      Up(|h| - 1, |h|, repr);
      assert h[..m] == h;
    }

    /** The last entry takes place i, then sinks or rises among the others. */
    method Resettle(i: nat, last: nat, ghost repr: set<Tomb>)
      requires Indexed(repr) && HeapOrder(h) && i < last == |h| - 1
      modifies this`h, repr`heapIdx
      ensures Indexed(repr) && |h| == |old(h)| && HeapOrder(h[..last]) && h[last] == old(h)[i]
      ensures multiset(h) == multiset(old(h))
    {
      SwappedBut(h, i, last);
      Swap(i, last, repr);
      ghost var swapped := h;
      var moved := Down(i, last, repr);
      if !moved { Up(i, last, repr); }
      assert h[last..] == swapped[last..];
      assert h[last] == h[last..][0] == swapped[last..][0];
    }

    /** heap.Remove. */
    method HeapRemove(i: nat, ghost repr: set<Tomb>) returns (e: Tomb)
      requires Indexed(repr) && HeapOrder(h) && i < |h|
      modifies this`h, repr`heapIdx
      ensures Indexed(repr) && HeapOrder(h) && e == old(h)[i]
      ensures multiset(old(h)) == multiset(h) + multiset{e}
    {
      var last: nat := |h| - 1;
      if i != last { Resettle(i, last, repr); }
      e := h[last];
      assert h == h[..last] + [e];
      h := h[..last];
      e.heapIdx := -1;
    }

    /** removeLocked's list half: e's neighbours meet. */
    method Unlink(e: Tomb, ghost k: nat)
      requires Linked() && k < |fifo| && fifo[k] == e
      modifies this`head, this`tail, this`n, this`fifo, Members()`prev, Members()`next
      ensures Linked() && fifo == old(fifo)[..k] + old(fifo)[k + 1..]
      ensures e.prev == null && e.next == null
    {
      ghost var q := fifo;
      assert e.prev == (if k == 0 then null else q[k - 1]) && e.next == (if k == |q| - 1 then null else q[k + 1]) by {
        assert q[k].prev == e.prev && q[k].next == e.next;
      }
      assert k > 0 ==> q[k - 1] in Members();
      assert k < |q| - 1 ==> q[k + 1] in Members();
      if e.prev != null { e.prev.next := e.next; } else { head := e.next; }
      if e.next != null { e.next.prev := e.prev; } else { tail := e.prev; }
      e.prev, e.next := null, null;
      n := n - 1;
      fifo := fifo[..k] + fifo[k + 1..];
      forall i | 0 <= i < |fifo| ensures fifo[i].prev == (if i == 0 then null else fifo[i - 1]) {
        var o := if i < k then i else i + 1;
        assert old(q[o].prev) == (if o == 0 then null else q[o - 1]);
      }
      forall i | 0 <= i < |fifo| ensures fifo[i].next == (if i == |fifo| - 1 then null else fifo[i + 1]) {
        var o := if i < k then i else i + 1;
        assert old(q[o].next) == (if o == |q| - 1 then null else q[o + 1]);
      }
    }

    /** push's list half: e becomes the youngest. */
    method Link(e: Tomb)
      requires Linked() && e !in fifo
      modifies this`head, this`tail, this`n, this`fifo, e`prev, e`next, Members()`next
      ensures Linked() && fifo == old(fifo) + [e]
    {
      ghost var q := fifo;
      assert q != [] ==> tail in Members() && tail == q[|q| - 1];
      e.prev, e.next := tail, null;
      if tail != null { tail.next := e; } else { head := e; }
      tail := e;
      n := n + 1;
      fifo := fifo + [e];
      forall i | 0 <= i < |fifo|
        ensures fifo[i].prev == (if i == 0 then null else fifo[i - 1])
        ensures fifo[i].next == (if i == |fifo| - 1 then null else fifo[i + 1])
      {
        if i < |q| {
          assert q[i] in q && q[i] != e;
          assert old(q[i].prev) == (if i == 0 then null else q[i - 1]);
          assert old(q[i].next) == (if i == |q| - 1 then null else q[i + 1]);
        }
      }
    }

    /** removeLocked: e leaves both orders. */
    method Remove(e: Tomb, ghost k: nat)
      requires Valid() && k < |fifo| && fifo[k] == e
      modifies this, Members()
      ensures Valid() && fifo == old(fifo)[..k] + old(fifo)[k + 1..]
    {
      ghost var repr := Members();
      HeapPlace(h, fifo, k);
      assert h[e.heapIdx] == e;
      var i := e.heapIdx;
      Unlink(e, k);
      var e' := HeapRemove(i, repr);
      StillSame(old(h), h, old(fifo), k);
    }

    /** pruneLocked: takes the heap's root while it is expired. */
    method Prune(now: int) returns (victims: seq<Tomb>)
      requires Valid()
      modifies this, Members()
      ensures Valid() && fifo == Unexpired(old(fifo), now)
      ensures multiset(old(fifo)) == multiset(fifo) + multiset(victims)
      ensures forall v :: v in victims ==> v.expiry <= now
      ensures forall i :: 0 <= i < |fifo| ==> now < fifo[i].expiry
    {
      hide Valid, Unexpired;
      victims := [];
      ghost var q := fifo;
      while |h| > 0 && h[0].expiry <= now
        invariant Valid() && Members() <= old(Members()) && Unexpired(fifo, now) == Unexpired(q, now)
        invariant multiset(q) == multiset(fifo) + multiset(victims)
        invariant forall v :: v in victims ==> v.expiry <= now
        decreases n
      {
        var v := RemoveRoot(now);
        victims := victims + [v];
      }
      NoneExpired(now);
      UnexpiredAll(fifo, now);
    }

    /** The expired root leaves. */
    method RemoveRoot(now: int) returns (v: Tomb)
      requires Valid() && |h| > 0 && h[0].expiry <= now
      modifies this, Members()
      ensures Valid() && Members() <= old(Members()) && Unexpired(fifo, now) == Unexpired(old(fifo), now)
      ensures multiset(old(fifo)) == multiset(fifo) + multiset{v} && v.expiry <= now && n < old(n)
    {
      v := h[0];
      ghost var k := PlaceOf(v);
      UnexpiredSkips(fifo, k, now);
      Leaves(fifo, k);
      Remove(v, k);
    }

    lemma NoneExpired(now: int)
      requires Valid() && (|h| > 0 ==> now < h[0].expiry)
      ensures forall i :: 0 <= i < |fifo| ==> now < fifo[i].expiry
    {
      forall i | 0 <= i < |fifo| ensures now < fifo[i].expiry {
        HeapPlace(h, fifo, i);
        var j :| 0 <= j < |h| && h[j] == fifo[i];
        RootIsLeast(h, j);
      }
    }

    /** Where a member of the heap stands in the list. */
    ghost method PlaceOf(v: Tomb) returns (k: nat)
      requires Valid() && v in h
      ensures k < |fifo| && fifo[k] == v
    {
      assert v in multiset(h) && v in multiset(fifo) && v in fifo;
      k :| 0 <= k < |fifo| && fifo[k] == v;
    }

    /** push: prunes, adds e as the youngest and, beyond the limit, evicts the oldest. */
    method Push(e: Tomb, now: int) returns (expired: seq<Tomb>, evicted: seq<Tomb>)
      requires Valid() && e !in fifo
      modifies this, Members(), e
      ensures Valid() && |fifo| <= limit
      ensures var q := Unexpired(old(fifo), now) + [e];
              fifo == (if |q| <= limit then q else q[|q| - limit..])
              && evicted == q[..|q| - |fifo|]
      ensures multiset(old(fifo)) == multiset(Unexpired(old(fifo), now)) + multiset(expired)
      ensures forall v :: v in expired ==> v.expiry <= now
    {
      hide Valid, Unexpired;
      expired := Prune(now);
      PartOf(old(fifo), fifo, expired);
      AddYoungest(e);
      evicted := EvictOldest();
    }

    lemma Ends()
      requires Valid()
      ensures n == |fifo| && (fifo != [] ==> head == fifo[0])
    {
    }

    /** Beyond the limit the oldest go. */
    method EvictOldest() returns (evicted: seq<Tomb>)
      requires Valid()
      modifies this, Members()
      ensures Valid() && |fifo| == (if |old(fifo)| <= limit then |old(fifo)| else limit)
      ensures evicted == old(fifo)[..|old(fifo)| - |fifo|] && fifo == old(fifo)[|evicted|..]
    {
      hide Valid;
      evicted := [];
      ghost var q := fifo;
      Ends();
      while n > limit
        invariant Valid() && Members() <= old(Members()) && |evicted| <= |q|
        invariant evicted == q[..|evicted|] && fifo == q[|evicted|..] && n == |fifo|
        invariant n >= limit || evicted == []
        decreases n
      {
        Ends();
        var v := head;
        Remove(v, 0);
        evicted := evicted + [v];
        assert fifo == q[|evicted|..];
        Ends();
      }
    }

    method AddYoungest(e: Tomb)
      requires Valid() && e !in fifo
      modifies this, Members(), e
      ensures Valid() && fifo == old(fifo) + [e]
    {
      ghost var old_ := Members();
      Link(e);
      assert e !in multiset(h);
      HeapPush(e, old_ + {e});
      assert multiset(fifo) == multiset(old(fifo)) + multiset{e};
      assert Members() == old_ + {e};
    }
  }

  /** A member of the list is somewhere in the heap. */
  lemma HeapPlace(h: seq<Tomb>, fifo: seq<Tomb>, k: nat)
    requires multiset(h) == multiset(fifo) && k < |fifo|
    ensures exists i :: 0 <= i < |h| && h[i] == fifo[k]
  {
    assert fifo[k] in multiset(fifo);
    assert fifo[k] in h;
  }

  /** The heap and the list lost the same tombstone. */
  lemma StillSame(h0: seq<Tomb>, h: seq<Tomb>, q: seq<Tomb>, k: nat)
    requires k < |q| && multiset(h0) == multiset(q) && multiset(h0) == multiset(h) + multiset{q[k]}
    ensures multiset(h) == multiset(q[..k] + q[k + 1..])
    ensures forall j :: 0 <= j < |h| ==> h[j] in q[..k] + q[k + 1..]
  {
    var r := q[..k] + q[k + 1..];
    Leaves(q, k);
    assert multiset(h) == multiset(h0) - multiset{q[k]};
    assert multiset(r) == multiset(q) - multiset{q[k]};
    forall j | 0 <= j < |h| ensures h[j] in r {
      assert h[j] in multiset(h);
      assert h[j] in multiset(r);
    }
  }

  lemma PartOf(a: seq<Tomb>, b: seq<Tomb>, c: seq<Tomb>)
    requires multiset(a) == multiset(b) + multiset(c)
    ensures forall x :: x in b ==> x in a
  {
    forall x | x in b ensures x in a {
      assert x in multiset(b);
      assert x in multiset(a);
    }
  }

  lemma Leaves(q: seq<Tomb>, k: nat)
    requires k < |q|
    ensures multiset(q) == multiset(q[..k] + q[k + 1..]) + multiset{q[k]}
  {
    assert q == q[..k] + [q[k]] + q[k + 1..];
  }

  lemma SwappedBut(h: seq<Tomb>, i: nat, last: nat)
    requires HeapOrder(h) && i < last == |h| - 1
    ensures OrderBut(h[i := h[last]][last := h[i]], last, i)
  {
    var r := h[i := h[last]][last := h[i]];
    forall p, k | 0 <= p < i < k < last && Child(p, i) && Child(i, k) ensures r[p].expiry <= r[k].expiry {
      assert h[p].expiry <= h[i].expiry <= h[k].expiry;
    }
  }
}
