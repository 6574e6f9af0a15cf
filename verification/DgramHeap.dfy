/** rendrtest/dpump.go, the receiving side of a fake socket: a min-heap of
    datagrams in flight by (due, seq) and a FIFO of arrived ones. */
module DgramHeap {
  datatype Kind = Unknown | Session | Probe | Other

  /** 0 up (dialer to passive), 1 down. */
  type Dir = d: int | 0 <= d < 2

  /** id numbers the copies made, as history. */
  datatype Dgram = Dgram(due: int, seqno: nat, cls: Kind, dir: Dir, dst: nat, id: nat)

  predicate Before(a: Dgram, b: Dgram) {
    a.due < b.due || (a.due == b.due && a.seqno < b.seqno)
  }

  predicate Child(p: int, i: int) { i == 2 * p + 1 || i == 2 * p + 2 }

  ghost predicate Heap(h: seq<Dgram>) {
    forall p, i :: 0 <= p < i < |h| && Child(p, i) ==> !Before(h[i], h[p])
  }

  /** Heap order but between place j and its parent. */
  ghost predicate HeapButUp(h: seq<Dgram>, j: nat) {
    && (forall p, i :: 0 <= p < i < |h| && Child(p, i) && i != j ==> !Before(h[i], h[p]))
    && (forall p, i :: 0 <= p < j < i < |h| && Child(p, j) && Child(j, i) ==> !Before(h[i], h[p]))
  }

  /** Heap order but between place j and its children. */
  ghost predicate HeapButDown(h: seq<Dgram>, j: nat) {
    && (forall p, i :: 0 <= p < i < |h| && Child(p, i) && p != j ==> !Before(h[i], h[p]))
    && (forall p, i :: 0 <= p < j < i < |h| && Child(p, j) && Child(j, i) ==> !Before(h[i], h[p]))
  }

  function Swapped(h: seq<Dgram>, i: nat, j: nat): (r: seq<Dgram>)
    requires i < |h| && j < |h|
    ensures |r| == |h|
  {
    h[i := h[j]][j := h[i]]
  }

  function SiftUp(h: seq<Dgram>, i: nat): (r: seq<Dgram>)
    requires i < |h|
    ensures |r| == |h|
    decreases i
  {
    var p := (i - 1) / 2;
    if i == 0 || !Before(h[i], h[p]) then h else SiftUp(Swapped(h, i, p), p)
  }

  /** The lesser child of i, if it has one. */
  function Lesser(h: seq<Dgram>, i: nat): (m: nat)
    ensures m >= |h| || Child(i, m)
    ensures m >= |h| ==> 2 * i + 1 >= |h|
    ensures m < |h| ==> forall k :: 0 <= k < |h| && Child(i, k) ==> !Before(h[k], h[m])
  {
    var m := 2 * i + 1;
    if m + 1 < |h| && Before(h[m + 1], h[m]) then m + 1 else m
  }

  function SiftDown(h: seq<Dgram>, i: nat): (r: seq<Dgram>)
    ensures |r| == |h|
    decreases |h| - i
  {
    var m := Lesser(h, i);
    if m >= |h| || !Before(h[m], h[i]) then h else SiftDown(Swapped(h, i, m), m)
  }

  function PushIn(h: seq<Dgram>, d: Dgram): seq<Dgram> { SiftUp(h + [d], |h|) }

  function PopIn(h: seq<Dgram>): (r: seq<Dgram>)
    requires h != []
    ensures |r| == |h| - 1
  {
    var last := |h| - 1;
    SiftDown(h[0 := h[last]][..last], 0)
  }

  // ---- order and contents ----

  lemma SwapUp(h: seq<Dgram>, i: nat, p: nat)
    requires p < i < |h| && Child(p, i) && HeapButUp(h, i) && Before(h[i], h[p])
    ensures HeapButUp(Swapped(h, i, p), p)
  {
  }

  lemma {:induction false} SiftUpHeap(h: seq<Dgram>, i: nat)
    requires i < |h| && HeapButUp(h, i)
    ensures Heap(SiftUp(h, i)) && multiset(SiftUp(h, i)) == multiset(h)
    decreases i
  {
    hide Before, HeapButUp;
    var p := (i - 1) / 2;
    if i == 0 || !Before(h[i], h[p]) {
      UpDone(h, i);
    } else {
      assert Child(p, i);
      SwapUp(h, i, p);
      SiftUpHeap(Swapped(h, i, p), p);
    }
  }

  lemma UpDone(h: seq<Dgram>, i: nat)
    requires i < |h| && HeapButUp(h, i) && (i == 0 || !Before(h[i], h[(i - 1) / 2]))
    ensures Heap(h)
  {
    hide Before;
    forall p, k | 0 <= p < k < |h| && Child(p, k) ensures !Before(h[k], h[p]) {
      if k == i { assert p == (i - 1) / 2; }
    }
  }

  lemma SwapDown(h: seq<Dgram>, i: nat, m: nat)
    requires i < m < |h| && Child(i, m) && HeapButDown(h, i) && Before(h[m], h[i])
    requires forall k :: 0 <= k < |h| && Child(i, k) ==> !Before(h[k], h[m])
    ensures HeapButDown(Swapped(h, i, m), m)
  {
  }

  lemma {:induction false} SiftDownHeap(h: seq<Dgram>, i: nat)
    requires HeapButDown(h, i)
    ensures Heap(SiftDown(h, i)) && multiset(SiftDown(h, i)) == multiset(h)
    decreases |h| - i
  {
    hide Before, HeapButDown, Lesser;
    var m := Lesser(h, i);
    if m >= |h| || !Before(h[m], h[i]) {
      DownDone(h, i);
    } else {
      SwapDown(h, i, m);
      SiftDownHeap(Swapped(h, i, m), m);
    }
  }

  lemma DownDone(h: seq<Dgram>, i: nat)
    requires HeapButDown(h, i) && (Lesser(h, i) >= |h| || !Before(h[Lesser(h, i)], h[i]))
    ensures Heap(h)
  {
    hide Lesser;
    var m := Lesser(h, i);
    forall p, k | 0 <= p < k < |h| && Child(p, k) ensures !Before(h[k], h[p]) {
      if p == i && m < |h| { assert !Before(h[k], h[m]); }
    }
  }

  /** pushIn keeps the heap and adds exactly the datagram. */
  lemma PushInHeap(h: seq<Dgram>, d: Dgram)
    requires Heap(h)
    ensures Heap(PushIn(h, d)) && multiset(PushIn(h, d)) == multiset(h) + multiset{d}
  {
    hide Before, SiftUp;
    var g := h + [d];
    assert HeapButUp(g, |h|) by {
      forall p, i | 0 <= p < i < |g| && Child(p, i) && i != |h| ensures !Before(g[i], g[p]) { assert i < |h|; }
    }
    SiftUpHeap(g, |h|);
  }

  lemma {:induction false} RootIsLeast(h: seq<Dgram>, i: nat)
    requires Heap(h) && i < |h|
    ensures !Before(h[i], h[0])
  {
    if i > 0 {
      RootIsLeast(h, (i - 1) / 2);
      assert Child((i - 1) / 2, i);
    }
  }

  /** popIn keeps the heap and removes exactly its root, which comes before all others. */
  lemma PopInHeap(h: seq<Dgram>)
    requires Heap(h) && h != []
    ensures Heap(PopIn(h)) && multiset(PopIn(h)) + multiset{h[0]} == multiset(h)
    ensures forall d :: d in h ==> !Before(d, h[0])
  {
    hide Before, SiftDown;
    var last := |h| - 1;
    var g := h[0 := h[last]][..last];
    assert HeapButDown(g, 0) by {
      forall p, i | 0 <= p < i < |g| && Child(p, i) && p != 0 ensures !Before(g[i], g[p]) {
        assert g[p] == h[p] && g[i] == h[i];
      }
    }
    SiftDownHeap(g, 0);
    PopContents(h);
    forall d | d in h ensures !Before(d, h[0]) {
      var i :| 0 <= i < |h| && h[i] == d;
      RootIsLeast(h, i);
    }
  }

  lemma PopContents(h: seq<Dgram>)
    requires h != []
    ensures var last := |h| - 1; multiset(h[0 := h[last]][..last]) + multiset{h[0]} == multiset(h)
  {
    var last := |h| - 1;
    var g := h[0 := h[last]][..last];
    if last == 0 {
      assert h == [h[0]] && g == [];
    } else {
      var x, mid, y := h[0], h[1..last], h[last];
      assert g == [y] + mid;
      assert h == [x] + mid + [y];
      assert multiset(h) == multiset{x} + multiset(mid) + multiset{y};
    }
  }

  // ---- arrival ----

  /** Its time has come, and its direction is not stalled since before it. */
  predicate Arrived(d: Dgram, now: int, stalled: bool, stallAt: int) {
    d.due <= now && (stalled ==> d.due <= stallAt)
  }

  /** promote: what stays in flight and what becomes ready, in order. */
  function Promote(h: seq<Dgram>, now: int, stalled: bool, stallAt: int): (seq<Dgram>, seq<Dgram>)
    decreases |h|
  {
    if h == [] || !Arrived(h[0], now, stalled, stallAt) then (h, [])
    else
      var (rest, moved) := Promote(PopIn(h), now, stalled, stallAt);
      (rest, [h[0]] + moved)
  }

  ghost predicate InOrder(s: seq<Dgram>) {
    forall i, j :: 0 <= i < j < |s| ==> !Before(s[j], s[i])
  }

  /** moved are exactly the arrived of h, in order; rest is what stays. */
  ghost predicate Splits(h: seq<Dgram>, rest: seq<Dgram>, moved: seq<Dgram>, now: int, stalled: bool, stallAt: int) {
    && multiset(rest) + multiset(moved) == multiset(h) && InOrder(moved)
    && (forall d :: d in moved ==> Arrived(d, now, stalled, stallAt))
    && (forall d :: d in rest ==> !Arrived(d, now, stalled, stallAt))
  }

  lemma SplitsCons(h: seq<Dgram>, g: seq<Dgram>, rest: seq<Dgram>, moved: seq<Dgram>, now: int, stalled: bool,
                   stallAt: int)
    requires h != [] && multiset(g) + multiset{h[0]} == multiset(h) && (forall d :: d in h ==> !Before(d, h[0]))
    requires Arrived(h[0], now, stalled, stallAt) && Splits(g, rest, moved, now, stalled, stallAt)
    ensures Splits(h, rest, [h[0]] + moved, now, stalled, stallAt)
  {
    hide Before, Arrived;
    var all := [h[0]] + moved;
    assert multiset(all) == multiset{h[0]} + multiset(moved);
    forall i, j | 0 <= i < j < |all| ensures !Before(all[j], all[i]) {
      assert all[j] == moved[j - 1];
      if i == 0 {
        assert moved[j - 1] in multiset(moved);
        assert moved[j - 1] in multiset(h);
      }
    }
  }

  /** promote moves exactly the arrived datagrams, in (due, seq) order. */
  lemma {:induction false} PromoteExact(h: seq<Dgram>, now: int, stalled: bool, stallAt: int)
    requires Heap(h)
    ensures var (rest, moved) := Promote(h, now, stalled, stallAt);
            Heap(rest) && Splits(h, rest, moved, now, stalled, stallAt)
    decreases |h|
  {
    hide PopIn, Heap, Before, Splits, Arrived;
    if h == [] || !Arrived(h[0], now, stalled, stallAt) {
      NoneArrived(h, now, stalled, stallAt);
    } else {
      PopInHeap(h);
      var g := PopIn(h);
      PromoteExact(g, now, stalled, stallAt);
      var (rest, moved) := Promote(g, now, stalled, stallAt);
      SplitsCons(h, g, rest, moved, now, stalled, stallAt);
    }
  }

  lemma NoneArrived(h: seq<Dgram>, now: int, stalled: bool, stallAt: int)
    requires Heap(h) && (h == [] || !Arrived(h[0], now, stalled, stallAt))
    ensures Splits(h, h, [], now, stalled, stallAt)
  {
    forall d | d in h ensures !Arrived(d, now, stalled, stallAt) {
      var i :| 0 <= i < |h| && h[i] == d;
      RootIsLeast(h, i);
    }
  }

  lemma PromoteNext(h: seq<Dgram>, now: int, stalled: bool, stallAt: int)
    requires h != [] && Arrived(h[0], now, stalled, stallAt)
    ensures Promote(h, now, stalled, stallAt).0 == Promote(PopIn(h), now, stalled, stallAt).0
    ensures Promote(h, now, stalled, stallAt).1 == [h[0]] + Promote(PopIn(h), now, stalled, stallAt).1
  {
    hide PopIn, Arrived;
  }

  lemma Regroup(a: seq<Dgram>, d: Dgram, b: seq<Dgram>)
    ensures a + ([d] + b) == (a + [d]) + b
  {
  }

  lemma PromoteStops(h: seq<Dgram>, now: int, stalled: bool, stallAt: int)
    requires h == [] || !Arrived(h[0], now, stalled, stallAt)
    ensures Promote(h, now, stalled, stallAt) == (h, [])
  {
  }

  // ---- the socket ----

  const COMPACT := 1024   // compactReady

  class Endpoint {
    var inFlight: seq<Dgram>
    var ready: seq<Dgram>
    var rhead: nat

    ghost predicate Valid()
      reads this
    {
      rhead <= |ready| && Heap(inFlight)
    }

    ghost function Arrivals(): seq<Dgram>
      requires rhead <= |ready|
      reads this
    {
      ready[rhead..]
    }

    method PushFlight(d: Dgram)
      modifies this`inFlight
      ensures inFlight == PushIn(old(inFlight), d)
    {
      var h := inFlight + [d];
      var i := |h| - 1;
      while i > 0
        invariant 0 <= i < |h| && SiftUp(h, i) == PushIn(inFlight, d)
        decreases i
      {
        var p := (i - 1) / 2;
        if !Before(h[i], h[p]) { break; }
        h := h[i := h[p]][p := h[i]];
        i := p;
      }
      inFlight := h;
    }

    method PopFlight() returns (top: Dgram)
      requires inFlight != []
      modifies this`inFlight
      ensures top == old(inFlight)[0] && inFlight == PopIn(old(inFlight))
    {
      var h := inFlight;
      var last := |h| - 1;
      top := h[0];
      h := h[0 := h[last]];
      h := h[..last];
      var i := 0;
      while 2 * i + 1 < |h|
        invariant SiftDown(h, i) == PopIn(inFlight)
        decreases |h| - i
      {
        var m := 2 * i + 1;
        if m + 1 < |h| && Before(h[m + 1], h[m]) { m := m + 1; }
        if !Before(h[m], h[i]) { break; }
        h := h[i := h[m]][m := h[i]];
        i := m;
      }
      inFlight := h;
    }

    method PromoteArrived(now: int, stalled: bool, stallAt: int)
      requires Valid()
      modifies this`inFlight, this`ready
      ensures Valid()
      ensures var (rest, moved) := Promote(old(inFlight), now, stalled, stallAt);
              inFlight == rest && Arrivals() == old(Arrivals()) + moved
    {
      hide PopIn, Heap, Promote, Splits, Arrived;
      PromoteExact(inFlight, now, stalled, stallAt);
      ghost var all := Promote(inFlight, now, stalled, stallAt);
      ghost var done: seq<Dgram> := [];
      assert done + all.1 == all.1;
      while inFlight != [] && Arrived(inFlight[0], now, stalled, stallAt)
        invariant rhead <= |ready| && Arrivals() == old(Arrivals()) + done
        invariant all.0 == Promote(inFlight, now, stalled, stallAt).0
        invariant all.1 == done + Promote(inFlight, now, stalled, stallAt).1
        decreases |inFlight|
      {
        PromoteNext(inFlight, now, stalled, stallAt);
        var top := PopFlight();
        Regroup(done, top, Promote(inFlight, now, stalled, stallAt).1);
        assert (ready + [top])[rhead..] == ready[rhead..] + [top];
        ready := ready + [top];
        done := done + [top];
      }
      PromoteStops(inFlight, now, stalled, stallAt);
      assert done + [] == done;
    }

    /** popReady: the oldest arrival leaves; the emptied front is given back now and then. */
    method PopReady() returns (d: Dgram)
      requires rhead < |ready|
      modifies this`ready, this`rhead
      ensures rhead <= |ready| && [d] + Arrivals() == old(Arrivals())
    {
      d := ready[rhead];
      rhead := rhead + 1;
      assert [d] + ready[rhead..] == old(Arrivals());
      if rhead == |ready| {
        ready, rhead := [], 0;
      } else if rhead >= COMPACT && 2 * rhead >= |ready| {
        ready, rhead := ready[rhead..], 0;
      }
    }
  }
}
