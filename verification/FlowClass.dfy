/** l4/packet_forward.go: flowClass, the online tracker that turns a UDP flow
    into a stream. Two movers' datagrams reach its lock in any order of their
    instants; the tracker is proved to promote exactly where the whole trace
    says so. */
module FlowClass {

  const STREAM_AFTER := 2_000   // streamAfter, in milliseconds

  datatype Dir = TowardSession | TowardLocal

  /** A datagram as the tracker sees it, in the order of the lock. */
  datatype Ev = Ev(at: int, dir: Dir)

  // ---- what the trace says ----

  function Latest(evs: seq<Ev>): int
    requires evs != []
  {
    var a := evs[|evs| - 1].at;
    if |evs| == 1 then a else var b := Latest(evs[..|evs| - 1]); if a < b then b else a
  }

  /** Datagram k begins an activity period: it is the first, or it comes
      STREAM_AFTER or more behind the latest instant before it. */
  predicate Begins(evs: seq<Ev>, k: nat)
    requires k < |evs|
  {
    k == 0 || evs[k].at >= Latest(evs[..k]) + STREAM_AFTER
  }

  /** The datagram that began the period of datagram k. */
  function PeriodOf(evs: seq<Ev>, k: nat): (j: nat)
    requires k < |evs|
    ensures j <= k && Begins(evs, j) && forall i :: j < i <= k ==> !Begins(evs, i)
  {
    if Begins(evs, k) then k else PeriodOf(evs, k - 1)
  }

  predicate BothWays(evs: seq<Ev>, from: nat, to: nat)
    requires from <= to <= |evs|
  {
    && (exists i :: from <= i < to && evs[i].dir == TowardSession)
    && (exists i :: from <= i < to && evs[i].dir == TowardLocal)
  }

  /** Datagram k makes its flow a stream: its period saw both directions and has
      lasted STREAM_AFTER (active), or the flow saw both directions (on reply). */
  predicate Qualifies(active: bool, evs: seq<Ev>, k: nat)
    requires k < |evs|
  {
    if active then
      BothWays(evs, PeriodOf(evs, k), k + 1) && evs[k].at - evs[PeriodOf(evs, k)].at >= STREAM_AFTER
    else BothWays(evs, 0, k + 1)
  }

  predicate FirstToQualify(active: bool, evs: seq<Ev>, k: nat)
    requires k < |evs|
  {
    Qualifies(active, evs, k) && forall j :: 0 <= j < k ==> !Qualifies(active, evs, j)
  }

  // ---- the tracker ----

  datatype Class = Class(streamed: bool, out: bool, inn: bool, start: int, last: int)

  function Fresh(): Class { Class(false, false, false, 0, 0) }

  function See(c: Class, d: Dir): Class {
    if d == TowardSession then c.(out := true) else c.(inn := true)
  }

  /** note: the new class, and whether this datagram made the flow a stream. */
  function Note(active: bool, c: Class, e: Ev): (Class, bool) {
    if c.streamed then (c, false)
    else if active then
      var gap := e.at - c.last;
      var c1 := if (!c.out && !c.inn) || gap >= STREAM_AFTER then Class(false, false, false, e.at, e.at)
                else if gap > 0 then c.(last := e.at) else c;
      var c2 := See(c1, e.dir);
      if c2.out && c2.inn && e.at - c2.start >= STREAM_AFTER then (c2.(streamed := true), true) else (c2, false)
    else
      var c2 := See(c, e.dir);
      if c2.out && c2.inn then (c2.(streamed := true), true) else (c2, false)
  }

  function After(active: bool, evs: seq<Ev>): Class {
    if evs == [] then Fresh() else Note(active, After(active, evs[..|evs| - 1]), evs[|evs| - 1]).0
  }

  // ---- prefixes see the same periods ----

  lemma {:induction false} PrefixPeriod(evs: seq<Ev>, n: nat, k: nat)
    requires k < n <= |evs|
    ensures Begins(evs[..n], k) == Begins(evs, k) && PeriodOf(evs[..n], k) == PeriodOf(evs, k)
  {
    assert evs[..n][..k] == evs[..k];
    if !Begins(evs, k) { PrefixPeriod(evs, n, k - 1); }
  }

  lemma PrefixQualifies(active: bool, evs: seq<Ev>, n: nat, k: nat)
    requires k < n <= |evs|
    ensures Qualifies(active, evs[..n], k) == Qualifies(active, evs, k)
  {
    PrefixPeriod(evs, n, k);
    var q := evs[..n];
    assert forall i :: 0 <= i < n ==> q[i] == evs[i];
    PrefixBoth(evs, n, PeriodOf(evs, k), k + 1);
    PrefixBoth(evs, n, 0, k + 1);
  }

  lemma PrefixBoth(evs: seq<Ev>, n: nat, from: nat, to: nat)
    requires from <= to <= n <= |evs|
    ensures BothWays(evs[..n], from, to) == BothWays(evs, from, to)
  {
    var q := evs[..n];
    assert forall i :: 0 <= i < n ==> q[i] == evs[i];
    if BothWays(evs, from, to) {
      var i :| from <= i < to && evs[i].dir == TowardSession;
      var j :| from <= j < to && evs[j].dir == TowardLocal;
      assert q[i].dir == TowardSession && q[j].dir == TowardLocal;
    }
    if BothWays(q, from, to) {
      var i :| from <= i < to && q[i].dir == TowardSession;
      var j :| from <= j < to && q[j].dir == TowardLocal;
      assert evs[i].dir == TowardSession && evs[j].dir == TowardLocal;
    }
  }

  /** Some datagram from `from` on went in direction d. */
  predicate Saw(evs: seq<Ev>, from: nat, d: Dir)
    requires from <= |evs|
  {
    exists i :: from <= i < |evs| && evs[i].dir == d
  }

  lemma SawMore(evs: seq<Ev>, from: nat, d: Dir)
    requires evs != [] && from <= |evs| - 1
    ensures Saw(evs, from, d) <==> Saw(evs[..|evs| - 1], from, d) || evs[|evs| - 1].dir == d
  {
    var q := evs[..|evs| - 1];
    if Saw(q, from, d) {
      var i :| from <= i < |q| && q[i].dir == d;
      assert evs[i].dir == d;
    }
    if Saw(evs, from, d) && evs[|evs| - 1].dir != d {
      var i :| from <= i < |evs| && evs[i].dir == d;
      assert q[i].dir == d;
    }
  }

  /** Where the current period began. */
  function Origin(active: bool, evs: seq<Ev>): nat
    requires evs != []
  {
    if active then PeriodOf(evs, |evs| - 1) else 0
  }

  /** The tracker's fields are the trace's period while nothing qualified. */
  ghost predicate Follows(active: bool, evs: seq<Ev>, c: Class) {
    && (c.streamed <==> exists k :: 0 <= k < |evs| && Qualifies(active, evs, k))
    && (evs == [] ==> !c.out && !c.inn)
    && (evs != [] && !c.streamed ==>
          var j := Origin(active, evs);
          (c.out <==> Saw(evs, j, TowardSession)) && (c.inn <==> Saw(evs, j, TowardLocal))
          && (active ==> c.start == evs[j].at && c.last == Latest(evs)))
  }

  lemma LatestMore(q: seq<Ev>, e: Ev)
    requires q != []
    ensures Latest(q + [e]) == if e.at < Latest(q) then Latest(q) else e.at
  {
    assert (q + [e])[..|q|] == q;
  }

  /** The period of the datagram just added. */
  lemma OriginMore(active: bool, q: seq<Ev>, e: Ev)
    ensures var evs := q + [e];
            Origin(active, evs) ==
            if !active then 0
            else if q == [] || e.at >= Latest(q) + STREAM_AFTER then |q| else Origin(active, q)
  {
    var evs := q + [e];
    assert evs[..|q|] == q;
    if active && q != [] && !Begins(evs, |q|) {
      PrefixPeriod(evs, |q|, |q| - 1);
    }
  }

  lemma QualifiesAtEnd(active: bool, evs: seq<Ev>)
    requires evs != []
    ensures Qualifies(active, evs, |evs| - 1) <==>
            Saw(evs, Origin(active, evs), TowardSession) && Saw(evs, Origin(active, evs), TowardLocal)
            && (active ==> evs[|evs| - 1].at - evs[Origin(active, evs)].at >= STREAM_AFTER)
  {
  }

  lemma NothingBefore(active: bool, q: seq<Ev>, e: Ev)
    ensures forall k :: 0 <= k < |q| ==> Qualifies(active, q + [e], k) == Qualifies(active, q, k)
  {
    assert (q + [e])[..|q|] == q;
    forall k | 0 <= k < |q| ensures Qualifies(active, q + [e], k) == Qualifies(active, q, k) {
      PrefixQualifies(active, q + [e], |q|, k);
    }
  }

  /** One datagram further the tracker still follows the trace, and it promotes
      exactly at the first datagram that qualifies. */
  lemma NoteFollows(active: bool, q: seq<Ev>, c: Class, e: Ev)
    requires Follows(active, q, c)
    ensures var (c1, promoted) := Note(active, c, e);
            Follows(active, q + [e], c1) && (promoted <==> FirstToQualify(active, q + [e], |q|))
  {
    var evs := q + [e];
    assert evs[..|q|] == q;
    NothingBefore(active, q, e);
    if c.streamed {
      var k :| 0 <= k < |q| && Qualifies(active, q, k);
      assert Qualifies(active, evs, k);
    } else {
      NoteUnstreamed(active, q, c, e);
    }
  }

  lemma NoteUnstreamed(active: bool, q: seq<Ev>, c: Class, e: Ev)
    requires Follows(active, q, c) && !c.streamed
    ensures var (c1, promoted) := Note(active, c, e);
            Follows(active, q + [e], c1) && (promoted <==> FirstToQualify(active, q + [e], |q|))
  {
    hide Qualifies, PeriodOf, Begins;
    var evs := q + [e];
    assert evs[..|q|] == q;
    NothingBefore(active, q, e);
    assert forall k :: 0 <= k < |q| ==> !Qualifies(active, evs, k);
    OriginMore(active, q, e);
    QualifiesAtEnd(active, evs);
    var j := Origin(active, evs);
    SawMore(evs, j, TowardSession);
    SawMore(evs, j, TowardLocal);
    if q != [] {
      LatestMore(q, e);
      SawSelf(q, Origin(active, q));
    } else {
      LatestOne(e);
    }
    StateMore(active, q, c, e);
    var (c1, promoted) := Note(active, c, e);
    assert promoted <==> Qualifies(active, evs, |q|);
  }

  lemma SawSelf(q: seq<Ev>, j: nat)
    requires j < |q|
    ensures Saw(q, j, TowardSession) || Saw(q, j, TowardLocal)
  {
    assert q[j].dir == TowardSession || q[j].dir == TowardLocal;
  }

  lemma LatestOne(e: Ev)
    ensures Latest([] + [e]) == e.at
  {
  }

  /** What note makes of the fields, before the promotion. */
  lemma StateMore(active: bool, q: seq<Ev>, c: Class, e: Ev)
    requires Follows(active, q, c) && !c.streamed
    ensures var c1 := Note(active, c, e).0;
            var evs := q + [e];
            var j := Origin(active, evs);
            (c1.out <==> Saw(evs, j, TowardSession)) && (c1.inn <==> Saw(evs, j, TowardLocal))
            && (active ==> c1.start == evs[j].at && c1.last == Latest(evs))
  {
    hide Qualifies, PeriodOf, Begins;
    var evs := q + [e];
    assert evs[..|q|] == q;
    OriginMore(active, q, e);
    var j := Origin(active, evs);
    SawMore(evs, j, TowardSession);
    SawMore(evs, j, TowardLocal);
    if q != [] {
      LatestMore(q, e);
      SawSelf(q, Origin(active, q));
    } else {
      LatestOne(e);
    }
    if j == |q| { assert !Saw(q, j, TowardSession) && !Saw(q, j, TowardLocal); }
  }

  lemma {:induction false} TrackerFollows(active: bool, evs: seq<Ev>)
    ensures Follows(active, evs, After(active, evs))
  {
    if evs != [] {
      var n := |evs| - 1;
      TrackerFollows(active, evs[..n]);
      NoteFollows(active, evs[..n], After(active, evs[..n]), evs[n]);
      assert evs[..n] + [evs[n]] == evs;
    }
  }

  /** Stream promotion: for every trace, out-of-order instants included, the
      tracker answers true at datagram k exactly when k is the first to qualify;
      so at most once, and the flow then stays a stream. */
  lemma PromotesExactly(active: bool, evs: seq<Ev>, k: nat)
    requires k < |evs|
    ensures Note(active, After(active, evs[..k]), evs[k]).1 <==> FirstToQualify(active, evs, k)
    ensures After(active, evs).streamed <==> exists i :: 0 <= i < |evs| && Qualifies(active, evs, i)
  {
    hide Qualifies, Note, Saw, Origin, Latest, After;
    TrackerFollows(active, evs);
    TrackerFollows(active, evs[..k]);
    NoteFollows(active, evs[..k], After(active, evs[..k]), evs[k]);
    assert evs[..k] + [evs[k]] == evs[..k + 1];
    assert |evs[..k]| == k;
    var p := evs[..k + 1];
    forall j | 0 <= j < k + 1 ensures Qualifies(active, p, j) == Qualifies(active, evs, j) {
      PrefixQualifies(active, evs, k + 1, j);
    }
  }

  /** flowClass, with its rule fixed. */
  class Tracker {
    const active: bool
    var streamed: bool
    var seen: nat        // bit 0: toward the session, bit 1: toward local
    var start: int
    var last: int

    ghost predicate Valid()
      reads this
    {
      seen <= 3
    }

    ghost function Value(): Class
      reads this
    {
      Class(streamed, seen % 2 == 1, seen / 2 == 1, start, last)
    }

    constructor (active: bool)
      ensures Valid() && Value() == Fresh() && this.active == active
    {
      this.active := active;
      streamed, seen, start, last := false, 0, 0, 0;
    }

    method NoteDatagram(now: int, d: Dir) returns (promoted: bool)
      requires Valid()
      modifies this
      ensures Valid() && (Value(), promoted) == Note(active, old(Value()), Ev(now, d))
    {
      if streamed { return false; }
      var bit := if d == TowardSession then 1 else 2;
      if active {
        var gap := now - last;
        if seen == 0 || gap >= STREAM_AFTER {
          seen, start, last := 0, now, now;
        } else if gap > 0 {
          last := now;
        }
        if !(seen == bit || seen == 3) { seen := seen + bit; }
        if seen != 3 || now - start < STREAM_AFTER { return false; }
      } else {
        if !(seen == bit || seen == 3) { seen := seen + bit; }
        if seen != 3 { return false; }
      }
      streamed := true;
      return true;
    }
  }
}
