/** The accounting law of rendrtest/dlink.go over every run of the fake link:
    per class, what went in is what came out, was lost, or is still in the
    link; and each queue counter is the number of datagrams of its direction. */
module DgramBooks {
  import opened DgramHeap
  import opened DgramLink

  // ---- counting datagrams ----

  datatype Scope = Every | Sessions | Probes

  predicate InScope(s: Scope, cls: Kind) { s.Every? || (s.Sessions? && cls == Session) || (s.Probes? && cls == Probe) }

  /** One line of the books: the datagrams of a class, those of a direction, one copy, or one counter against
      the history. */
  datatype Slot = Net(s: Scope) | Way(d: Dir) | Copy(id: nat) | Tally(s: Scope, w: Ctr)

  predicate Matches(k: Slot, d: Dgram) {
    match k
    case Net(s) => InScope(s, d.cls)
    case Way(x) => d.dir == x
    case Copy(id) => d.id == id
    case Tally(_, _) => false
  }

  function One(k: Slot, d: Dgram): nat { if Matches(k, d) then 1 else 0 }

  function Cnt(k: Slot, s: seq<Dgram>): nat {
    if s == [] then 0 else Cnt(k, s[..|s| - 1]) + One(k, s[|s| - 1])
  }

  lemma {:induction false} CntAppend(k: Slot, s: seq<Dgram>, t: seq<Dgram>)
    ensures Cnt(k, s + t) == Cnt(k, s) + Cnt(k, t)
    decreases |t|
  {
    if t == [] {
      assert s + t == s;
    } else {
      assert (s + t)[..|s + t| - 1] == s + t[..|t| - 1];
      CntAppend(k, s, t[..|t| - 1]);
    }
  }

  lemma CntOne(k: Slot, d: Dgram)
    ensures Cnt(k, [d]) == One(k, d)
  {
    assert [d][..0] == [];
  }

  lemma CntHead(k: Slot, s: seq<Dgram>)
    requires s != []
    ensures Cnt(k, s) == One(k, s[0]) + Cnt(k, s[1..])
  {
    assert s == [s[0]] + s[1..];
    CntAppend(k, [s[0]], s[1..]);
    CntOne(k, s[0]);
  }

  /** One element taken out of a list. */
  lemma TakeOut(k: Slot, t: seq<Dgram>, i: nat)
    requires i < |t|
    ensures var rest := t[..i] + t[i + 1..];
            Cnt(k, t) == Cnt(k, rest) + One(k, t[i]) && multiset(rest) == multiset(t) - multiset{t[i]}
  {
    hide One;
    var a, x, b := t[..i], t[i], t[i + 1..];
    assert t == a + [x] + b;
    CntAppend(k, a, b);
    CntAppend(k, a + [x], b);
    CntAppend(k, a, [x]);
    CntOne(k, x);
  }

  lemma {:induction false} CntPerm(k: Slot, s: seq<Dgram>, t: seq<Dgram>)
    requires multiset(s) == multiset(t)
    ensures Cnt(k, s) == Cnt(k, t)
    decreases |s|
  {
    hide Cnt, One;
    assert |s| == |multiset(s)| == |multiset(t)| == |t|;
    if s == [] {
      assert t == [];
    } else {
      var m := |s| - 1;
      var x := s[m];
      assert x in multiset(t);
      var i :| 0 <= i < |t| && t[i] == x;
      TakeOut(k, s, m);
      TakeOut(k, t, i);
      assert s[..m] + s[m + 1..] == s[..m];
      CntPerm(k, s[..m], t[..i] + t[i + 1..]);
    }
  }

  function EpCnt(k: Slot, e: Ep): nat { Cnt(k, e.inFlight) + Cnt(k, e.ready) }

  function EpsCnt(k: Slot, eps: seq<Ep>): nat {
    if eps == [] then 0 else EpsCnt(k, eps[..|eps| - 1]) + EpCnt(k, eps[|eps| - 1])
  }

  lemma {:induction false} EpsUpdate(k: Slot, eps: seq<Ep>, j: nat, e: Ep)
    requires j < |eps|
    ensures EpsCnt(k, eps[j := e]) == EpsCnt(k, eps) - EpCnt(k, eps[j]) + EpCnt(k, e)
    decreases |eps|
  {
    hide EpCnt;
    var m := |eps| - 1;
    if j == m {
      assert eps[j := e][..m] == eps[..m];
    } else {
      assert eps[j := e][..m] == eps[..m][j := e];
      EpsUpdate(k, eps[..m], j, e);
    }
  }

  /** The datagrams still in the link. */
  function InLink(n: Link, k: Slot): nat {
    EpsCnt(k, n.eps) + Cnt(k, n.up.held) + Cnt(k, n.down.held)
  }

  // ---- the books ----

  function NetOf(c: Counts): int { c.sent + c.duplicated + c.injected - c.delivered - c.truncated - c.lost }

  function CountsOf(n: Link, s: Scope): Counts {
    match s
    case Every => n.all
    case Sessions => n.session
    case Probes => n.probe
  }

  function Of(c: Counts, w: Ctr): nat {
    match w
    case Sent => c.sent
    case Duplicated => c.duplicated
    case Injected => c.injected
    case Delivered => c.delivered
    case Truncated => c.truncated
    case Lost => c.lost
  }

  function If(b: bool): nat { if b then 1 else 0 }

  /** How often copy id left. */
  function Ends(log: seq<Event>, id: nat): nat {
    if log == [] then 0 else Ends(log[..|log| - 1], id) + If(log[|log| - 1].id == id)
  }

  /** The copies of a class that left in one way. */
  function Exits(log: seq<Event>, s: Scope, w: Ctr): nat {
    if log == [] then 0
    else Exits(log[..|log| - 1], s, w) + If(InScope(s, log[|log| - 1].cls) && CtrOf(log[|log| - 1].end) == w)
  }

  /** The copies of a class that came in one way. */
  function Births(born: seq<Birth>, s: Scope, w: Ctr): nat {
    if born == [] then 0
    else Births(born[..|born| - 1], s, w) + If(InScope(s, born[|born| - 1].cls) && born[|born| - 1].how == w)
  }

  /** What the counters and the history say is in the link. */
  function Books(n: Link, k: Slot): int {
    match k
    case Net(s) => NetOf(CountsOf(n, s))
    case Way(d) => QueueOf(n, d)
    case Copy(id) => If(id < |n.born|) - Ends(n.log, id)
    case Tally(s, w) => Of(CountsOf(n, s), w) - Births(n.born, s, w) - Exits(n.log, s, w)
  }

  /** What they say too much. */
  function Gap(n: Link, k: Slot): int { Books(n, k) - InLink(n, k) }

  function Sign(w: Ctr): int { if w in {Sent, Duplicated, Injected} then 1 else -1 }

  /** A copy's share of its class and of its own line. */
  function Share(k: Slot, cls: Kind, id: nat): nat {
    match k
    case Net(s) => If(InScope(s, cls))
    case Copy(i) => If(i == id)
    case _ => 0
  }

  lemma OneShares(k: Slot, d: Dgram)
    ensures One(k, d) == Share(k, d.cls, d.id) + If(k == Way(d.dir))
  {
  }

  lemma CountsAdd(n: Link, cls: Kind, w: Ctr, s: Scope, x: Ctr)
    ensures Of(CountsOf(Count(n, cls, w), s), x) == Of(CountsOf(n, s), x) + If(InScope(s, cls) && w == x)
  {
    hide Add;
    AddOne(CountsOf(n, s), w, x);
  }

  lemma AddOne(c: Counts, w: Ctr, x: Ctr)
    ensures Of(Add(c, w), x) == Of(c, x) + If(w == x) && NetOf(Add(c, w)) == NetOf(c) + Sign(w)
  {
  }

  lemma NetAdd(n: Link, cls: Kind, w: Ctr, s: Scope)
    ensures NetOf(CountsOf(Count(n, cls, w), s)) == NetOf(CountsOf(n, s)) + if InScope(s, cls) then Sign(w) else 0
  {
    hide Add, NetOf, Sign;
    AddOne(CountsOf(n, s), w, w);
  }

  lemma GapBear(n: Link, from: nat, cls: Kind, how: Ctr, k: Slot)
    requires Sign(how) == 1
    ensures Gap(Bear(n, from, cls, how), k) == Gap(n, k) + Share(k, cls, |n.born|)
  {
    hide EpsCnt, Cnt, Ends, Exits, NetOf, Count;
    var r := Bear(n, from, cls, how);
    CountFrame(n, cls, how);
    assert r.born[..|n.born|] == n.born;
    if k.Net? { NetAdd(n, cls, how, k.s); } else if k.Tally? { CountsAdd(n, cls, how, k.s, k.w); }
  }

  lemma GapLeave(n: Link, id: nat, cls: Kind, end: End, k: Slot)
    ensures Gap(Leave(n, id, cls, end), k) == Gap(n, k) - Share(k, cls, id)
  {
    hide EpsCnt, Cnt, Births, NetOf, Count;
    var r := Leave(n, id, cls, end);
    CountFrame(n, cls, CtrOf(end));
    assert r.log[..|n.log|] == n.log;
    if k.Net? { NetAdd(n, cls, CtrOf(end), k.s); } else if k.Tally? { CountsAdd(n, cls, CtrOf(end), k.s, k.w); }
  }

  lemma GapBump(n: Link, d: Dir, v: int, k: Slot)
    ensures Gap(Bump(n, d, v), k) == Gap(n, k) + if k == Way(d) then v else 0
  {
    hide EpsCnt, Cnt, Births, Ends, Exits;
  }

  lemma GapLose(n: Link, d: Dgram, why: Why, k: Slot)
    ensures Gap(Lose(n, d, why), k) == Gap(n, k) - One(k, d)
  {
    hide Gap, Leave, Bump, One, Share;
    GapLeave(n, d.id, d.cls, LostTo(why), k);
    GapBump(Leave(n, d.id, d.cls, LostTo(why)), d.dir, -1, k);
    OneShares(k, d);
  }

  lemma {:induction false} GapLoseAll(n: Link, s: seq<Dgram>, why: Why, k: Slot)
    ensures Gap(LoseAll(n, s, why), k) == Gap(n, k) - Cnt(k, s)
    decreases |s|
  {
    hide Gap, Lose, One;
    if s != [] {
      GapLose(n, s[0], why, k);
      GapLoseAll(Lose(n, s[0], why), s[1..], why, k);
      CntHead(k, s);
    }
  }

  lemma GapEp(n: Link, j: nat, e: Ep, k: Slot)
    requires j < |n.eps|
    ensures Gap(n.(eps := n.eps[j := e]), k) == Gap(n, k) + EpCnt(k, n.eps[j]) - EpCnt(k, e)
  {
    hide EpCnt, Cnt;
    EpsUpdate(k, n.eps, j, e);
  }

  lemma GapPath(n: Link, d: Dir, p: Path, k: Slot)
    ensures Gap(WithPath(n, d, p), k) == Gap(n, k) + Cnt(k, PathOf(n, d).held) - Cnt(k, p.held)
  {
    hide EpsCnt, Cnt;
  }

  /** Only the counters, the class labels, the tick and the mode differ: the gap is the counters' alone. */
  lemma GapSame(n: Link, r: Link, k: Slot)
    requires r == n.(kinds := r.kinds, tick := r.tick, refuse := r.refuse)
    ensures Gap(r, k) == Gap(n, k)
  {
  }

  // ---- where datagrams are ----

  predicate Aimed(d: Dgram, dir: Dir) { d.dir == dir && d.dst % 2 == 1 - dir }

  ghost predicate EpOk(e: Ep, j: nat) {
    && e.rx == 1 - j % 2 && Heap(e.inFlight) && (e.ended ==> e.inFlight == [] && e.ready == [])
    && (forall d :: d in e.inFlight ==> d.dir == e.rx) && (forall d :: d in e.ready ==> d.dir == e.rx)
  }

  ghost predicate PathOk(p: Path, dir: Dir, m: nat) {
    forall d :: d in p.held ==> Aimed(d, dir) && d.dst < m
  }

  /** A datagram in flight or ready is at a socket of its direction, a held one is addressed to one; an ended socket
      has none. */
  ghost predicate Placed(n: Link) {
    && |n.eps| == 2 * |n.kinds| && (forall j :: 0 <= j < |n.eps| ==> EpOk(n.eps[j], j))
    && PathOk(n.up, 0, |n.eps|) && PathOk(n.down, 1, |n.eps|)
  }

  ghost predicate Inv(n: Link) {
    Placed(n) && n.q0 <= n.queue && n.q1 <= n.queue && forall k: Slot :: Gap(n, k) == 0
  }

  // ---- promote ----

  lemma PromotedKeeps(n: Link, e: nat, now: int)
    requires Placed(n) && e < |n.eps|
    ensures Placed(Promoted(n, e, now)) && forall k: Slot :: Gap(Promoted(n, e, now), k) == Gap(n, k)
    ensures Promoted(n, e, now) == n.(eps := Promoted(n, e, now).eps)
            && Promoted(n, e, now).eps[e].ended == n.eps[e].ended
    ensures |Promoted(n, e, now).eps| == |n.eps|
  {
    hide Gap, Promote, Heap, PathOk;
    var ep := n.eps[e];
    var p := PathOf(n, ep.rx);
    assert EpOk(ep, e);
    PromoteExact(ep.inFlight, now, p.stalled, p.stallAt);
    var (rest, moved) := Promote(ep.inFlight, now, p.stalled, p.stallAt);
    var r := ep.(inFlight := rest, ready := ep.ready + moved);
    PromotedEp(ep, e, rest, moved);
    forall k: Slot ensures Gap(Promoted(n, e, now), k) == Gap(n, k) {
      GapEp(n, e, r, k);
      assert multiset(rest + moved) == multiset(ep.inFlight);
      CntPerm(k, rest + moved, ep.inFlight);
      CntAppend(k, rest, moved);
      CntAppend(k, ep.ready, moved);
    }
  }

  lemma PromotedEp(ep: Ep, e: nat, rest: seq<Dgram>, moved: seq<Dgram>)
    requires EpOk(ep, e) && Heap(rest) && multiset(rest) + multiset(moved) == multiset(ep.inFlight)
    ensures EpOk(ep.(inFlight := rest, ready := ep.ready + moved), e)
  {
    hide Heap;
    forall d | d in rest ensures d.dir == ep.rx { assert d in multiset(ep.inFlight); }
    forall d | d in moved ensures d.dir == ep.rx { assert d in multiset(ep.inFlight); }
    if ep.ended {
      assert |multiset(rest) + multiset(moved)| == 0;
      assert rest == [] && moved == [];
    }
  }

  // ---- datagrams entering ----

  lemma PushedEp(ep: Ep, e: nat, d: Dgram)
    requires EpOk(ep, e) && !ep.ended && d.dir == ep.rx
    ensures var e1 := ep.(inFlight := PushIn(ep.inFlight, d));
            EpOk(e1, e) && forall k: Slot :: EpCnt(k, e1) == EpCnt(k, ep) + One(k, d)
  {
    hide PushIn, Heap, One, Cnt;
    PushInHeap(ep.inFlight, d);
    var h := PushIn(ep.inFlight, d);
    forall x | x in h ensures x.dir == ep.rx { assert x in multiset(h); }
    assert multiset(ep.inFlight + [d]) == multiset(h);
    forall k: Slot ensures Cnt(k, h) == Cnt(k, ep.inFlight) + One(k, d) {
      CntPerm(k, ep.inFlight + [d], h);
      CntAppend(k, ep.inFlight, [d]);
      CntOne(k, d);
    }
  }

  lemma LaunchKeeps(n: Link, d: Dgram, due: int)
    requires Placed(n) && Aimed(d, d.dir) && d.dst < |n.eps|
    ensures var r := Launch(n, d, due);
            && Placed(r) && r.queue == n.queue && |r.eps| == |n.eps| && r.kinds == n.kinds && r.up == n.up
            && r.down == n.down
            && (forall k: Slot :: Gap(r, k) == Gap(n, k) - One(k, d)) && r.q0 <= n.q0 && r.q1 <= n.q1
  {
    hide Gap, PushIn, Heap, PathOk, EpCnt;
    var r := Launch(n, d, due);
    var ep := n.eps[d.dst];
    assert EpOk(ep, d.dst);
    if ep.ended {
      forall k: Slot ensures Gap(r, k) == Gap(n, k) - One(k, d) { GapLose(n, d, DeadEnd, k); }
    } else {
      var d1 := d.(due := due, seqno := n.tick + 1);
      PushedEp(ep, d.dst, d1);
      var e1 := ep.(inFlight := PushIn(ep.inFlight, d1));
      forall k: Slot ensures Gap(r, k) == Gap(n, k) - One(k, d) {
        GapEp(n, d.dst, e1, k);
        GapSame(n.(eps := n.eps[d.dst := e1]), r, k);
        assert EpCnt(k, e1) == EpCnt(k, ep) + One(k, d1);
      }
    }
  }

  lemma HoldKeeps(n: Link, d: Dgram)
    requires Placed(n) && Aimed(d, d.dir) && d.dst < |n.eps|
    ensures var p := PathOf(n, d.dir);
            var r := WithPath(n, d.dir, p.(held := p.held + [d]));
            Placed(r) && forall k: Slot :: Gap(r, k) == Gap(n, k) - One(k, d)
  {
    hide Gap, EpOk;
    var p := PathOf(n, d.dir);
    var p1 := p.(held := p.held + [d]);
    forall k: Slot ensures Gap(WithPath(n, d.dir, p1), k) == Gap(n, k) - One(k, d) {
      GapPath(n, d.dir, p1, k);
      CntAppend(k, p.held, [d]);
      CntOne(k, d);
    }
  }

  /** One datagram takes its place: the class counters already know it, the queue counter now does. */
  lemma EnterKeeps(n: Link, d: Dgram, due: int)
    requires Placed(n) && Aimed(d, d.dir) && d.dst < |n.eps|
    ensures var r := Enter(n, d, due);
            && Placed(r) && r.queue == n.queue && |r.eps| == |n.eps| && r.kinds == n.kinds
            && (forall k: Slot :: Gap(r, k) == Gap(n, k) - Share(k, d.cls, d.id))
            && QueueOf(r, d.dir) <= QueueOf(n, d.dir) + 1 && QueueOf(r, 1 - d.dir) <= QueueOf(n, 1 - d.dir)
  {
    hide Gap, Launch, EpOk, PathOk, One, Share;
    var n1 := Bump(n, d.dir, 1);
    forall k: Slot ensures Gap(n1, k) == Gap(n, k) - Share(k, d.cls, d.id) + One(k, d) {
      GapBump(n, d.dir, 1, k);
      OneShares(k, d);
    }
    if PathOf(n1, d.dir).stalled { HoldKeeps(n1, d); } else { LaunchKeeps(n1, d, due); }
  }

  lemma BearFrame(n: Link, from: nat, cls: Kind, how: Ctr)
    ensures var r := Bear(n, from, cls, how);
            && r.queue == n.queue && r.eps == n.eps && r.kinds == n.kinds && r.up == n.up && r.down == n.down
            && r.q0 == n.q0 && r.q1 == n.q1 && r.born == n.born + [Birth(from, cls, how)] && r.log == n.log
            && r.tick == n.tick
  {
  }

  lemma LeaveFrame(n: Link, id: nat, cls: Kind, end: End)
    ensures var r := Leave(n, id, cls, end);
            && r.queue == n.queue && r.eps == n.eps && r.kinds == n.kinds && r.up == n.up && r.down == n.down
            && r.q0 == n.q0 && r.q1 == n.q1 && r.born == n.born && r.log == n.log + [Event(id, cls, end)]
            && r.tick == n.tick
  {
  }

  lemma EnterCounted(n: Link, d: Dgram, due: int, how: Ctr)
    requires Inv(n) && Aimed(d, d.dir) && d.dst < |n.eps| && QueueOf(n, d.dir) < n.queue
    requires Sign(how) == 1 && d.id == |n.born|
    ensures var r := Enter(Bear(n, Peer(d.dst), d.cls, how), d, due);
            Inv(r) && r.queue == n.queue && |r.eps| == |n.eps| && r.kinds == n.kinds
  {
    hide Gap, Enter, EpOk, PathOk, Bear, Share;
    var n1 := Bear(n, Peer(d.dst), d.cls, how);
    BearFrame(n, Peer(d.dst), d.cls, how);
    EnterKeeps(n1, d, due);
    var r := Enter(n1, d, due);
    forall k: Slot ensures Gap(r, k) == 0 {
      GapBear(n, Peer(d.dst), d.cls, how, k);
      assert Gap(n, k) == 0;
    }
  }

  lemma CountFrame(n: Link, cls: Kind, w: Ctr)
    ensures var r := Count(n, cls, w); r == n.(all := r.all, session := r.session, probe := r.probe)
  {
  }

  lemma TransmitInv(n: Link, d: Dgram, f: Fate)
    requires Inv(n) && Aimed(d, d.dir) && d.dst < |n.eps|
    ensures Inv(Transmit(n, d, f))
  {
    hide Gap, Enter, Placed, Bear, Leave, Inv;
    var id, from := |n.born|, Peer(d.dst);
    BearFrame(n, from, d.cls, Sent);
    if PathOf(n, d.dir).blackhole {
      BornAndLost(n, from, d.cls, Sent, Black);
    } else if f.dropped {
      BornAndLost(n, from, d.cls, Sent, Dropped);
    } else if QueueOf(n, d.dir) >= n.queue {
      BornAndLost(n, from, d.cls, Sent, NoRoom);
    } else {
      EnterCounted(n, d.(id := id), f.due, Sent);
      var n2 := Enter(Bear(n, from, d.cls, Sent), d.(id := id), f.due);
      if f.dup && QueueOf(n2, d.dir) < n.queue { EnterCounted(n2, d.(id := |n2.born|), f.dupDue, Duplicated); }
    }
  }

  /** A copy counted in and at once out again. */
  lemma BornAndLost(n: Link, from: nat, cls: Kind, how: Ctr, why: Why)
    requires Inv(n) && Sign(how) == 1
    ensures Inv(Leave(Bear(n, from, cls, how), |n.born|, cls, LostTo(why)))
  {
    hide Gap, EpOk, PathOk, Bear, Leave;
    var n1 := Bear(n, from, cls, how);
    BearFrame(n, from, cls, how);
    LeaveFrame(n1, |n.born|, cls, LostTo(why));
    forall k: Slot ensures Gap(Leave(n1, |n.born|, cls, LostTo(why)), k) == 0 {
      assert Gap(n, k) == 0;
      GapBear(n, from, cls, how, k);
      GapLeave(n1, |n.born|, cls, LostTo(why), k);
    }
  }

  lemma WriteInv(n: Link, e: nat, w: WriteArgs)
    requires Inv(n)
    ensures Inv(Write(n, e, w))
  {
    hide Transmit, Bear, Leave, Inv;
    if e < |n.eps| && !n.eps[e].ended && e / 2 < |n.kinds| {
      var c := e / 2;
      var n1 := if e % 2 == 0 && n.kinds[c] == Unknown then n.(kinds := n.kinds[c := w.classified]) else n;
      Relabelled(n, n1);
      var cls := n1.kinds[c];
      if w.oversize && n.refuse {
      } else if w.oversize || !w.routed {
        BornAndLost(n1, e, cls, Sent, if w.oversize then TooLong else NoRoute);
      } else {
        Pairs(n1);
        TransmitInv(n1, Dgram(0, 0, cls, e % 2, Peer(e), 0), w.fate);
      }
    }
  }

  lemma Pairs(n: Link)
    requires Inv(n)
    ensures |n.eps| == 2 * |n.kinds|
  {
  }

  lemma Relabelled(n: Link, r: Link)
    requires Inv(n) && r == n.(kinds := r.kinds, tick := r.tick, refuse := r.refuse) && |r.kinds| == |n.kinds|
    ensures Inv(r)
  {
    hide Gap;
    forall k: Slot ensures Gap(r, k) == 0 { GapSame(n, r, k); assert Gap(n, k) == 0; }
  }

  // ---- datagrams leaving ----

  lemma ReadInv(n: Link, e: nat, now: int, truncated: bool)
    requires Inv(n)
    ensures Inv(Read(n, e, now, truncated))
  {
    hide Gap, Promoted, Placed;
    if e < |n.eps| && !n.eps[e].ended {
      PromotedKeeps(n, e, now);
      var n1 := Promoted(n, e, now);
      assert forall k: Slot :: Gap(n, k) == 0;
      if n1.eps[e].ready != [] { HandOver(n1, e, truncated); }
    }
  }

  lemma HandOver(n: Link, e: nat, truncated: bool)
    requires Inv(n) && e < |n.eps| && n.eps[e].ready != []
    ensures var ep := n.eps[e];
            var d := ep.ready[0];
            var n1 := Bump(n.(eps := n.eps[e := ep.(ready := ep.ready[1..])]), d.dir, -1);
            Inv(Leave(n1, d.id, d.cls, ReadAt(e, !truncated)))
  {
    hide Gap, Leave, PathOk, Heap, One, Share;
    var ep := n.eps[e];
    assert EpOk(ep, e);
    var d, end := ep.ready[0], ReadAt(e, !truncated);
    var e1 := ep.(ready := ep.ready[1..]);
    assert EpOk(e1, e);
    var n1 := n.(eps := n.eps[e := e1]);
    var n2 := Bump(n1, d.dir, -1);
    LeaveFrame(n2, d.id, d.cls, end);
    forall k: Slot ensures Gap(Leave(n2, d.id, d.cls, end), k) == 0 {
      assert Gap(n, k) == 0;
      GapEp(n, e, e1, k);
      CntHead(k, ep.ready);
      GapBump(n1, d.dir, -1, k);
      GapLeave(n2, d.id, d.cls, end, k);
      OneShares(k, d);
    }
  }

  lemma InjectInv(n: Link, c: nat, d: Dir, now: int)
    requires Inv(n)
    ensures Inv(Inject(n, c, d, now))
  {
    hide Inv, Promoted, Bear, Leave;
    var dst := 2 * c + 1 - d;
    if c < |n.kinds| && dst < |n.eps| && !n.eps[dst].ended {
      BearFrame(n, 2 * c + d, n.kinds[c], Injected);
      if QueueOf(n, d) >= n.queue {
        BornAndLost(n, 2 * c + d, n.kinds[c], Injected, NoRoom);
      } else {
        InjectFits(n, c, d, now);
      }
    }
  }

  lemma InjectFits(n: Link, c: nat, d: Dir, now: int)
    requires Inv(n) && c < |n.kinds| && 2 * c + 1 - d < |n.eps| && !n.eps[2 * c + 1 - d].ended
             && QueueOf(n, d) < n.queue
    ensures Inv(Inject(n, c, d, now))
  {
    hide Gap, Promoted, EpOk, PathOk, Bear, One, Share;
    var dst, cls := 2 * c + 1 - d, n.kinds[c];
    var n1 := Bear(n, 2 * c + d, cls, Injected);
    BearFrame(n, 2 * c + d, cls, Injected);
    var nb := Bump(n1, d, 1);
    PromotedKeeps(nb, dst, now);
    var n2 := Promoted(nb, dst, now);
    var dg := Dgram(now, n2.tick + 1, cls, d, dst, |n.born|);
    AddReady(n2, dst, dg);
    forall k: Slot ensures Gap(Inject(n, c, d, now), k) == 0 {
      assert Gap(n, k) == 0;
      GapBear(n, 2 * c + d, cls, Injected, k);
      GapBump(n1, d, 1, k);
      assert Gap(n2, k) == Gap(nb, k);
      OneShares(k, dg);
    }
  }

  lemma AddReady(n: Link, e: nat, d: Dgram)
    requires Placed(n) && e < |n.eps| && !n.eps[e].ended && Aimed(d, d.dir) && d.dst == e
    ensures var ep := n.eps[e];
            var r := n.(tick := n.tick + 1, eps := n.eps[e := ep.(ready := ep.ready + [d])]);
            Placed(r) && forall k: Slot :: Gap(r, k) == Gap(n, k) - One(k, d)
  {
    hide Gap, Heap, PathOk;
    var ep := n.eps[e];
    assert EpOk(ep, e);
    var e1 := ep.(ready := ep.ready + [d]);
    var r := n.(tick := n.tick + 1, eps := n.eps[e := e1]);
    forall k: Slot ensures Gap(r, k) == Gap(n, k) - One(k, d) {
      GapEp(n, e, e1, k);
      GapSame(n.(eps := n.eps[e := e1]), r, k);
      CntAppend(k, ep.ready, [d]);
      CntOne(k, d);
    }
  }

  // ---- losing many ----

  /** Datagrams taken out of the link's lists and then lost. */
  lemma LostFromLists(n: Link, s: seq<Dgram>, why: Why)
    ensures var r := LoseAll(n, s, why);
            && (forall k: Slot :: Gap(r, k) == Gap(n, k) - Cnt(k, s))
            && r.eps == n.eps && r.kinds == n.kinds && r.up == n.up && r.down == n.down && r.queue == n.queue
            && r.q0 <= n.q0 && r.q1 <= n.q1
  {
    hide LoseAll, EpsCnt, Cnt;
    LoseAllKeeps(n, s, why);
    var r := LoseAll(n, s, why);
    forall k: Slot ensures Gap(r, k) == Gap(n, k) - Cnt(k, s) { GapLoseAll(n, s, why, k); }
    assert Gap(r, Way(0)) == Gap(n, Way(0)) - Cnt(Way(0), s) && Gap(r, Way(1)) == Gap(n, Way(1)) - Cnt(Way(1), s);
  }

  lemma {:induction false} AddressedCnt(k: Slot, s: seq<Dgram>, e: nat)
    ensures Cnt(k, Addressed(s, e, true)) + Cnt(k, Addressed(s, e, false)) == Cnt(k, s)
    ensures forall d :: d in Addressed(s, e, false) ==> d in s
    decreases |s|
  {
    hide Cnt;
    if s == [] {
      CntNone(k);
    } else {
      AddressedCnt(k, s[1..], e);
      CntHead(k, s);
      var yes := s[0].dst == e;
      CntAppend(k, [s[0]], Addressed(s[1..], e, yes));
      CntOne(k, s[0]);
      assert [] + Addressed(s[1..], e, !yes) == Addressed(s[1..], e, !yes);
    }
  }

  lemma CntNone(k: Slot)
    ensures Cnt(k, []) == 0
  {
  }

  lemma PurgeKeeps(n: Link, d: Dir, e: nat)
    requires Placed(n)
    ensures var r := PurgeHeld(n, d, e);
            && Placed(r) && r.queue == n.queue && |r.eps| == |n.eps| && (forall k: Slot :: Gap(r, k) == Gap(n, k))
            && r.q0 <= n.q0 && r.q1 <= n.q1
  {
    hide Gap, LoseAll, EpOk, Cnt, Addressed;
    var p := PathOf(n, d);
    var out := Addressed(p.held, e, true);
    LostFromLists(n, out, Cut);
    var n1 := LoseAll(n, out, Cut);
    var p1 := p.(held := Addressed(p.held, e, false));
    AddressedCnt(Net(Every), p.held, e);
    forall k: Slot ensures Gap(WithPath(n1, d, p1), k) == Gap(n, k) {
      GapPath(n1, d, p1, k);
      AddressedCnt(k, p.held, e);
    }
  }

  /** An ended socket's lists are emptied into the lost. */
  lemma EmptyKeeps(n: Link, e: nat)
    requires Placed(n) && e < |n.eps| && !n.eps[e].ended
    ensures var ep := n.eps[e];
            var n1 := LoseAll(LoseAll(n.(eps := n.eps[e := ep.(ended := true)]), ep.inFlight, Cut), ep.ready, Cut);
            var n2 := n1.(eps := n.eps[e := ep.(ended := true, inFlight := [], ready := [])]);
            && Placed(n2) && n2.queue == n.queue && |n2.eps| == |n.eps| && (forall k: Slot :: Gap(n2, k) == Gap(n, k))
            && n2.q0 <= n.q0 && n2.q1 <= n.q1
  {
    hide Gap, LoseAll, Heap, PathOk, Cnt;
    var ep := n.eps[e];
    assert EpOk(ep, e);
    var ep1, ep2 := ep.(ended := true), ep.(ended := true, inFlight := [], ready := []);
    var m := n.(eps := n.eps[e := ep1]);
    LostFromLists(m, ep.inFlight, Cut);
    var m1 := LoseAll(m, ep.inFlight, Cut);
    LostFromLists(m1, ep.ready, Cut);
    var n1 := LoseAll(m1, ep.ready, Cut);
    var n2 := n1.(eps := n.eps[e := ep2]);
    assert n1.eps[e := ep2] == n.eps[e := ep2];
    EmptyHeap();
    assert EpOk(ep2, e);
    forall k: Slot ensures Gap(n2, k) == Gap(n, k) {
      GapEp(n, e, ep1, k);
      GapEp(n1, e, ep2, k);
      CntNone(k);
    }
  }

  lemma EmptyHeap()
    ensures Heap([])
  {
  }

  lemma ShutInv(n: Link, e: nat)
    requires Inv(n)
    ensures Inv(Shut(n, e))
  {
    hide Gap, LoseAll, Placed, PurgeHeld;
    if e < |n.eps| && !n.eps[e].ended {
      EmptyKeeps(n, e);
      var ep := n.eps[e];
      var n1 := LoseAll(LoseAll(n.(eps := n.eps[e := ep.(ended := true)]), ep.inFlight, Cut), ep.ready, Cut);
      var n2 := n1.(eps := n.eps[e := ep.(ended := true, inFlight := [], ready := [])]);
      PurgeKeeps(n2, 0, e);
      PurgeKeeps(PurgeHeld(n2, 0, e), 1, e);
      forall k: Slot ensures Gap(Shut(n, e), k) == 0 { assert Gap(n, k) == 0; }
    }
  }

  lemma {:induction false} KillInv(n: Link, e: nat)
    requires Inv(n)
    ensures Inv(KillFrom(n, e))
    decreases |n.eps| - e
  {
    hide Inv, Shut;
    if e < |n.eps| {
      ShutInv(n, e);
      ShutEps(n, e);
      KillInv(Shut(n, e), e + 1);
    }
  }

  // ---- blackhole and stall ----

  lemma DrainOneInv(n: Link, d: Dir, e: nat, now: int)
    requires Inv(n) && e < |n.eps|
    ensures Inv(DrainOne(n, d, e, now))
  {
    hide Gap, LoseAll, Promoted, Heap, PathOk, Cnt;
    if n.eps[e].rx == d {
      PromotedKeeps(n, e, now);
      var n1 := Promoted(n, e, now);
      var ep := n1.eps[e];
      assert EpOk(ep, e);
      var ep1 := ep.(inFlight := []);
      LostFromLists(n1, ep.inFlight, Swept);
      var n2 := LoseAll(n1, ep.inFlight, Swept);
      EmptyHeap();
      assert EpOk(ep1, e);
      forall k: Slot ensures Gap(DrainOne(n, d, e, now), k) == 0 {
        assert Gap(n, k) == 0;
        GapEp(n2, e, ep1, k);
        CntNone(k);
      }
    }
  }

  lemma {:induction false} DrainInv(n: Link, d: Dir, e: nat, now: int)
    requires Inv(n)
    ensures Inv(DrainFrom(n, d, e, now))
    decreases |n.eps| - e
  {
    hide Inv, DrainOne;
    if e < |n.eps| {
      DrainOneInv(n, d, e, now);
      DrainOneEps(n, d, e, now);
      DrainInv(DrainOne(n, d, e, now), d, e + 1, now);
    }
  }

  lemma PathFlags(n: Link, d: Dir, p: Path)
    requires Inv(n) && p.held == PathOf(n, d).held
    ensures Inv(WithPath(n, d, p))
  {
    hide Gap, EpOk;
    forall k: Slot ensures Gap(WithPath(n, d, p), k) == 0 { GapPath(n, d, p, k); assert Gap(n, k) == 0; }
  }

  lemma BlackholeInv(n: Link, d: Dir, on: bool, now: int)
    requires Inv(n)
    ensures Inv(SetBlackhole(n, d, on, now))
  {
    hide Gap, LoseAll, DrainFrom, EpOk, Cnt;
    var n1 := WithPath(n, d, PathOf(n, d).(blackhole := on));
    PathFlags(n, d, PathOf(n, d).(blackhole := on));
    if on {
      DrainInv(n1, d, 0, now);
      var n2 := DrainFrom(n1, d, 0, now);
      var p := PathOf(n2, d);
      LostFromLists(n2, p.held, Swept);
      var n3 := LoseAll(n2, p.held, Swept);
      var p1 := p.(held := []);
      forall k: Slot ensures Gap(WithPath(n3, d, p1), k) == 0 {
        assert Gap(n2, k) == 0;
        GapPath(n3, d, p1, k);
        CntNone(k);
      }
    }
  }

  /** A socket after its direction went black: what arrived by now stays readable, the rest is gone. */
  function Blackened(ep: Ep, d: Dir, p: Path, now: int): Ep {
    if ep.rx != d then ep
    else ep.(inFlight := [], ready := ep.ready + Promote(ep.inFlight, now, p.stalled, p.stallAt).1)
  }

  lemma {:induction false} DrainEffect(n: Link, d: Dir, e: nat, now: int)
    ensures var r := DrainFrom(n, d, e, now);
            && r.up == n.up && r.down == n.down && |r.eps| == |n.eps|
            && (forall j :: 0 <= j < |n.eps| ==>
                  r.eps[j] == if j >= e then Blackened(n.eps[j], d, PathOf(n, d), now) else n.eps[j])
    decreases |n.eps| - e
  {
    hide LoseAll, Promote, Blackened;
    if e < |n.eps| {
      DrainOneEffect(n, d, e, now);
      DrainEffect(DrainOne(n, d, e, now), d, e + 1, now);
    }
  }

  lemma DrainOneEffect(n: Link, d: Dir, e: nat, now: int)
    requires e < |n.eps|
    ensures var r := DrainOne(n, d, e, now);
            r.up == n.up && r.down == n.down && r.eps == n.eps[e := Blackened(n.eps[e], d, PathOf(n, d), now)]
  {
    hide LoseAll, Promote;
    if n.eps[e].rx == d {
      var n1 := Promoted(n, e, now);
      LoseAllKeeps(n1, n1.eps[e].inFlight, Swept);
    }
  }

  /** setBlackhole: nothing of the direction is in flight or held any more, what had arrived stays readable, and the
      other direction is as it was. */
  lemma BlackholeEmpties(n: Link, d: Dir, now: int)
    ensures var r := SetBlackhole(n, d, true, now);
            && PathOf(r, d) == PathOf(n, d).(blackhole := true, held := []) && PathOf(r, 1 - d) == PathOf(n, 1 - d)
            && |r.eps| == |n.eps|
            && forall j :: 0 <= j < |n.eps| ==> r.eps[j] == Blackened(n.eps[j], d, PathOf(n, d), now)
  {
    hide LoseAll, Promote, DrainFrom;
    var n1 := WithPath(n, d, PathOf(n, d).(blackhole := true));
    DrainEffect(n1, d, 0, now);
    var n2 := DrainFrom(n1, d, 0, now);
    LoseAllKeeps(n2, PathOf(n2, d).held, Swept);
  }

  lemma {:induction false} LaunchAllKeeps(n: Link, s: seq<Dgram>, dues: seq<int>)
    requires Placed(n) && forall d :: d in s ==> Aimed(d, d.dir) && d.dst < |n.eps|
    ensures var r := LaunchAll(n, s, dues);
            && Placed(r) && r.queue == n.queue && (forall k: Slot :: Gap(r, k) == Gap(n, k) - Cnt(k, s))
            && r.q0 <= n.q0 && r.q1 <= n.q1
    decreases |s|
  {
    hide Gap, Placed, Launch, Cnt;
    if s == [] {
      forall k: Slot ensures Cnt(k, s) == 0 { CntNone(k); }
    } else {
      var due := if dues == [] then 0 else dues[0];
      LaunchKeeps(n, s[0], due);
      var n1 := Launch(n, s[0], due);
      LaunchAllKeeps(n1, s[1..], if dues == [] then [] else dues[1..]);
      forall k: Slot ensures Gap(LaunchAll(n, s, dues), k) == Gap(n, k) - Cnt(k, s) {
        CntHead(k, s);
        assert Gap(n1, k) == Gap(n, k) - One(k, s[0]);
      }
    }
  }

  lemma StallInv(n: Link, d: Dir, on: bool, now: int, dues: seq<int>)
    requires Inv(n)
    ensures Inv(SetStall(n, d, on, now, dues))
  {
    hide Gap, LaunchAll, EpOk, Cnt;
    var p := PathOf(n, d);
    if on && !p.stalled {
      PathFlags(n, d, p.(stalled := true, stallAt := now));
    } else if !on && p.stalled {
      var p1 := p.(stalled := false, held := []);
      var n1 := WithPath(n, d, p1);
      LaunchAllKeeps(n1, p.held, dues);
      forall k: Slot ensures Gap(LaunchAll(n1, p.held, dues), k) == 0 {
        assert Gap(n, k) == 0;
        GapPath(n, d, p1, k);
        CntNone(k);
      }
    }
  }

  lemma DialInv(n: Link)
    requires Inv(n)
    ensures Inv(Dial(n))
  {
    hide Gap, Cnt;
    EmptyHeap();
    var a, b := Ep(1, false, [], []), Ep(0, false, [], []);
    assert EpOk(a, |n.eps|) && EpOk(b, |n.eps| + 1);
    forall k: Slot ensures Gap(Dial(n), k) == 0 {
      assert Gap(n, k) == 0;
      DialGap(n, k, a, b);
    }
  }

  lemma DialGap(n: Link, k: Slot, a: Ep, b: Ep)
    requires a.inFlight == a.ready == b.inFlight == b.ready == []
    ensures Gap(n.(eps := n.eps + [a, b], kinds := n.kinds + [Unknown]), k) == Gap(n, k)
  {
    var s := n.eps + [a, b];
    assert s[..|s| - 1] == n.eps + [a];
    assert (n.eps + [a])[..|n.eps|] == n.eps;
    assert EpCnt(k, a) == 0 && EpCnt(k, b) == 0;
    assert EpsCnt(k, n.eps + [a]) == EpsCnt(k, n.eps) + EpCnt(k, a);
    assert EpsCnt(k, s) == EpsCnt(k, n.eps + [a]) + EpCnt(k, b);
  }

  // ---- whole runs ----

  lemma StepInv(n: Link, step: Step)
    requires Inv(n)
    ensures Inv(Do(n, step))
  {
    hide Inv, Dial, Write, Read, Inject, Shut, KillFrom, SetBlackhole, SetStall;
    match step
    case DialStep => DialInv(n);
    case WriteStep(e, w) => WriteInv(n, e, w);
    case ReadStep(e, now, t) => ReadInv(n, e, now, t);
    case InjectStep(c, d, now) => InjectInv(n, c, d, now);
    case ShutStep(e) => ShutInv(n, e);
    case KillStep => KillInv(n, 0);
    case SetMode(r) => Relabelled(n, n.(refuse := r));
    case BlackholeStep(d, on, now) => BlackholeInv(n, d, on, now);
    case StallStep(d, on, now, dues) => StallInv(n, d, on, now, dues);
  }

  lemma FreshInv(n: Link)
    requires Fresh(n)
    ensures Inv(n)
  {
  }

  lemma {:induction false} RunInv(n: Link, steps: seq<Step>)
    requires Fresh(n)
    ensures Inv(Exec(n, steps))
    decreases |steps|
  {
    hide Inv, Do, Fresh;
    if steps == [] {
      FreshInv(n);
    } else {
      var m := |steps| - 1;
      RunInv(n, steps[..m]);
      StepInv(Exec(n, steps[..m]), steps[m]);
    }
  }

  lemma {:induction false} LaunchAllQueue(n: Link, s: seq<Dgram>, dues: seq<int>)
    ensures LaunchAll(n, s, dues).queue == n.queue
    decreases |s|
  {
    hide PushIn;
    if s != [] {
      LaunchAllQueue(Launch(n, s[0], if dues == [] then 0 else dues[0]), s[1..], if dues == [] then [] else dues[1..]);
    }
  }

  lemma PurgeQueue(n: Link, d: Dir, e: nat)
    ensures PurgeHeld(n, d, e).queue == n.queue
  {
    hide LoseAll, Addressed;
    LoseAllKeeps(n, Addressed(PathOf(n, d).held, e, true), Cut);
  }

  lemma ShutQueue(n: Link, e: nat)
    ensures Shut(n, e).queue == n.queue
  {
    hide LoseAll, PurgeHeld;
    if e < |n.eps| && !n.eps[e].ended {
      var ep := n.eps[e];
      var m := n.(eps := n.eps[e := ep.(ended := true)]);
      LoseAllKeeps(m, ep.inFlight, Cut);
      LoseAllKeeps(LoseAll(m, ep.inFlight, Cut), ep.ready, Cut);
      var n1 := LoseAll(LoseAll(m, ep.inFlight, Cut), ep.ready, Cut);
      var n2 := n1.(eps := n.eps[e := ep.(ended := true, inFlight := [], ready := [])]);
      PurgeQueue(n2, 0, e);
      PurgeQueue(PurgeHeld(n2, 0, e), 1, e);
    }
  }

  lemma {:induction false} KillQueue(n: Link, e: nat)
    ensures KillFrom(n, e).queue == n.queue
    decreases |n.eps| - e
  {
    hide Shut;
    if e < |n.eps| {
      ShutQueue(n, e);
      ShutEps(n, e);
      KillQueue(Shut(n, e), e + 1);
    }
  }

  lemma {:induction false} DrainQueue(n: Link, d: Dir, e: nat, now: int)
    ensures DrainFrom(n, d, e, now).queue == n.queue
    decreases |n.eps| - e
  {
    hide LoseAll, Promote;
    if e < |n.eps| {
      var n1 := Promoted(n, e, now);
      LoseAllKeeps(n1, n1.eps[e].inFlight, Swept);
      DrainOneEps(n, d, e, now);
      DrainQueue(DrainOne(n, d, e, now), d, e + 1, now);
    }
  }

  lemma BlackholeQueue(n: Link, d: Dir, on: bool, now: int)
    ensures SetBlackhole(n, d, on, now).queue == n.queue
  {
    hide LoseAll, DrainFrom;
    var n1 := WithPath(n, d, PathOf(n, d).(blackhole := on));
    DrainQueue(n1, d, 0, now);
    var n2 := DrainFrom(n1, d, 0, now);
    LoseAllKeeps(n2, PathOf(n2, d).held, Swept);
  }

  lemma TransmitQueue(n: Link, d: Dgram, f: Fate)
    ensures Transmit(n, d, f).queue == n.queue
  {
    hide PushIn, Count;
    var n1 := Bear(n, Peer(d.dst), d.cls, Sent);
    BearFrame(n, Peer(d.dst), d.cls, Sent);
    LeaveFrame(n1, |n.born|, d.cls, LostTo(Black));
    LeaveFrame(n1, |n.born|, d.cls, LostTo(Dropped));
    LeaveFrame(n1, |n.born|, d.cls, LostTo(NoRoom));
    EnterQueue(n1, d.(id := |n.born|), f.due);
    var n2 := Enter(n1, d.(id := |n.born|), f.due);
    BearFrame(n2, Peer(d.dst), d.cls, Duplicated);
    EnterQueue(Bear(n2, Peer(d.dst), d.cls, Duplicated), d.(id := |n2.born|), f.dupDue);
  }

  lemma EnterQueue(n: Link, d: Dgram, due: int)
    ensures Enter(n, d, due).queue == n.queue
  {
    hide PushIn;
  }

  lemma StepQueue(n: Link, step: Step)
    ensures Do(n, step).queue == n.queue
  {
    hide Transmit, Shut, KillFrom, SetBlackhole, LaunchAll, Promote;
    match step
    case WriteStep(e, w) =>
      if e < |n.eps| && e / 2 < |n.kinds| {
        var n1 := if e % 2 == 0 && n.kinds[e / 2] == Unknown then n.(kinds := n.kinds[e / 2 := w.classified]) else n;
        TransmitQueue(n1, Dgram(0, 0, n1.kinds[e / 2], e % 2, Peer(e), 0), w.fate);
      }
    case ShutStep(e) => ShutQueue(n, e);
    case KillStep => KillQueue(n, 0);
    case BlackholeStep(d, on, now) => BlackholeQueue(n, d, on, now);
    case StallStep(d, on, now, dues) =>
      LaunchAllQueue(WithPath(n, d, PathOf(n, d).(stalled := false, held := [])), PathOf(n, d).held, dues);
    case _ =>
  }

  lemma {:induction false} RunQueue(n: Link, steps: seq<Step>)
    ensures Exec(n, steps).queue == n.queue
    decreases |steps|
  {
    hide Do;
    if steps != [] {
      RunQueue(n, steps[..|steps| - 1]);
      StepQueue(Exec(n, steps[..|steps| - 1]), steps[|steps| - 1]);
    }
  }

  /** r is the link of this queue after some run. */
  ghost predicate Reachable(queue: nat, r: Link) {
    exists n: Link, steps: seq<Step> :: Fresh(n) && n.queue == queue && r == Exec(n, steps)
  }

  /** Sent + Duplicated + Injected = Delivered + Truncated + Lost + what is still in the link, for all carriers,
      the session carriers and the probe carriers, after any run. */
  lemma Conservation(queue: nat, r: Link)
    requires Reachable(queue, r)
    ensures
            && r.all.sent + r.all.duplicated + r.all.injected ==
               r.all.delivered + r.all.truncated + r.all.lost + InLink(r, Net(Every))
            && r.session.sent + r.session.duplicated + r.session.injected ==
               r.session.delivered + r.session.truncated + r.session.lost + InLink(r, Net(Sessions))
            && r.probe.sent + r.probe.duplicated + r.probe.injected ==
               r.probe.delivered + r.probe.truncated + r.probe.lost + InLink(r, Net(Probes))
  {
    hide Exec, InLink, Placed, Fresh;
    var n, steps :| Fresh(n) && n.queue == queue && r == Exec(n, steps);
    RunInv(n, steps);
    assert Gap(r, Net(Every)) == 0 && Gap(r, Net(Sessions)) == 0 && Gap(r, Net(Probes)) == 0;
  }

  /** Each queue counter is the number of datagrams of its direction in the link, never above the configured bound. */
  lemma QueueCounters(queue: nat, r: Link)
    requires Reachable(queue, r)
    ensures r.q0 == InLink(r, Way(0)) <= queue && r.q1 == InLink(r, Way(1)) <= queue
  {
    hide Exec, InLink, Placed, Fresh;
    var n, steps :| Fresh(n) && n.queue == queue && r == Exec(n, steps);
    RunInv(n, steps);
    RunQueue(n, steps);
    assert Gap(r, Way(0)) == 0 && Gap(r, Way(1)) == 0;
  }

  /** The datagrams of a socket travel in its direction, its heap is a heap, and once it ended it holds none. */
  lemma SocketsHold(queue: nat, r: Link, e: nat)
    requires Reachable(queue, r) && e < |r.eps|
    ensures var ep := r.eps[e];
            && Heap(ep.inFlight) && (ep.ended ==> ep.inFlight == [] && ep.ready == [])
            && (forall d :: d in ep.inFlight + ep.ready ==> d.dir == ep.rx)
  {
    hide Exec, Gap, Fresh;
    var n, steps :| Fresh(n) && n.queue == queue && r == Exec(n, steps);
    RunInv(n, steps);
    assert EpOk(r.eps[e], e);
  }
}
