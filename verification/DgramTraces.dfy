/** The history of every copy on the fake link: a copy is in one place or left
    once, it is read only by the socket opposite the one that sent it, and each
    loss has the reason that was recorded for it. */
module DgramTraces {
  import opened DgramHeap
  import opened DgramLink
  import opened DgramBooks

  // ---- copies and their births ----

  /** The datagram is the copy that was born under its number: for the socket opposite its sender, in its class. */
  predicate Traced(born: seq<Birth>, d: Dgram) {
    d.id < |born| && born[d.id].from == Peer(d.dst) && born[d.id].cls == d.cls
  }

  ghost predicate AllTraced(born: seq<Birth>, s: seq<Dgram>) { forall d :: d in s ==> Traced(born, d) }

  /** All of s belong to socket j. */
  ghost predicate AllHome(born: seq<Birth>, s: seq<Dgram>, j: nat) {
    forall d :: d in s ==> d.dst == j && Traced(born, d)
  }

  ghost predicate SiteOk(born: seq<Birth>, ep: Ep, j: nat) {
    AllHome(born, ep.inFlight, j) && AllHome(born, ep.ready, j)
  }

  /** A copy that left had been born, and was read only opposite its sender. */
  predicate EventOk(born: seq<Birth>, ev: Event) {
    && ev.id < |born| && ev.cls == born[ev.id].cls
    && (ev.end.ReadAt? ==> ev.end.e == Peer(born[ev.id].from))
  }

  ghost predicate LogOk(born: seq<Birth>, log: seq<Event>) {
    forall i :: 0 <= i < |log| ==> EventOk(born, log[i])
  }

  ghost predicate Sited(n: Link) {
    && (forall j :: 0 <= j < |n.eps| ==> SiteOk(n.born, n.eps[j], j))
    && AllTraced(n.born, n.up.held) && AllTraced(n.born, n.down.held) && LogOk(n.born, n.log)
  }

  lemma PeerPeer(e: nat)
    ensures Peer(Peer(e)) == e && Peer(e) / 2 == e / 2 && Peer(e) != e
  {
  }

  // ---- losses ----

  function Losses(s: seq<Dgram>, why: Why): seq<Event> {
    seq(|s|, i requires 0 <= i < |s| => Event(s[i].id, s[i].cls, LostTo(why)))
  }

  lemma {:induction false} LoseAllLog(n: Link, s: seq<Dgram>, why: Why)
    ensures LoseAll(n, s, why).log == n.log + Losses(s, why)
    decreases |s|
  {
    if s != [] {
      LoseAllLog(Lose(n, s[0], why), s[1..], why);
      assert Losses(s, why) == [Event(s[0].id, s[0].cls, LostTo(why))] + Losses(s[1..], why);
    }
  }

  lemma LossesOk(born: seq<Birth>, log: seq<Event>, s: seq<Dgram>, why: Why)
    requires LogOk(born, log) && AllTraced(born, s)
    ensures LogOk(born, log + Losses(s, why))
  {
    var l := log + Losses(s, why);
    forall i | 0 <= i < |l| ensures EventOk(born, l[i]) {
      if i >= |log| { assert s[i - |log|] in s; }
    }
  }

  // ---- reasons ----

  ghost predicate Holds(s: seq<Dgram>, id: nat) { exists d :: d in s && d.id == id }

  /** It is in flight at socket j, and has arrived by now or not. */
  ghost predicate InFlight(n: Link, j: nat, id: nat, now: int, arrived: bool) {
    j < |n.eps| && exists d :: d in n.eps[j].inFlight && d.id == id && Here(n, j, d, now) == arrived
  }

  predicate Here(n: Link, j: nat, d: Dgram, now: int)
    requires j < |n.eps|
  {
    var p := PathOf(n, n.eps[j].rx);
    Arrived(d, now, p.stalled, p.stallAt)
  }

  predicate Live(n: Link, e: nat) { e < |n.eps| && !n.eps[e].ended }

  /** A write makes copies from its socket, an injection from the sending end of its direction. */
  predicate BornOf(step: Step, from: nat) {
    (step.WriteStep? && from == step.e) || (step.InjectStep? && from == 2 * step.c + step.d)
  }

  /** What the end of a copy says of the link before the step in which it left: b is its birth. */
  ghost predicate Shows(n: Link, step: Step, b: Birth, id: nat, end: End) {
    var dir: Dir := b.from % 2;
    match end
    case ReadAt(e, whole) =>
      && step.ReadStep? && step.e == e && step.truncated == !whole && Live(n, e)
      && (Holds(n.eps[e].ready, id) || InFlight(n, e, id, step.now, true))
    case LostTo(why) =>
      match why
      case TooLong => step.WriteStep? && step.e == b.from && id == |n.born| && step.w.oversize && !n.refuse
      case NoRoute => step.WriteStep? && step.e == b.from && id == |n.born| && !step.w.routed && !step.w.oversize
      case Black => step.WriteStep? && step.e == b.from && id == |n.born| && PathOf(n, dir).blackhole
      case Dropped =>
        step.WriteStep? && step.e == b.from && id == |n.born| && step.w.fate.dropped && !PathOf(n, dir).blackhole
      case NoRoom =>
        BornOf(step, b.from) && id == |n.born| && InLink(n, Way(dir)) == n.queue
      case DeadEnd =>
        && Peer(b.from) < |n.eps| && n.eps[Peer(b.from)].ended
        && ((step.WriteStep? && step.e == b.from && id >= |n.born|)
            || (step.StallStep? && step.d == dir && !step.on && Holds(PathOf(n, dir).held, id)))
      case Cut => (step == ShutStep(Peer(b.from)) || step.KillStep?) && Live(n, Peer(b.from))
      case Swept =>
        && step.BlackholeStep? && step.d == dir && step.on
        && (Holds(PathOf(n, dir).held, id) || InFlight(n, Peer(b.from), id, step.now, false))
  }

  /** The copies born and the copies that left in this step are its own. */
  ghost predicate Explains(n: Link, step: Step, r: Link) {
    && n.born <= r.born && n.log <= r.log && LogOk(r.born, r.log)
    && (forall i :: |n.born| <= i < |r.born| ==>
          BornOf(step, r.born[i].from))
    && (forall i :: |n.log| <= i < |r.log| ==>
          Shows(n, step, r.born[r.log[i].id], r.log[i].id, r.log[i].end))
  }

  // ---- frames ----

  lemma SitedEp(n: Link, j: nat, ep: Ep, tick: nat)
    requires Sited(n) && j < |n.eps| && SiteOk(n.born, ep, j)
    ensures Sited(n.(eps := n.eps[j := ep], tick := tick))
  {
    hide AllHome, AllTraced, LogOk;
  }

  lemma SitedPath(n: Link, d: Dir, p: Path)
    requires Sited(n) && AllTraced(n.born, p.held)
    ensures Sited(WithPath(n, d, p))
  {
    hide SiteOk, AllTraced, LogOk;
  }

  lemma TracedLater(born: seq<Birth>, b: Birth, s: seq<Dgram>)
    requires AllTraced(born, s)
    ensures AllTraced(born + [b], s)
  {
  }

  lemma SiteLater(born: seq<Birth>, b: Birth, ep: Ep, j: nat)
    requires SiteOk(born, ep, j)
    ensures SiteOk(born + [b], ep, j)
  {
  }

  lemma SitedBear(n: Link, from: nat, cls: Kind, how: Ctr)
    requires Sited(n)
    ensures Sited(Bear(n, from, cls, how))
  {
    hide SiteOk, AllTraced, Bear;
    var r, b := Bear(n, from, cls, how), Birth(from, cls, how);
    BearFrame(n, from, cls, how);
    forall j | 0 <= j < |n.eps| ensures SiteOk(r.born, r.eps[j], j) { SiteLater(n.born, b, n.eps[j], j); }
    TracedLater(n.born, b, n.up.held);
    TracedLater(n.born, b, n.down.held);
    forall i | 0 <= i < |n.log| ensures EventOk(r.born, n.log[i]) { assert EventOk(n.born, n.log[i]); }
  }

  lemma SitedLeave(n: Link, id: nat, cls: Kind, end: End)
    requires Sited(n) && EventOk(n.born, Event(id, cls, end))
    ensures Sited(Leave(n, id, cls, end))
  {
    hide SiteOk, AllTraced, Leave, EventOk;
    LeaveFrame(n, id, cls, end);
  }

  /** The lists left, the history and the counters of s lost. */
  lemma SitedLoseAll(n: Link, s: seq<Dgram>, why: Why)
    requires Sited(n) && AllTraced(n.born, s)
    ensures Sited(LoseAll(n, s, why)) && LoseAll(n, s, why).log == n.log + Losses(s, why)
  {
    hide SiteOk, AllTraced, LogOk, LoseAll;
    LoseAllKeeps(n, s, why);
    LoseAllLog(n, s, why);
    LossesOk(n.born, n.log, s, why);
  }

  // ---- entering ----

  lemma PushSite(born: seq<Birth>, ep: Ep, j: nat, d: Dgram)
    requires Heap(ep.inFlight) && SiteOk(born, ep, j) && d.dst == j && Traced(born, d)
    ensures SiteOk(born, ep.(inFlight := PushIn(ep.inFlight, d)), j)
  {
    hide PushIn, Heap, Traced;
    PushInHeap(ep.inFlight, d);
    var h := PushIn(ep.inFlight, d);
    forall x | x in h ensures x.dst == j && Traced(born, x) {
      assert x in multiset(h);
      assert x in ep.inFlight || x == d;
    }
  }

  /** Only the receiver's end loses a launched datagram. */
  ghost predicate Launched(n: Link, r: Link, d: Dgram) {
    && r.born == n.born && |r.eps| == |n.eps| && (forall j :: 0 <= j < |n.eps| ==> r.eps[j].ended == n.eps[j].ended)
    && (r.log == n.log
        || (d.dst < |n.eps| && n.eps[d.dst].ended && r.log == n.log + [Event(d.id, d.cls, LostTo(DeadEnd))]))
  }

  lemma LaunchSited(n: Link, d: Dgram, due: int)
    requires Placed(n) && Sited(n) && Traced(n.born, d) && d.dst < |n.eps|
    ensures Sited(Launch(n, d, due)) && Launched(n, Launch(n, d, due), d)
    ensures var r := Launch(n, d, due); r.up == n.up && r.down == n.down
  {
    hide SiteOk, PushIn, AllTraced, LogOk, PathOk;
    var ep := n.eps[d.dst];
    assert EpOk(ep, d.dst) && SiteOk(n.born, ep, d.dst);
    if ep.ended {
      SitedLeave(n, d.id, d.cls, LostTo(DeadEnd));
      SitedBump(Leave(n, d.id, d.cls, LostTo(DeadEnd)), d.dir, -1);
    } else {
      var d1 := d.(due := due, seqno := n.tick + 1);
      PushSite(n.born, ep, d.dst, d1);
      SitedEp(n, d.dst, ep.(inFlight := PushIn(ep.inFlight, d1)), n.tick + 1);
    }
  }

  lemma SitedBump(n: Link, d: Dir, v: int)
    requires Sited(n)
    ensures Sited(Bump(n, d, v))
  {
    hide SiteOk, AllTraced, LogOk;
  }

  lemma EnterSited(n: Link, d: Dgram, due: int)
    requires Placed(n) && Sited(n) && Traced(n.born, d) && d.dst < |n.eps|
    ensures Sited(Enter(n, d, due)) && Launched(n, Enter(n, d, due), d)
  {
    hide SiteOk, Launch, LogOk, EpOk, PathOk;
    var n1 := Bump(n, d.dir, 1);
    SitedBump(n, d.dir, 1);
    var p := PathOf(n1, d.dir);
    if p.stalled { SitedPath(n1, d.dir, p.(held := p.held + [d])); } else { LaunchSited(n1, d, due); }
  }

  // ---- arriving ----

  /** What promotion leaves in flight had not arrived, what it adds to the arrivals had. */
  lemma PromotedSited(n: Link, e: nat, now: int)
    requires Placed(n) && Sited(n) && e < |n.eps|
    ensures var r := Promoted(n, e, now);
            && Sited(r) && |r.eps| == |n.eps|
            && (forall d :: d in r.eps[e].inFlight ==> d in n.eps[e].inFlight && !Here(n, e, d, now))
            && (forall d :: d in r.eps[e].ready ==>
                  d in n.eps[e].ready || (d in n.eps[e].inFlight && Here(n, e, d, now)))
  {
    hide Promote, PathOk, AllTraced, LogOk, Arrived, Traced;
    var ep := n.eps[e];
    var p := PathOf(n, ep.rx);
    assert EpOk(ep, e) && SiteOk(n.born, ep, e);
    PromoteExact(ep.inFlight, now, p.stalled, p.stallAt);
    var (rest, moved) := Promote(ep.inFlight, now, p.stalled, p.stallAt);
    forall d | d in rest ensures d in ep.inFlight { assert d in multiset(ep.inFlight); }
    forall d | d in moved ensures d in ep.inFlight { assert d in multiset(ep.inFlight); }
    SitedEp(n, e, ep.(inFlight := rest, ready := ep.ready + moved), n.tick);
  }

  // ---- writing ----

  /** m is the link somewhere inside the step from n. */
  ghost predicate Midway(n: Link, step: Step, m: Link) {
    && Sited(m) && Explains(n, step, m) && |m.eps| == |n.eps|
    && (forall j :: 0 <= j < |n.eps| ==> m.eps[j].ended == n.eps[j].ended)
  }

  lemma StartsMidway(n: Link, step: Step)
    requires Sited(n)
    ensures Midway(n, step, n)
  {
    hide SiteOk, AllTraced, Shows;
  }

  lemma LostNow(n: Link, step: Step, from: nat, cls: Kind, how: Ctr, why: Why)
    requires Sited(n) && Shows(n, step, Birth(from, cls, how), |n.born|, LostTo(why))
    requires BornOf(step, from)
    ensures var r := Leave(Bear(n, from, cls, how), |n.born|, cls, LostTo(why)); Sited(r) && Explains(n, step, r)
  {
    hide SiteOk, AllTraced, Shows, Bear, Leave;
    var n1 := Bear(n, from, cls, how);
    BearFrame(n, from, cls, how);
    SitedBear(n, from, cls, how);
    LeaveFrame(n1, |n.born|, cls, LostTo(why));
    SitedLeave(n1, |n.born|, cls, LostTo(why));
  }

  /** One more copy of a write takes its place, or finds its receiver ended. */
  lemma EnterExplains(n: Link, step: Step, m: Link, d: Dgram, due: int, how: Ctr)
    requires Midway(n, step, m) && Placed(m) && d.id == |m.born| && d.dst < |m.eps|
    requires step.WriteStep? && Peer(d.dst) == step.e
    ensures Midway(n, step, Enter(Bear(m, Peer(d.dst), d.cls, how), d, due))
  {
    hide SiteOk, AllTraced, EpOk, PathOk, Bear, Enter, LogOk;
    var from := Peer(d.dst);
    var m1 := Bear(m, from, d.cls, how);
    BearFrame(m, from, d.cls, how);
    SitedBear(m, from, d.cls, how);
    EnterSited(m1, d, due);
    var r := Enter(m1, d, due);
    PeerPeer(d.dst);
    LaterBirths(n, step, m, r);
    assert r.log != m.log ==> Shows(n, step, r.born[d.id], d.id, LostTo(DeadEnd));
    MoreLog(n, step, m, r);
  }

  /** Births appended to the history change no earlier one. */
  lemma LaterBirths(n: Link, step: Step, m: Link, r: Link)
    requires Explains(n, step, m) && m.born <= r.born
    ensures forall i :: |n.log| <= i < |m.log| ==>
              m.log[i].id < |r.born| && Shows(n, step, r.born[m.log[i].id], m.log[i].id, m.log[i].end)
  {
    hide Shows;
    forall i | |n.log| <= i < |m.log|
      ensures m.log[i].id < |r.born| && Shows(n, step, r.born[m.log[i].id], m.log[i].id, m.log[i].end) {
      assert EventOk(m.born, m.log[i]);
    }
  }

  /** At most one more copy left. */
  lemma MoreLog(n: Link, step: Step, m: Link, r: Link)
    requires n.born <= m.born <= r.born && n.log <= m.log && LogOk(r.born, r.log)
    requires forall i :: |n.born| <= i < |r.born| ==>
               BornOf(step, r.born[i].from)
    requires forall i :: |n.log| <= i < |m.log| ==>
               m.log[i].id < |r.born| && Shows(n, step, r.born[m.log[i].id], m.log[i].id, m.log[i].end)
    requires r.log == m.log || (|r.log| == |m.log| + 1 && r.log[..|m.log|] == m.log)
    requires r.log != m.log ==>
               var ev := r.log[|m.log|]; ev.id < |r.born| && Shows(n, step, r.born[ev.id], ev.id, ev.end)
    ensures Explains(n, step, r)
  {
    hide Shows;
    assert forall i :: 0 <= i < |m.log| ==> r.log[i] == r.log[..|m.log|][i];
    assert n.log <= r.log && n.born <= r.born;
    forall i | |n.log| <= i < |r.log| ensures Shows(n, step, r.born[r.log[i].id], r.log[i].id, r.log[i].end) {
      if i < |m.log| { assert r.log[i] == m.log[i]; }
    }
  }

  lemma TransmitExplains(n: Link, step: Step, d: Dgram)
    requires Inv(n) && Sited(n) && step.WriteStep? && d.dst == Peer(step.e) && d.dir == step.e % 2 && d.dst < |n.eps|
    ensures var r := Transmit(n, d, step.w.fate); Sited(r) && Explains(n, step, r)
  {
    hide Sited, Explains, Bear, Leave, Enter, Inv, Placed, Midway;
    var id, from, f := |n.born|, Peer(d.dst), step.w.fate;
    PeerPeer(step.e);
    BearFrame(n, from, d.cls, Sent);
    if PathOf(n, d.dir).blackhole {
      LostNow(n, step, from, d.cls, Sent, Black);
    } else if f.dropped {
      LostNow(n, step, from, d.cls, Sent, Dropped);
    } else if QueueOf(n, d.dir) >= n.queue {
      Full(n, d.dir);
      LostNow(n, step, from, d.cls, Sent, NoRoom);
    } else {
      EnterBoth(n, step, d, f);
    }
  }

  lemma EnterBoth(n: Link, step: Step, d: Dgram, f: Fate)
    requires Inv(n) && Sited(n) && step.WriteStep? && d.dst == Peer(step.e) && d.dir == step.e % 2 && d.dst < |n.eps|
    requires QueueOf(n, d.dir) < n.queue
    ensures var n2 := Enter(Bear(n, Peer(d.dst), d.cls, Sent), d.(id := |n.born|), f.due);
            && Sited(n2) && Explains(n, step, n2)
            && (QueueOf(n2, d.dir) < n.queue ==>
                  var r := Enter(Bear(n2, Peer(d.dst), d.cls, Duplicated), d.(id := |n2.born|), f.dupDue);
                  Sited(r) && Explains(n, step, r))
  {
    hide Sited, Explains, Bear, Enter, EpOk, PathOk, Gap;
    var d1 := d.(id := |n.born|);
    PeerPeer(step.e);
    StartsMidway(n, step);
    EnterExplains(n, step, n, d1, f.due, Sent);
    EnterCounted(n, d1, f.due, Sent);
    var n2 := Enter(Bear(n, Peer(d.dst), d.cls, Sent), d1, f.due);
    if QueueOf(n2, d.dir) < n.queue { EnterExplains(n, step, n2, d.(id := |n2.born|), f.dupDue, Duplicated); }
  }

  /** A full queue is full of datagrams. */
  lemma Full(n: Link, d: Dir)
    requires Inv(n) && QueueOf(n, d) >= n.queue
    ensures InLink(n, Way(d)) == n.queue
  {
    hide InLink, Placed;
    assert Gap(n, Way(d)) == 0;
  }

  lemma WriteExplains(n: Link, step: Step)
    requires Inv(n) && Sited(n) && step.WriteStep?
    ensures Sited(Do(n, step)) && Explains(n, step, Do(n, step))
  {
    hide Transmit, Bear, Leave, Inv, Sited, Explains;
    var e, w := step.e, step.w;
    StartsExplained(n, step);
    if Live(n, e) && e / 2 < |n.kinds| {
      var c := e / 2;
      var n1 := if e % 2 == 0 && n.kinds[c] == Unknown then n.(kinds := n.kinds[c := w.classified]) else n;
      Relabelled(n, n1);
      SameSites(n, n1);
      StartsExplained(n1, step);
      if w.oversize && n.refuse {
      } else if w.oversize || !w.routed {
        LostNow(n1, step, e, n1.kinds[c], Sent, if w.oversize then TooLong else NoRoute);
      } else {
        Pairs(n1);
        TransmitExplains(n1, step, Dgram(0, 0, n1.kinds[c], e % 2, Peer(e), 0));
      }
      SameExplains(n, n1, step, Do(n, step));
    }
  }

  lemma StartsExplained(n: Link, step: Step)
    requires Sited(n)
    ensures Explains(n, step, n)
  {
    hide SiteOk, AllTraced, Shows;
  }

  lemma SameSites(n: Link, r: Link)
    requires Sited(n) && r == n.(kinds := r.kinds, refuse := r.refuse)
    ensures Sited(r)
  {
    hide SiteOk, AllTraced, LogOk;
  }

  /** The carriers' classes are no part of any reason. */
  lemma SameExplains(n: Link, m: Link, step: Step, r: Link)
    requires m == n.(kinds := m.kinds) && Explains(m, step, r)
    ensures Explains(n, step, r)
  {
    hide Shows;
    assert forall i :: 0 <= i < |r.log| ==> EventOk(r.born, r.log[i]);
    forall i | |n.log| <= i < |r.log| ensures Shows(n, step, r.born[r.log[i].id], r.log[i].id, r.log[i].end) {
      SameShows(n, m, step, r.born[r.log[i].id], r.log[i].id, r.log[i].end);
    }
  }

  lemma SameShows(n: Link, m: Link, step: Step, b: Birth, id: nat, end: End)
    requires m == n.(kinds := m.kinds) && Shows(m, step, b, id, end)
    ensures Shows(n, step, b, id, end)
  {
    hide EpsCnt, Cnt;
  }

  // ---- reading and injecting ----

  lemma ReadExplains(n: Link, step: Step)
    requires Placed(n) && Sited(n) && step.ReadStep?
    ensures Sited(Do(n, step)) && Explains(n, step, Do(n, step))
  {
    hide Promoted, Sited, Explains, EpOk, PathOk, Leave;
    var e := step.e;
    StartsExplained(n, step);
    if Live(n, e) {
      PromotedKeeps(n, e, step.now);
      PromotedSited(n, e, step.now);
      var n1 := Promoted(n, e, step.now);
      SameHistory(n, n1, step);
      if n1.eps[e].ready != [] { HandOverExplains(n, step, n1); }
    }
  }

  lemma SameHistory(n: Link, r: Link, step: Step)
    requires Sited(n) && r.born == n.born && r.log == n.log
    ensures Explains(n, step, r)
  {
    hide SiteOk, AllTraced, Shows;
  }

  lemma HandOverExplains(n: Link, step: Step, n1: Link)
    requires Sited(n) && Sited(n1) && step.ReadStep? && Live(n, step.e) && |n1.eps| == |n.eps|
             && n1.eps[step.e].ready != []
    requires n1 == n.(eps := n1.eps)
    requires forall d :: d in n1.eps[step.e].ready ==>
               d in n.eps[step.e].ready || (d in n.eps[step.e].inFlight && Here(n, step.e, d, step.now))
    ensures var e, ep := step.e, n1.eps[step.e];
            var d := ep.ready[0];
            var m := Bump(n1.(eps := n1.eps[e := ep.(ready := ep.ready[1..])]), d.dir, -1);
            var r := Leave(m, d.id, d.cls, ReadAt(e, !step.truncated));
            Sited(r) && Explains(n, step, r)
  {
    hide AllTraced, LogOk, Here, Leave, Traced;
    var e, ep := step.e, n1.eps[step.e];
    var d := ep.ready[0];
    var end := ReadAt(e, !step.truncated);
    assert SiteOk(n1.born, ep, e) && d in ep.ready;
    SitedEp(n1, e, ep.(ready := ep.ready[1..]), n1.tick);
    var m0 := n1.(eps := n1.eps[e := ep.(ready := ep.ready[1..])]);
    SitedBump(m0, d.dir, -1);
    var m := Bump(m0, d.dir, -1);
    TracedEvent(n.born, d, end);
    SitedLeave(m, d.id, d.cls, end);
    LeaveFrame(m, d.id, d.cls, end);
    assert Holds(n.eps[e].ready, d.id) || InFlight(n, e, d.id, step.now, true);
    assert Shows(n, step, n.born[d.id], d.id, end);
    OneEvent(n, step, Leave(m, d.id, d.cls, end));
  }

  lemma TracedEvent(born: seq<Birth>, d: Dgram, end: End)
    requires Traced(born, d) && (end.ReadAt? ==> end.e == d.dst)
    ensures EventOk(born, Event(d.id, d.cls, end))
  {
    PeerPeer(d.dst);
  }

  lemma OneEvent(n: Link, step: Step, r: Link)
    requires r.born == n.born && |r.log| == |n.log| + 1 && n.log <= r.log && LogOk(r.born, r.log)
    requires var ev := r.log[|n.log|]; ev.id < |r.born| && Shows(n, step, r.born[ev.id], ev.id, ev.end)
    ensures Explains(n, step, r)
  {
    hide Shows;
  }

  lemma InjectExplains(n: Link, step: Step)
    requires Inv(n) && Sited(n) && step.InjectStep?
    ensures Sited(Do(n, step)) && Explains(n, step, Do(n, step))
  {
    hide Sited, Explains, Promoted, Bear, Leave, Gap, EpOk, PathOk;
    var c, d, dst := step.c, step.d, 2 * step.c + 1 - step.d;
    StartsExplained(n, step);
    if c < |n.kinds| && Live(n, dst) {
      var cls := n.kinds[c];
      BearFrame(n, 2 * c + d, cls, Injected);
      if QueueOf(n, d) >= n.queue {
        Full(n, d);
        LostNow(n, step, 2 * c + d, cls, Injected, NoRoom);
      } else {
        ArrivesAtOnce(n, step);
      }
    }
  }

  lemma ArrivesAtOnce(n: Link, step: Step)
    requires Placed(n) && Sited(n) && step.InjectStep? && step.c < |n.kinds| && Live(n, 2 * step.c + 1 - step.d)
    requires QueueOf(n, step.d) < n.queue
    ensures Sited(Do(n, step)) && Explains(n, step, Do(n, step))
  {
    hide AllTraced, Promoted, Bear, EpOk, PathOk, Shows;
    var c, d, dst, now := step.c, step.d, 2 * step.c + 1 - step.d, step.now;
    var cls := n.kinds[c];
    var n1 := Bear(n, 2 * c + d, cls, Injected);
    BearFrame(n, 2 * c + d, cls, Injected);
    SitedBear(n, 2 * c + d, cls, Injected);
    SitedBump(n1, d, 1);
    var nb := Bump(n1, d, 1);
    PromotedKeeps(nb, dst, now);
    PromotedSited(nb, dst, now);
    var n2 := Promoted(nb, dst, now);
    var ep := n2.eps[dst];
    var dg := Dgram(now, n2.tick + 1, cls, d, dst, |n.born|);
    assert SiteOk(n2.born, ep, dst);
    assert Traced(n2.born, dg);
    assert SiteOk(n2.born, ep.(ready := ep.ready + [dg]), dst);
    SitedEp(n2, dst, ep.(ready := ep.ready + [dg]), n2.tick + 1);
  }

  // ---- ending sockets ----

  /** From m to r only copies for socket e were lost, because it ended. */
  ghost predicate CutFor(m: Link, r: Link, e: nat) {
    && r.born == m.born && m.log <= r.log
    && (forall i :: |m.log| <= i < |r.log| ==>
          r.log[i].end == LostTo(Cut) && r.log[i].id < |r.born| && Peer(r.born[r.log[i].id].from) == e)
  }

  lemma CutTrans(a: Link, b: Link, c: Link, e: nat)
    requires CutFor(a, b, e) && CutFor(b, c, e)
    ensures CutFor(a, c, e)
  {
    forall i | |a.log| <= i < |c.log|
      ensures c.log[i].end == LostTo(Cut) && c.log[i].id < |c.born| && Peer(c.born[c.log[i].id].from) == e
    {
      if i < |b.log| { assert c.log[i] == b.log[i]; }
    }
  }

  lemma CutAll(m: Link, s: seq<Dgram>, e: nat)
    requires Sited(m) && AllHome(m.born, s, e)
    ensures Sited(LoseAll(m, s, Cut)) && CutFor(m, LoseAll(m, s, Cut), e)
  {
    hide LoseAll, SiteOk, LogOk;
    LoseAllKeeps(m, s, Cut);
    SitedLoseAll(m, s, Cut);
    var r := LoseAll(m, s, Cut);
    forall i | |m.log| <= i < |r.log|
      ensures r.log[i].end == LostTo(Cut) && r.log[i].id < |r.born| && Peer(r.born[r.log[i].id].from) == e
    {
      var d := s[i - |m.log|];
      assert d in s && Traced(m.born, d);
      PeerPeer(d.dst);
    }
  }

  lemma {:induction false} AddressedIn(s: seq<Dgram>, e: nat, yes: bool)
    ensures forall d :: d in Addressed(s, e, yes) ==> d in s && (d.dst == e) == yes
    decreases |s|
  {
    if s != [] { AddressedIn(s[1..], e, yes); }
  }

  lemma PurgeCuts(m: Link, d: Dir, e: nat)
    requires Sited(m)
    ensures Sited(PurgeHeld(m, d, e)) && CutFor(m, PurgeHeld(m, d, e), e) && PurgeHeld(m, d, e).eps == m.eps
  {
    hide SiteOk, LogOk, LoseAll, Addressed, Traced;
    var p := PathOf(m, d);
    AddressedIn(p.held, e, true);
    AddressedIn(p.held, e, false);
    var gone := Addressed(p.held, e, true);
    CutAll(m, gone, e);
    LoseAllKeeps(m, gone, Cut);
    SitedPath(LoseAll(m, gone, Cut), d, p.(held := Addressed(p.held, e, false)));
  }

  lemma ShutCuts(m: Link, e: nat)
    requires Sited(m)
    ensures var r := Shut(m, e);
            && Sited(r) && CutFor(m, r, e) && |r.eps| == |m.eps| && (!Live(m, e) ==> r == m)
            && (forall j :: 0 <= j < |m.eps| ==> r.eps[j].ended == (m.eps[j].ended || j == e))
  {
    hide AllTraced, LogOk, LoseAll, PurgeHeld, AllHome, CutFor;
    CutSelf(m, e);
    if Live(m, e) {
      var ep := m.eps[e];
      assert SiteOk(m.born, ep, e);
      var m0 := m.(eps := m.eps[e := ep.(ended := true)]);
      SitedEp(m, e, ep.(ended := true), m.tick);
      CutSame(m, m0, e);
      CutAll(m0, ep.inFlight, e);
      LoseAllKeeps(m0, ep.inFlight, Cut);
      var m1 := LoseAll(m0, ep.inFlight, Cut);
      CutAll(m1, ep.ready, e);
      LoseAllKeeps(m1, ep.ready, Cut);
      var m2 := LoseAll(m1, ep.ready, Cut);
      var m3 := m2.(eps := m.eps[e := ep.(ended := true, inFlight := [], ready := [])]);
      EmptySites(m2, e, ep.(ended := true, inFlight := [], ready := []));
      assert m2.eps[e := ep.(ended := true, inFlight := [], ready := [])] == m3.eps;
      PurgeCuts(m3, 0, e);
      PurgeCuts(PurgeHeld(m3, 0, e), 1, e);
      CutSame(m2, m3, e);
      CutTrans(m, m0, m1, e);
      CutTrans(m, m1, m2, e);
      CutTrans(m, m2, m3, e);
      CutTrans(m, m3, PurgeHeld(m3, 0, e), e);
      CutTrans(m, PurgeHeld(m3, 0, e), Shut(m, e), e);
    }
  }

  lemma EmptySites(m: Link, e: nat, ep: Ep)
    requires Sited(m) && e < |m.eps| && ep.inFlight == [] && ep.ready == []
    ensures Sited(m.(eps := m.eps[e := ep]))
  {
    hide AllTraced, LogOk;
    SitedEp(m, e, ep, m.tick);
  }

  lemma CutSelf(m: Link, e: nat)
    ensures CutFor(m, m, e)
  {
  }

  lemma CutSame(m: Link, r: Link, e: nat)
    requires r.born == m.born && r.log == m.log
    ensures CutFor(m, r, e)
  {
  }

  lemma ShutExplains(n: Link, step: Step)
    requires Sited(n) && step.ShutStep?
    ensures Sited(Do(n, step)) && Explains(n, step, Do(n, step))
  {
    hide SiteOk, AllTraced, Shut, InLink;
    ShutCuts(n, step.e);
    var r := Shut(n, step.e);
    forall i | |n.log| <= i < |r.log|
      ensures r.log[i].id < |r.born| && Shows(n, step, r.born[r.log[i].id], r.log[i].id, r.log[i].end)
    {
      PeerPeer(r.born[r.log[i].id].from);
    }
  }

  /** From m to r only copies for sockets that were live in m were lost, because these ended. */
  ghost predicate CutLive(m: Link, r: Link) {
    && r.born == m.born && m.log <= r.log
    && (forall i :: |m.log| <= i < |r.log| ==>
          r.log[i].end == LostTo(Cut) && r.log[i].id < |r.born| && Live(m, Peer(r.born[r.log[i].id].from)))
  }

  lemma {:induction false} KillCuts(m: Link, e: nat)
    requires Sited(m)
    ensures Sited(KillFrom(m, e)) && CutLive(m, KillFrom(m, e))
    decreases |m.eps| - e
  {
    hide Shut, Sited;
    if e < |m.eps| {
      var m1 := Shut(m, e);
      ShutEps(m, e);
      ShutCuts(m, e);
      KillCuts(m1, e + 1);
      var r := KillFrom(m1, e + 1);
      forall i | |m.log| <= i < |r.log|
        ensures r.log[i].end == LostTo(Cut) && r.log[i].id < |r.born| && Live(m, Peer(r.born[r.log[i].id].from))
      {
        if i < |m1.log| { assert r.log[i] == m1.log[i]; }
      }
    }
  }

  lemma KillExplains(n: Link, step: Step)
    requires Sited(n) && step.KillStep?
    ensures Sited(Do(n, step)) && Explains(n, step, Do(n, step))
  {
    hide SiteOk, AllTraced, KillFrom, InLink;
    KillCuts(n, 0);
  }

  // ---- blackhole ----

  /** From m to r only copies of direction d were lost, in flight in m and not arrived. */
  ghost predicate SweptFlight(m: Link, r: Link, d: Dir, now: int) {
    && r.born == m.born && m.log <= r.log
    && (forall i :: |m.log| <= i < |r.log| ==>
          && r.log[i].end == LostTo(Swept) && r.log[i].id < |r.born| && r.born[r.log[i].id].from % 2 == d
          && InFlight(m, Peer(r.born[r.log[i].id].from), r.log[i].id, now, false))
  }

  lemma DrainOneSweeps(m: Link, d: Dir, e: nat, now: int)
    requires Placed(m) && Sited(m) && e < |m.eps|
    ensures Sited(DrainOne(m, d, e, now)) && SweptFlight(m, DrainOne(m, d, e, now), d, now)
  {
    hide LoseAll, Promoted, AllTraced, LogOk, PathOk, Here, InFlight;
    if m.eps[e].rx == d {
      assert EpOk(m.eps[e], e);
      PromotedSited(m, e, now);
      PromotedKeeps(m, e, now);
      var n1 := Promoted(m, e, now);
      var ep := n1.eps[e];
      assert SiteOk(n1.born, ep, e);
      HomeTraced(n1.born, ep.inFlight, e);
      SitedLoseAll(n1, ep.inFlight, Swept);
      LoseAllKeeps(n1, ep.inFlight, Swept);
      var n2 := LoseAll(n1, ep.inFlight, Swept);
      EmptyFlight(n2, e, ep.(inFlight := []));
      var r := DrainOne(m, d, e, now);
      forall i | |m.log| <= i < |r.log|
        ensures r.log[i].end == LostTo(Swept) && r.log[i].id < |r.born| && r.born[r.log[i].id].from % 2 == d
        ensures InFlight(m, Peer(r.born[r.log[i].id].from), r.log[i].id, now, false)
      {
        var x := ep.inFlight[i - |m.log|];
        assert x in ep.inFlight;
        PeerPeer(x.dst);
        FoundInFlight(m, e, x, now);
      }
    }
  }

  lemma HomeTraced(born: seq<Birth>, s: seq<Dgram>, j: nat)
    requires AllHome(born, s, j)
    ensures AllTraced(born, s)
  {
  }

  lemma EmptyFlight(m: Link, e: nat, ep: Ep)
    requires Sited(m) && e < |m.eps| && ep.inFlight == [] && ep.ready == m.eps[e].ready
    ensures Sited(m.(eps := m.eps[e := ep]))
  {
    hide AllTraced, LogOk;
    assert SiteOk(m.born, m.eps[e], e);
    SitedEp(m, e, ep, m.tick);
  }

  lemma FoundInFlight(m: Link, e: nat, x: Dgram, now: int)
    requires e < |m.eps| && x in m.eps[e].inFlight && !Here(m, e, x, now)
    ensures InFlight(m, e, x.id, now, false)
  {
    hide Here;
  }

  /** What is in flight after the drain of socket e was so before. */
  lemma SameFlight(m: Link, r: Link, e: nat, j: nat, id: nat, now: int)
    requires r.up == m.up && r.down == m.down && |r.eps| == |m.eps| && e < |m.eps|
    requires forall k :: 0 <= k < |m.eps| && k != e ==> r.eps[k] == m.eps[k]
    requires InFlight(r, j, id, now, false) && (r.eps[e] == m.eps[e] || r.eps[e].inFlight == [])
    ensures InFlight(m, j, id, now, false)
  {
  }

  lemma {:induction false} DrainSweeps(m: Link, d: Dir, e: nat, now: int)
    requires Inv(m) && Sited(m)
    ensures Sited(DrainFrom(m, d, e, now)) && SweptFlight(m, DrainFrom(m, d, e, now), d, now)
    decreases |m.eps| - e
  {
    hide Sited, DrainOne, InFlight, Gap, EpOk, PathOk;
    if e < |m.eps| {
      var m1 := DrainOne(m, d, e, now);
      DrainOneSweeps(m, d, e, now);
      DrainOneInv(m, d, e, now);
      DrainOneEps(m, d, e, now);
      DrainOneEffect(m, d, e, now);
      DrainSweeps(m1, d, e + 1, now);
      var r := DrainFrom(m1, d, e + 1, now);
      forall i | |m.log| <= i < |r.log|
        ensures r.log[i].end == LostTo(Swept) && r.log[i].id < |r.born| && r.born[r.log[i].id].from % 2 == d
        ensures InFlight(m, Peer(r.born[r.log[i].id].from), r.log[i].id, now, false)
      {
        if i < |m1.log| {
          assert r.log[i] == m1.log[i];
        } else {
          SameFlight(m, m1, e, Peer(r.born[r.log[i].id].from), r.log[i].id, now);
        }
      }
    }
  }

  lemma BlackholeExplains(n: Link, step: Step)
    requires Inv(n) && Sited(n) && step.BlackholeStep?
    ensures Sited(Do(n, step)) && Explains(n, step, Do(n, step))
  {
    hide SiteOk, EpOk, Gap, DrainFrom, LoseAll, InFlight, Holds, InLink, AllTraced;
    var d, now := step.d, step.now;
    var n1 := WithPath(n, d, PathOf(n, d).(blackhole := step.on));
    SitedPath(n, d, PathOf(n, d).(blackhole := step.on));
    SameHistory(n, n1, step);
    if step.on {
      PathFlags(n, d, PathOf(n, d).(blackhole := true));
      DrainSweeps(n1, d, 0, now);
      DrainEffect(n1, d, 0, now);
      var n2 := DrainFrom(n1, d, 0, now);
      FlightStays(n, n1, d, n2, now);
      HeldSweeps(n, step, n2);
    }
  }

  /** The blackhole flag is no part of arrival. */
  lemma FlightStays(n: Link, n1: Link, d: Dir, n2: Link, now: int)
    requires n1 == WithPath(n, d, PathOf(n, d).(blackhole := true)) && SweptFlight(n1, n2, d, now)
    ensures SweptFlight(n, n2, d, now)
  {
    forall i | |n.log| <= i < |n2.log|
      ensures InFlight(n, Peer(n2.born[n2.log[i].id].from), n2.log[i].id, now, false)
    {
      var j := Peer(n2.born[n2.log[i].id].from);
      var x :| x in n1.eps[j].inFlight && x.id == n2.log[i].id && !Here(n1, j, x, now);
      assert !Here(n, j, x, now);
    }
  }

  lemma HeldSweeps(n: Link, step: Step, n2: Link)
    requires step.BlackholeStep? && step.on && SweptFlight(n, n2, step.d, step.now) && Sited(n2)
    requires PathOf(n2, step.d).held == PathOf(n, step.d).held && PathOk(PathOf(n, step.d), step.d, |n.eps|)
    ensures var p := PathOf(n2, step.d);
            var r := WithPath(LoseAll(n2, p.held, Swept), step.d, p.(held := []));
            Sited(r) && Explains(n, step, r)
  {
    hide SiteOk, LoseAll, InFlight, InLink;
    var d, p := step.d, PathOf(n2, step.d);
    SitedLoseAll(n2, p.held, Swept);
    LoseAllKeeps(n2, p.held, Swept);
    var n3 := LoseAll(n2, p.held, Swept);
    SitedPath(n3, d, p.(held := []));
    var r := WithPath(n3, d, p.(held := []));
    forall i | |n.log| <= i < |r.log|
      ensures r.log[i].id < |r.born| && Shows(n, step, r.born[r.log[i].id], r.log[i].id, r.log[i].end)
    {
      if i < |n2.log| {
        assert r.log[i] == n2.log[i];
      } else {
        var x := p.held[i - |n2.log|];
        assert x in p.held && Traced(n2.born, x) && Aimed(x, d);
        assert Holds(PathOf(n, d).held, x.id);
      }
    }
  }

  // ---- stall ----

  lemma {:induction false} LaunchAllExplains(n: Link, step: Step, m: Link, s: seq<Dgram>, dues: seq<int>)
    requires Midway(n, step, m) && Placed(m) && step.StallStep? && !step.on && m.born == n.born
    requires forall x :: x in s ==>
               x in PathOf(n, step.d).held && Traced(m.born, x) && Aimed(x, step.d) && x.dst < |m.eps|
    ensures Midway(n, step, LaunchAll(m, s, dues))
    decreases |s|
  {
    hide Placed, Launch, Midway, Traced, Aimed;
    if s != [] {
      var due := if dues == [] then 0 else dues[0];
      var m1 := Launch(m, s[0], due);
      assert s[0] in s;
      AimedDir(s[0], step.d);
      LaunchKeeps(m, s[0], due);
      LaunchExplains(n, step, m, s[0], due);
      LaunchAllExplains(n, step, m1, s[1..], if dues == [] then [] else dues[1..]);
    }
  }

  lemma AimedDir(x: Dgram, d: Dir)
    requires Aimed(x, d)
    ensures Aimed(x, x.dir)
  {
  }

  lemma LaunchExplains(n: Link, step: Step, m: Link, x: Dgram, due: int)
    requires Midway(n, step, m) && Placed(m) && step.StallStep? && !step.on && m.born == n.born
    requires x in PathOf(n, step.d).held && Traced(m.born, x) && Aimed(x, step.d) && x.dst < |m.eps|
    ensures Midway(n, step, Launch(m, x, due)) && Launch(m, x, due).born == n.born && |Launch(m, x, due).eps| == |m.eps|
  {
    hide SiteOk, AllTraced, Launch, Placed, InLink;
    LaunchSited(m, x, due);
    var r := Launch(m, x, due);
    PeerPeer(x.dst);
    assert Holds(PathOf(n, step.d).held, x.id);
    LaterBirths(n, step, m, r);
    MoreLog(n, step, m, r);
  }

  lemma StallExplains(n: Link, step: Step)
    requires Inv(n) && Sited(n) && step.StallStep?
    ensures Sited(Do(n, step)) && Explains(n, step, Do(n, step))
  {
    hide SiteOk, EpOk, Gap, LaunchAll, LogOk, Explains, Traced;
    var d, p := step.d, PathOf(n, step.d);
    StartsExplained(n, step);
    if step.on && !p.stalled {
      SitedPath(n, d, p.(stalled := true, stallAt := step.now));
      SameHistory(n, Do(n, step), step);
    } else if !step.on && p.stalled {
      var p1 := p.(stalled := false, held := []);
      var n1 := WithPath(n, d, p1);
      SitedPath(n, d, p1);
      SameHistory(n, n1, step);
      LaunchAllExplains(n, step, n1, p.held, step.dues);
    }
  }

  lemma DialExplains(n: Link, step: Step)
    requires Sited(n) && step.DialStep?
    ensures Sited(Do(n, step)) && Explains(n, step, Do(n, step))
  {
    hide AllTraced, LogOk, Explains;
    SameHistory(n, Do(n, step), step);
  }

  // ---- every run ----

  /** Every step keeps the copies' history and explains what left in it. */
  lemma StepExplains(n: Link, step: Step)
    requires Inv(n) && Sited(n)
    ensures Sited(Do(n, step)) && Explains(n, step, Do(n, step))
  {
    hide Inv, Sited, Explains, Do;
    match step
    case DialStep => DialExplains(n, step);
    case WriteStep(_, _) => WriteExplains(n, step);
    case ReadStep(_, _, _) => PlacedOf(n); ReadExplains(n, step);
    case InjectStep(_, _, _) => InjectExplains(n, step);
    case ShutStep(_) => ShutExplains(n, step);
    case KillStep => KillExplains(n, step);
    case SetMode(_) => ModeExplains(n, step);
    case BlackholeStep(_, _, _) => BlackholeExplains(n, step);
    case StallStep(_, _, _, _) => StallExplains(n, step);
  }

  lemma PlacedOf(n: Link)
    requires Inv(n)
    ensures Placed(n)
  {
    hide Placed, Gap;
  }

  lemma ModeExplains(n: Link, step: Step)
    requires Sited(n) && step.SetMode?
    ensures Sited(Do(n, step)) && Explains(n, step, Do(n, step))
  {
    hide Sited, Explains;
    SameSites(n, Do(n, step));
    SameHistory(n, Do(n, step), step);
  }

  lemma {:induction false} RunSited(n: Link, steps: seq<Step>)
    requires Fresh(n)
    ensures Sited(Exec(n, steps))
    decreases |steps|
  {
    hide Do, Inv;
    if steps != [] {
      var m := |steps| - 1;
      RunSited(n, steps[..m]);
      RunInv(n, steps[..m]);
      StepExplains(Exec(n, steps[..m]), steps[m]);
    }
  }

  /** Copy i of the log left in step m of the run, for its recorded reason. */
  ghost predicate LeftAt(n: Link, steps: seq<Step>, i: nat, m: nat, b: Birth, ev: Event) {
    && m < |steps| && |Exec(n, steps[..m]).log| <= i < |Exec(n, steps[..m + 1]).log|
    && Exec(n, steps[..m + 1]).log[i] == ev && Shows(Exec(n, steps[..m]), steps[m], b, ev.id, ev.end)
  }

  /** Whatever the run, each copy made is held, in flight or ready in exactly one place, or left exactly once; one
      not made is nowhere. */
  lemma OnePlace(queue: nat, r: Link, id: nat)
    requires Reachable(queue, r)
    ensures InLink(r, Copy(id)) + Ends(r.log, id) == If(id < |r.born|)
  {
    hide Exec, InLink, Placed, Fresh;
    var n, steps :| Fresh(n) && n.queue == queue && r == Exec(n, steps);
    RunInv(n, steps);
    assert Gap(r, Copy(id)) == 0;
  }

  lemma {:induction false} NoTally(s: seq<Dgram>, k: Slot)
    requires k.Tally?
    ensures Cnt(k, s) == 0
  {
    if s != [] { NoTally(s[..|s| - 1], k); }
  }

  lemma {:induction false} NoTallyEps(eps: seq<Ep>, k: Slot)
    requires k.Tally?
    ensures EpsCnt(k, eps) == 0
  {
    if eps != [] {
      NoTallyEps(eps[..|eps| - 1], k);
      NoTally(eps[|eps| - 1].inFlight, k);
      NoTally(eps[|eps| - 1].ready, k);
    }
  }

  /** Each counter of each class is the number of copies that came, or left, that way. */
  lemma CountersAreCopies(queue: nat, r: Link, s: Scope, w: Ctr)
    requires Reachable(queue, r)
    ensures Of(CountsOf(r, s), w) == Births(r.born, s, w) + Exits(r.log, s, w)
  {
    hide Exec, EpsCnt, Cnt, Placed, Fresh, Births, Exits;
    var n, steps :| Fresh(n) && n.queue == queue && r == Exec(n, steps);
    RunInv(n, steps);
    assert Gap(r, Tally(s, w)) == 0;
    NoTallyEps(r.eps, Tally(s, w));
    NoTally(r.up.held, Tally(s, w));
    NoTally(r.down.held, Tally(s, w));
  }

  /** A copy that left had been made; it was read only by the socket opposite its sender, on the same carrier. */
  lemma ReadOpposite(queue: nat, r: Link, i: nat)
    requires Reachable(queue, r) && i < |r.log|
    ensures var ev := r.log[i];
            && ev.id < |r.born| && ev.cls == r.born[ev.id].cls
            && (ev.end.ReadAt? ==>
                  ev.end.e == Peer(r.born[ev.id].from) && ev.end.e / 2 == r.born[ev.id].from / 2
                  && ev.end.e != r.born[ev.id].from)
  {
    hide Exec, Fresh;
    var n, steps :| Fresh(n) && n.queue == queue && r == Exec(n, steps);
    RunSited(n, steps);
    assert EventOk(r.born, r.log[i]);
    PeerPeer(r.born[r.log[i].id].from);
  }

  /** Every copy that left did so in a step that explains it: what its recorded end says was so in the link before. */
  lemma {:induction false} EndsExplained(n: Link, steps: seq<Step>, i: nat)
    requires Fresh(n) && i < |Exec(n, steps).log|
    ensures var r := Exec(n, steps);
            && r.log[i].id < |r.born|
            && exists m :: 0 <= m < |steps| && LeftAt(n, steps, i, m, r.born[r.log[i].id], r.log[i])
    decreases |steps|
  {
    hide Do, Inv, Shows, Sited, LeftAt;
    if steps != [] {
      var m := |steps| - 1;
      var before, r := Exec(n, steps[..m]), Exec(n, steps);
      RunInv(n, steps[..m]);
      RunSited(n, steps[..m]);
      StepExplains(before, steps[m]);
      assert EventOk(r.born, r.log[i]);
      if i < |before.log| {
        EndsExplained(n, steps[..m], i);
        assert r.log[i] == before.log[i] && r.born[r.log[i].id] == before.born[r.log[i].id];
        var k :| 0 <= k < m && LeftAt(n, steps[..m], i, k, before.born[before.log[i].id], before.log[i]);
        LeftEarlier(n, steps, i, k, r.born[r.log[i].id], r.log[i]);
      } else {
        LeftLast(n, steps, i, r.born[r.log[i].id], r.log[i]);
      }
    }
  }

  lemma LeftEarlier(n: Link, steps: seq<Step>, i: nat, k: nat, b: Birth, ev: Event)
    requires k < |steps| - 1 && LeftAt(n, steps[..|steps| - 1], i, k, b, ev)
    ensures LeftAt(n, steps, i, k, b, ev)
  {
    hide Exec, Shows;
    assert steps[..|steps| - 1][..k] == steps[..k] && steps[..|steps| - 1][..k + 1] == steps[..k + 1];
  }

  lemma LeftLast(n: Link, steps: seq<Step>, i: nat, b: Birth, ev: Event)
    requires steps != [] && |Exec(n, steps[..|steps| - 1]).log| <= i < |Exec(n, steps).log|
             && Exec(n, steps).log[i] == ev
    requires Shows(Exec(n, steps[..|steps| - 1]), steps[|steps| - 1], b, ev.id, ev.end)
    ensures LeftAt(n, steps, i, |steps| - 1, b, ev)
  {
    hide Exec, Shows;
    assert steps[..|steps| - 1 + 1] == steps;
  }

  // ---- blackholes ----

  /** A write into a blackhole makes at most one copy, and loses every one it makes. */
  lemma BlackLoses(n: Link, step: Step)
    requires step.WriteStep? && PathOf(n, step.e % 2).blackhole
    ensures var r := Do(n, step);
            || (r.born == n.born && r.log == n.log)
            || (|r.born| == |n.born| + 1 && |r.log| == |n.log| + 1 && n.log <= r.log
                && r.log[|n.log|].id == |n.born| && r.log[|n.log|].end.LostTo?)
  {
    hide Enter, Count;
    var e, w := step.e, step.w;
    if Live(n, e) && e / 2 < |n.kinds| {
      var n1 := if e % 2 == 0 && n.kinds[e / 2] == Unknown then n.(kinds := n.kinds[e / 2 := w.classified]) else n;
      var cls := n1.kinds[e / 2];
      PeerPeer(e);
      BearFrame(n1, e, cls, Sent);
      LeaveFrame(Bear(n1, e, cls, Sent), |n1.born|, cls, LostTo(Black));
      LeaveFrame(Bear(n1, e, cls, Sent), |n1.born|, cls, LostTo(if w.oversize then TooLong else NoRoute));
    }
  }

  lemma {:induction false} LogGrows(n: Link, steps: seq<Step>, k: nat)
    requires Fresh(n) && k <= |steps|
    ensures Exec(n, steps[..k]).log <= Exec(n, steps).log
    decreases |steps|
  {
    hide Do, Inv, Sited, Fresh, Shows;
    if k == |steps| {
      assert steps[..k] == steps;
    } else {
      var m := |steps| - 1;
      LogGrows(n, steps[..m], k);
      assert steps[..m][..k] == steps[..k];
      RunInv(n, steps[..m]);
      RunSited(n, steps[..m]);
      StepExplains(Exec(n, steps[..m]), steps[m]);
    }
  }

  lemma {:induction false} EndsOnce(log: seq<Event>, i: nat, j: nat)
    requires i < j < |log| && log[i].id == log[j].id
    ensures Ends(log, log[i].id) >= 2
    decreases |log|
  {
    var m := |log| - 1;
    if j == m { EndsSome(log[..m], i); } else { EndsOnce(log[..m], i, j); }
  }

  lemma {:induction false} EndsSome(log: seq<Event>, i: nat)
    requires i < |log|
    ensures Ends(log, log[i].id) >= 1
    decreases |log|
  {
    if i < |log| - 1 { EndsSome(log[..|log| - 1], i); }
  }

  /** Whatever the run: a copy written while its direction was a blackhole is never read, however the run goes on. */
  lemma BlackNeverRead(n: Link, steps: seq<Step>, m: nat, id: nat, i: nat)
    requires Fresh(n) && m < |steps| && steps[m].WriteStep?
    requires var s := Exec(n, steps[..m]);
             PathOf(s, steps[m].e % 2).blackhole && |s.born| <= id < |Exec(n, steps[..m + 1]).born|
    requires i < |Exec(n, steps).log| && Exec(n, steps).log[i].id == id
    ensures Exec(n, steps).log[i].end.LostTo?
  {
    hide Do, Inv, Fresh, InLink, Ends;
    var s, t, r := Exec(n, steps[..m]), Exec(n, steps[..m + 1]), Exec(n, steps);
    assert steps[..m + 1][..m] == steps[..m] && steps[..m + 1][m] == steps[m];
    BlackLoses(s, steps[m]);
    LogGrows(n, steps, m + 1);
    var k := |s.log|;
    assert r.log[k] == t.log[k];
    AtMostOnce(n, steps, id);
    if i < k { EndsOnce(r.log, i, k); } else if k < i { EndsOnce(r.log, k, i); }
  }

  lemma AtMostOnce(n: Link, steps: seq<Step>, id: nat)
    requires Fresh(n)
    ensures Ends(Exec(n, steps).log, id) <= 1
  {
    hide Exec, InLink, Fresh, Ends;
    assert Reachable(n.queue, Exec(n, steps));
    OnePlace(n.queue, Exec(n, steps), id);
  }

  // ---- what a write makes ----

  /** transmit makes one copy, sent, and a duplicate only if one was drawn; and the duplicate is made when the copy
      found its place and two fit the queue. */
  lemma TransmitMakes(n: Link, d: Dgram, f: Fate)
    requires d.dst < |n.eps|
    ensures var r, b := Transmit(n, d, f), |n.born|;
            && b < |r.born| <= b + 2 && r.born[b] == Birth(Peer(d.dst), d.cls, Sent)
            && (|r.born| == b + 2 ==> f.dup && r.born[b + 1] == Birth(Peer(d.dst), d.cls, Duplicated))
            && ((f.dup && !PathOf(n, d.dir).blackhole && !f.dropped && QueueOf(n, d.dir) + 2 <= n.queue) ==>
                  |r.born| == b + 2)
  {
    hide Enter, Bear, Leave;
    var from := Peer(d.dst);
    BearFrame(n, from, d.cls, Sent);
    var n1 := Bear(n, from, d.cls, Sent);
    LeaveFrame(n1, |n.born|, d.cls, LostTo(Black));
    LeaveFrame(n1, |n.born|, d.cls, LostTo(Dropped));
    LeaveFrame(n1, |n.born|, d.cls, LostTo(NoRoom));
    EnterBorn(n1, d.(id := |n.born|), f.due);
    var n2 := Enter(n1, d.(id := |n.born|), f.due);
    BearFrame(n2, from, d.cls, Duplicated);
    EnterBorn(Bear(n2, from, d.cls, Duplicated), d.(id := |n2.born|), f.dupDue);
  }

  /** A write is refused for its size, or makes one copy from its socket, and a duplicate as transmit says. */
  lemma WriteMakes(n: Link, step: Step)
    requires step.WriteStep? && Live(n, step.e) && step.e / 2 < |n.kinds| && Peer(step.e) < |n.eps|
    ensures var r, b, w := Do(n, step), |n.born|, step.w;
            && |r.born| <= b + 2 && (|r.born| == b <==> w.oversize && n.refuse)
            && (|r.born| > b ==> r.born[b].from == step.e && r.born[b].how == Sent)
            && (|r.born| == b + 2 ==> w.fate.dup && r.born[b + 1] == r.born[b].(how := Duplicated))
            && ((w.fate.dup && !w.oversize && w.routed && !PathOf(n, step.e % 2).blackhole && !w.fate.dropped
                 && QueueOf(n, step.e % 2) + 2 <= n.queue) ==> |r.born| == b + 2)
  {
    hide Transmit, Bear, Leave;
    var e, w := step.e, step.w;
    var n1 := if e % 2 == 0 && n.kinds[e / 2] == Unknown then n.(kinds := n.kinds[e / 2 := w.classified]) else n;
    var cls := n1.kinds[e / 2];
    PeerPeer(e);
    BearFrame(n1, e, cls, Sent);
    LeaveFrame(Bear(n1, e, cls, Sent), |n1.born|, cls, LostTo(if w.oversize then TooLong else NoRoute));
    TransmitMakes(n1, Dgram(0, 0, cls, e % 2, Peer(e), 0), w.fate);
  }

  lemma EnterBorn(n: Link, d: Dgram, due: int)
    requires d.dst < |n.eps|
    ensures Enter(n, d, due).born == n.born && |Enter(n, d, due).eps| == |n.eps|
    ensures QueueOf(Enter(n, d, due), d.dir) <= QueueOf(n, d.dir) + 1
  {
    hide PushIn;
  }

  /** Every copy from number b on is held in direction d, or is the one that was lost at once. */
  ghost predicate HeldOrLost(n: Link, r: Link, d: Dir, id: nat) {
    && r.eps == n.eps
    && (Holds(PathOf(r, d).held, id)
        || (|r.log| == |n.log| + 1 && r.log[|n.log|].id == id && r.log[|n.log|].end.LostTo?))
  }

  lemma TransmitHolds(n: Link, d: Dgram, f: Fate, id: nat)
    requires PathOf(n, d.dir).stalled && |n.born| <= id < |Transmit(n, d, f).born|
    ensures HeldOrLost(n, Transmit(n, d, f), d.dir, id)
  {
    hide Enter, Bear, Leave, Holds;
    var from, b := Peer(d.dst), |n.born|;
    BearFrame(n, from, d.cls, Sent);
    var n1 := Bear(n, from, d.cls, Sent);
    LeaveFrame(n1, b, d.cls, LostTo(Black));
    LeaveFrame(n1, b, d.cls, LostTo(Dropped));
    LeaveFrame(n1, b, d.cls, LostTo(NoRoom));
    HeldEnters(n1, d.(id := b), f.due);
    var n2 := Enter(n1, d.(id := b), f.due);
    BearFrame(n2, from, d.cls, Duplicated);
    HeldEnters(Bear(n2, from, d.cls, Duplicated), d.(id := |n2.born|), f.dupDue);
  }

  /** What is written while its direction is stalled is held, if it is not lost at once: it is at no socket, so no
      read finds it before the stall is over. */
  lemma StallHolds(n: Link, step: Step, id: nat)
    requires step.WriteStep? && PathOf(n, step.e % 2).stalled && |n.born| <= id < |Do(n, step).born|
    ensures HeldOrLost(n, Do(n, step), step.e % 2, id)
  {
    hide Transmit, Bear, Leave, Holds;
    var e, w := step.e, step.w;
    if Live(n, e) && e / 2 < |n.kinds| {
      var n1 := if e % 2 == 0 && n.kinds[e / 2] == Unknown then n.(kinds := n.kinds[e / 2 := w.classified]) else n;
      var cls, d := n1.kinds[e / 2], Dgram(0, 0, n1.kinds[e / 2], e % 2, Peer(e), 0);
      BearFrame(n1, e, cls, Sent);
      LeaveFrame(Bear(n1, e, cls, Sent), |n1.born|, cls, LostTo(if w.oversize then TooLong else NoRoute));
      if id < |Transmit(n1, d, w.fate).born| { TransmitHolds(n1, d, w.fate, id); }
    }
  }

  lemma HeldEnters(n: Link, d: Dgram, due: int)
    requires PathOf(n, d.dir).stalled
    ensures var r, p := Enter(n, d, due), PathOf(n, d.dir);
            && r.eps == n.eps && r.log == n.log && r.born == n.born
            && PathOf(r, d.dir) == p.(held := p.held + [d]) && Holds(PathOf(r, d.dir).held, d.id)
            && forall id :: Holds(p.held, id) ==> Holds(PathOf(r, d.dir).held, id)
  {
    var p := PathOf(n, d.dir);
    assert d in p.held + [d];
    forall id | Holds(p.held, id) ensures Holds(p.held + [d], id) {
      var x :| x in p.held && x.id == id;
      assert x in p.held + [d];
    }
  }
}
