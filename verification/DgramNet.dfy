/** rendrtest/dpump.go, the fake network as the source keeps it: fields that its
    methods change in place, each method proved to be its operation of DgramLink. */
module DgramNet {
  import opened DgramHeap
  import opened DgramLink

  class Network {
    const queue: nat
    var refuse: bool
    var eps: seq<Ep>
    var kinds: seq<Kind>
    var up: Path
    var down: Path
    var q0: int
    var q1: int
    var all: Counts
    var session: Counts
    var probe: Counts
    var tick: nat
    ghost var born: seq<Birth>
    ghost var log: seq<Event>

    ghost function Value(): Link
      reads this
    {
      Link(queue, refuse, eps, kinds, up, down, q0, q1, all, session, probe, tick, born, log)
    }

    /** How many copies were made: the number of the next one. */
    function Made(): nat
      reads this
    {
      all.sent + all.duplicated + all.injected
    }

    /** The history numbers the copies as the counters do. */
    ghost predicate Numbered()
      reads this
    {
      |born| == Made()
    }

    constructor (queue: nat)
      ensures Fresh(Value()) && this.queue == queue && Numbered()
    {
      this.queue := queue;
      refuse, eps, kinds, q0, q1, tick := true, [], [], 0, 0, 0;
      up, down := Path(false, false, 0, []), Path(false, false, 0, []);
      all, session, probe := ZeroCounts(0), ZeroCounts(0), ZeroCounts(0);
      born, log := [], [];
    }

    method Tally(cls: Kind, w: Ctr)
      modifies this`all, this`session, this`probe
      ensures Value() == Count(old(Value()), cls, w)
    {
      all := Add(all, w);
      if cls == Session { session := Add(session, w); }
      if cls == Probe { probe := Add(probe, w); }
    }

    /** A new copy is counted in. */
    method CountIn(ghost from: nat, cls: Kind, how: Ctr)
      modifies this`all, this`session, this`probe, this`born
      ensures Value() == Bear(old(Value()), from, cls, how)
      ensures how in {Sent, Duplicated, Injected} && old(Numbered()) ==> Numbered()
    {
      Tally(cls, how);
      born := born + [Birth(from, cls, how)];
    }

    /** A copy is counted out. */
    method CountLost(ghost id: nat, cls: Kind, ghost why: Why)
      modifies this`all, this`session, this`probe, this`log
      ensures Value() == Leave(old(Value()), id, cls, LostTo(why)) && Made() == old(Made())
    {
      Tally(cls, Lost);
      log := log + [Event(id, cls, LostTo(why))];
    }

    method LoseOne(d: Dgram, ghost why: Why)
      modifies this`all, this`session, this`probe, this`q0, this`q1, this`log
      ensures Value() == Lose(old(Value()), d, why) && Made() == old(Made())
    {
      CountLost(d.id, d.cls, why);
      if d.dir == 0 { q0 := q0 - 1; } else { q1 := q1 - 1; }
    }

    method LoseEach(s: seq<Dgram>, ghost why: Why)
      modifies this`all, this`session, this`probe, this`q0, this`q1, this`log
      ensures Value() == LoseAll(old(Value()), s, why)
    {
      hide Lose;
      var i := 0;
      while i < |s|
        invariant i <= |s| && LoseAll(Value(), s[i..], why) == LoseAll(old(Value()), s, why)
      {
        assert s[i..][1..] == s[i + 1..];
        LoseOne(s[i], why);
        i := i + 1;
      }
    }

    method LaunchOne(d: Dgram, due: int)
      requires d.dst < |eps|
      modifies this`all, this`session, this`probe, this`q0, this`q1, this`tick, this`eps, this`log
      ensures Value() == Launch(old(Value()), d, due) && |eps| == |old(eps)| && Made() == old(Made())
    {
      hide PushIn, Lose;
      var dst := eps[d.dst];
      if dst.ended {
        LoseOne(d, DeadEnd);
        LoseShape(old(Value()), d);
        return;
      }
      tick := tick + 1;
      eps := eps[d.dst := dst.(inFlight := PushIn(dst.inFlight, d.(due := due, seqno := tick)))];
    }

    /** The place in the queue, then the stall's hold or the launch. */
    method EnterOne(d: Dgram, due: int)
      requires d.dst < |eps|
      modifies this
      ensures Value() == Enter(old(Value()), d, due) && |eps| == |old(eps)|
      ensures Made() == old(Made()) && born == old(born)
    {
      hide Launch;
      if d.dir == 0 { q0 := q0 + 1; } else { q1 := q1 + 1; }
      if (if d.dir == 0 then up else down).stalled {
        if d.dir == 0 { up := up.(held := up.held + [d]); } else { down := down.(held := down.held + [d]); }
      } else {
        LaunchOne(d, due);
      }
    }

    method SendDgram(d: Dgram, f: Fate)
      requires d.dst < |eps| && Numbered()
      modifies this
      ensures Value() == Transmit(old(Value()), d, f) && Numbered()
    {
      hide Enter, Bear, Leave;
      ghost var from := Peer(d.dst);
      ghost var n1 := Bear(Value(), from, d.cls, Sent);
      Borne(Value(), from, d.cls, Sent);
      CountIn(from, d.cls, Sent);
      if (if d.dir == 0 then up else down).blackhole || f.dropped {
        CountLost(|n1.born| - 1, d.cls, if (if d.dir == 0 then up else down).blackhole then Black else Dropped);
        return;
      }
      ghost var first := d.(id := |n1.born| - 1);
      var i := 0;
      while i < 2
        invariant 0 <= i <= 2 && d.dst < |eps| && Numbered()
        invariant i == 0 ==> Value() == n1
        invariant i == 1 ==> QueueOf(n1, d.dir) < queue && Value() == Enter(n1, first, f.due)
        invariant i == 2 ==> Value() == Transmit(old(Value()), d, f)
      {
        if i == 1 && !f.dup { return; }
        if (if d.dir == 0 then q0 else q1) >= queue {
          if i == 0 { CountLost(|n1.born| - 1, d.cls, NoRoom); }
          return;
        }
        if i == 1 {
          Borne(Value(), from, d.cls, Duplicated);
          CountIn(from, d.cls, Duplicated);
        }
        EnterOne(d.(id := Made() - 1), if i == 0 then f.due else f.dupDue);
        i := i + 1;
      }
    }

    /** What is held for socket e, and the rest, each in order. */
    static method Parted(held: seq<Dgram>, e: nat) returns (kept: seq<Dgram>, gone: seq<Dgram>)
      ensures kept == Addressed(held, e, false) && gone == Addressed(held, e, true)
    {
      kept, gone := [], [];
      var i := 0;
      assert held[0..] == held;
      while i < |held|
        invariant i <= |held|
        invariant kept + Addressed(held[i..], e, false) == Addressed(held, e, false)
        invariant gone + Addressed(held[i..], e, true) == Addressed(held, e, true)
      {
        assert held[i..][1..] == held[i + 1..];
        if held[i].dst != e {
          Regroup(kept, held[i], Addressed(held[i + 1..], e, false));
          assert [] + Addressed(held[i + 1..], e, true) == Addressed(held[i + 1..], e, true);
          kept := kept + [held[i]];
        } else {
          Regroup(gone, held[i], Addressed(held[i + 1..], e, true));
          assert [] + Addressed(held[i + 1..], e, false) == Addressed(held[i + 1..], e, false);
          gone := gone + [held[i]];
        }
        i := i + 1;
      }
      assert kept + [] == kept && gone + [] == gone;
    }

    /** purgeHeld, one direction. */
    method PurgeDir(dir: Dir, e: nat)
      modifies this
      ensures Value() == PurgeHeld(old(Value()), dir, e)
    {
      hide LoseAll, Addressed;
      var kept, gone := Parted(if dir == 0 then up.held else down.held, e);
      LoseAllKeeps(Value(), gone, Cut);
      LoseEach(gone, Cut);
      if dir == 0 { up := up.(held := kept); } else { down := down.(held := kept); }
    }

    method ShutEnd(e: nat) returns (first: bool)
      requires e < |eps|
      modifies this
      ensures Value() == Shut(old(Value()), e) && first == !old(eps)[e].ended
    {
      hide LoseAll, PurgeHeld;
      first := !eps[e].ended;
      if !first { return; }
      var ep := eps[e];
      eps := eps[e := ep.(ended := true)];
      LoseAllKeeps(Value(), ep.inFlight, Cut);
      LoseEach(ep.inFlight, Cut);
      LoseAllKeeps(Value(), ep.ready, Cut);
      LoseEach(ep.ready, Cut);
      eps := eps[e := ep.(ended := true, inFlight := [], ready := [])];
      assert eps == old(eps)[e := ep.(ended := true, inFlight := [], ready := [])];
      PurgeDir(0, e);
      PurgeDir(1, e);
    }

    method PromoteEnd(e: nat, now: int)
      requires e < |eps|
      modifies this`eps
      ensures Value() == Promoted(old(Value()), e, now) && |eps| == |old(eps)|
    {
      hide Promote;
      var ep := eps[e];
      var p := if ep.rx == 0 then up else down;
      var (rest, moved) := Promote(ep.inFlight, now, p.stalled, p.stallAt);
      eps := eps[e := ep.(inFlight := rest, ready := ep.ready + moved)];
    }

    method BlackholeDir(d: Dir, on: bool, now: int)
      modifies this
      ensures Value() == SetBlackhole(old(Value()), d, on, now)
    {
      hide LoseAll, DrainOne, Promoted;
      if d == 0 { up := up.(blackhole := on); } else { down := down.(blackhole := on); }
      if !on { return; }
      ghost var n1 := Value();
      var e := 0;
      while e < |eps|
        invariant e <= |eps| && DrainFrom(Value(), d, e, now) == DrainFrom(n1, d, 0, now)
        decreases |eps| - e
      {
        DrainOneEps(Value(), d, e, now);
        DrainEnd(d, e, now);
        e := e + 1;
      }
      var held := if d == 0 then up.held else down.held;
      LoseAllKeeps(Value(), held, Swept);
      LoseEach(held, Swept);
      if d == 0 { up := up.(held := []); } else { down := down.(held := []); }
    }

    method DrainEnd(d: Dir, e: nat, now: int)
      requires e < |eps|
      modifies this
      ensures Value() == DrainOne(old(Value()), d, e, now) && |eps| == |old(eps)|
    {
      hide LoseAll, Promoted;
      if eps[e].rx == d {
        PromoteEnd(e, now);
        LoseAllKeeps(Value(), eps[e].inFlight, Swept);
        LoseEach(eps[e].inFlight, Swept);
        eps := eps[e := eps[e].(inFlight := [])];
      }
    }

    method StallDir(d: Dir, on: bool, now: int, dues: seq<int>)
      requires forall x :: x in (if d == 0 then up.held else down.held) ==> x.dst < |eps|
      modifies this
      ensures Value() == SetStall(old(Value()), d, on, now, dues)
    {
      hide Launch;
      var p := if d == 0 then up else down;
      if on {
        if !p.stalled {
          if d == 0 { up := p.(stalled := true, stallAt := now); } else { down := p.(stalled := true, stallAt := now); }
        }
        return;
      }
      if !p.stalled { return; }
      if d == 0 { up := p.(stalled := false, held := []); } else { down := p.(stalled := false, held := []); }
      ghost var n1 := Value();
      var i, left := 0, dues;
      while i < |p.held|
        invariant i <= |p.held| && |eps| == |old(eps)|
        invariant LaunchAll(Value(), p.held[i..], left) == LaunchAll(n1, p.held, dues)
      {
        assert p.held[i..][1..] == p.held[i + 1..];
        assert p.held[i] in p.held;
        LaunchOne(p.held[i], if left == [] then 0 else left[0]);
        left := if left == [] then [] else left[1..];
        i := i + 1;
      }
    }
  }

  lemma LoseShape(n: Link, d: Dgram)
    ensures Lose(n, d, DeadEnd).eps == n.eps
  {
  }

  lemma Borne(n: Link, from: nat, cls: Kind, how: Ctr)
    ensures var r := Bear(n, from, cls, how);
            && r.queue == n.queue && r.eps == n.eps && r.up == n.up && r.down == n.down && r.q0 == n.q0 && r.q1 == n.q1
            && |r.born| == |n.born| + 1
  {
  }
}
