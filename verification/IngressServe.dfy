/** The mutex regions of l4/portforward_udp.go and l4/flowtable.go as they are
    written: each changes the serve's fields step by step and is proved to be
    the transition of Ingress of the same name, and to keep its invariant. */
module IngressServe {
  import opened Ingress
  import opened IngressSafety
  import opened IngressSteps
  import opened IngressRuns

  class UdpServe {
    const max: nat
    const bare: nat
    const promoteActive: bool
    var table: map<Addr, nat>
    var all: seq<nat>
    var flows: seq<Flow>
    var stopped: bool
    var cancelled: bool
    var units: int
    var opening: int
    var open: int
    var held: int
    var otherUnits: nat
    var otherOpening: nat
    var counts: Counts
    var received: nat
    var reader: Reader
    var todo: seq<Action>

    ghost function Snap(): State
      reads this
    {
      State(max, bare, promoteActive, table, all, flows, stopped, cancelled, units, opening, open, held,
            otherUnits, otherOpening, counts, received, reader, todo)
    }

    ghost predicate Valid()
      reads this
    {
      Inv(Snap())
    }

    constructor (max: nat, bare: nat, promoteActive: bool)
      ensures Snap() == Init(max, bare, promoteActive) && Valid()
    {
      this.max, this.bare, this.promoteActive := max, bare, promoteActive;
      table, all, flows, stopped, cancelled := map[], [], [], false, false;
      units, opening, open, held, otherUnits, otherOpening := 0, 0, 0, 0, 0, 0;
      counts, received, reader, todo := Counts(0, 0, 0, 0, 0, 0, 0), 0, Idle, [];
      new;
      InitInv(max, bare, promoteActive);
    }

    // ---- the queue of an opening entry ----

    /** push: drops the oldest until the newcomer fits, counting them. */
    method Push(f: nat, d: Dgram) returns (dropped: nat)
      requires f < |flows| && flows[f].qBytes == Bytes(flows[f].q) && |flows[f].q| <= QUEUE_LEN
      modifies this`flows
      ensures flows == old(flows)[f := Ingress.Push(old(flows)[f], d).0]
      ensures dropped == Ingress.Push(old(flows)[f], d).1
    {
      var charge := Charge(d.size);
      if charge > QUEUE_BYTES { return 1; }
      dropped := 0;
      var q, qBytes := flows[f].q, flows[f].qBytes;
      ghost var q0 := q;
      while |q| > 0 && (|q| == QUEUE_LEN || qBytes + charge > QUEUE_BYTES)
        invariant dropped <= |q0| && q == q0[dropped..] && qBytes == Bytes(q)
        invariant forall j :: 0 <= j < dropped ==> !Fits(q0[j..], charge)
        decreases |q|
      {
        var oldest := q[0];
        q := q[1..];
        qBytes := qBytes - Charge(oldest.size);
        dropped := dropped + 1;
      }
      assert dropped == Overflow(q0, charge);
      BytesAppend(q, d);
      flows := flows[f := flows[f].(q := q + [d], qBytes := qBytes + charge)];
    }

    /** takeQueue: the first datagram's copy, then the queue. */
    method TakeQueue(f: nat) returns (out: seq<Dgram>)
      requires f < |flows|
      modifies this`flows
      ensures out == Waiting(old(flows)[f]) && flows == old(flows)[f := Emptied(old(flows)[f])]
    {
      out := [];
      var e := flows[f];
      if e.firstQ.Some? {
        out := out + [e.firstQ.value];
        flows := flows[f := e.(firstQ := None)];
      }
      out := out + flows[f].q;
      flows := flows[f := flows[f].(q := [], qBytes := 0)];
    }

    // ---- the table ----

    method Put(e: Flow) returns (f: nat)
      modifies this`table, this`all, this`flows
      ensures f == |old(flows)| && Snap() == Ingress.Put(old(Snap()), e)
    {
      f := |flows|;
      table := table[e.client := f];
      flows := flows + [e.(idx := |all|)];
      all := all + [f];
    }

    /** del: the swap with the last place, one assignment at a time. */
    method Del(f: nat)
      requires f < |flows|
      requires flows[f].client in table && table[flows[f].client] == f ==>
                 flows[f].idx < |all| && all[|all| - 1] < |flows|
      modifies this`table, this`all, this`flows
      ensures Snap() == Ingress.Del(old(Snap()), f)
    {
      var client, i := flows[f].client, flows[f].idx;
      if client !in table || table[client] != f { return; }
      table := table - {client};
      var last := |all| - 1;
      if i != last {
        all := all[i := all[last]];
        flows := flows[all[i] := flows[all[i]].(idx := i)];
      }
      all := all[..last];
      assert all == old(all)[i := old(all)[last]][..last];
    }

    method LeaveState(f: nat)
      requires f < |flows|
      modifies this`opening, this`open, this`held
      ensures Snap() == Gauges(old(Snap()), flows[f].state, -1)
    {
      match flows[f].state
      case FlowOpening => opening := opening - 1;
      case FlowOpen => open := open - 1;
      case FlowHeld => held := held - 1;
      case FlowGone =>
    }

    method SetState(f: nat, st: FlowState)
      requires f < |flows| && (st == FlowOpen || st == FlowHeld)
      modifies this`opening, this`open, this`held, this`flows
      ensures Snap() == Ingress.SetState(old(Snap()), f, st)
    {
      LeaveState(f);
      flows := flows[f := flows[f].(state := st)];
      match st
      case FlowOpen => open := open + 1;
      case FlowHeld => held := held + 1;
      case _ =>
    }

    method Remove(f: nat)
      requires f < |flows|
      requires !flows[f].gone && flows[f].client in table && table[flows[f].client] == f ==>
                 flows[f].idx < |all| && all[|all| - 1] < |flows|
      modifies this`opening, this`open, this`held, this`flows, this`table, this`all
      ensures Snap() == Ingress.Remove(old(Snap()), f)
    {
      if flows[f].gone { return; }
      LeaveState(f);
      flows := flows[f := flows[f].(state := FlowGone, gone := true)];
      Del(f);
    }

    /** victim: one pass over the sample, ended by the first held entry. */
    method Victim(sample: seq<nat>, now: int) returns (v: Option<nat>)
      requires forall i :: 0 <= i < |sample| ==> sample[i] < |flows|
      ensures VictimOk(Snap(), sample, now, v)
    {
      v := None;
      ghost var at := 0;
      var cutoff := now - EVICT_IDLE;
      var i := 0;
      while i < |sample|
        invariant 0 <= i <= |sample|
        invariant forall j :: 0 <= j < i ==> !IsHeld(Snap(), sample[j])
        invariant v.None? ==> forall j :: 0 <= j < i ==> !Evictable(Snap(), sample[j], now)
        invariant v.Some? ==> 0 <= at < i && v.value == sample[at] && Evictable(Snap(), sample[at], now)
        invariant v.Some? ==> forall j :: 0 <= j < i && Evictable(Snap(), sample[j], now) ==>
                                            Active(flows[sample[at]]) <= Active(flows[sample[j]])
        invariant v.Some? ==> forall j :: 0 <= j < at && Evictable(Snap(), sample[j], now) ==>
                                            Active(flows[sample[at]]) < Active(flows[sample[j]])
      {
        var e := flows[sample[i]];
        if e.state == FlowHeld {
          assert IsHeld(Snap(), sample[i]);
          return Some(sample[i]);
        } else if promoteActive && e.state == FlowOpen && !e.stream {
          var a := if e.last >= e.openedAt then e.last else e.openedAt;
          if a <= cutoff && (v.None? || a < Active(flows[v.value])) {
            v := Some(sample[i]);
            at := i;
          }
        }
        i := i + 1;
      }
    }

    // ---- the regions ----

    method NewEntry(d: Dgram, now: int) returns (e: Flow)
      ensures e == NewFlow(Snap(), d, now)
    {
      e := Flow(d.src, now, now, 0, false, None, 0, FlowOpening, false, false, false, false, None, [], 0,
                0, Dialing, 0, 0, [], false, [], []);
      if d.size > 0 && bare + d.size <= FIRST_BUDGET {
        e := e.(first := Some(d));
      } else {
        e := e.(firstQ := Some(d.(at := now)));
      }
    }

    /** admit, up to the unlock; the rest is left in todo. */
    method Admit(d: Dgram, now: int, sample: seq<nat>) returns (ghost v: Option<nat>)
      requires Valid() && reader.Entering? && reader.d == d && d.src !in table && SampleOk(Snap(), sample)
      modifies this
      ensures VictimOk(old(Snap()), sample, now, v) && (v.Some? ==> v.value < |old(flows)|)
      ensures Snap() == Ingress.Admit(old(Snap()), d, now, v) && Valid()
    {
      hide Inv, VictimOk, SampleOk, Evict, Place;
      ghost var s := Snap();
      SampleIn(s, sample);
      var victim := Victim(sample, now);
      v := victim;
      if v.Some? {
        VictimSafe(s, sample, now, v);
        TableOf(s, v.value);
      }
      AdmitInv(s, now, sample, v);
      var full := units >= max;
      if !full { units := units + 1; }
      if full && victim.None? {
        reader, todo := Idle, [Count(DropFull, 1)];
        return;
      }
      if opening >= OPENING_MAX {
        reader, todo := Idle, (if full then [] else [Release]) + [Count(DropOpening, 1)];
        return;
      }
      if full { EvictVictim(victim.value); }
      PlaceEntry(d, now, if full then [CloseDone(victim.value)] else []);
    }

    method EvictVictim(v: nat)
      requires v < |flows|
      requires !flows[v].gone && flows[v].client in table && table[flows[v].client] == v ==>
                 flows[v].idx < |all| && all[|all| - 1] < |flows|
      modifies this`opening, this`open, this`held, this`flows, this`table, this`all
      ensures Snap() == Evict(old(Snap()), v)
    {
      flows := flows[v := flows[v].(evicted := flows[v].state == FlowOpen)];
      Remove(v);
    }

    method PlaceEntry(d: Dgram, now: int, actions: seq<Action>)
      modifies this
      ensures Snap() == Place(old(Snap()), d, now, actions)
    {
      opening := opening + 1;
      var e := NewEntry(d, now);
      var _ := Put(e);
      reader, todo := Idle, actions;
    }

    /** datagram's region for a client that has an entry. */
    method Known(now: int)
      requires Valid() && reader.Entering? && reader.d.src in table
      modifies this
      ensures old(table)[old(reader).d.src] < |old(flows)|
      ensures Snap() == Ingress.Known(old(Snap()), old(table)[old(reader).d.src], old(reader).d, now, old(reader).again)
    {
      hide Inv, Ingress.Push;
      ghost var s := Snap();
      var f, d := table[reader.d.src], reader.d;
      ReaderOf(s);
      QueueOf(s, f);
      match flows[f].state
      case FlowOpening =>
        PushKnown(now);
      case FlowHeld =>
        flows := flows[f := flows[f].(last := now)];
        reader, todo := Idle, [Count(DropHeld, 1)];
      case _ =>
        reader := Writing(f, d, reader.again);
    }

    method PushKnown(now: int)
      requires reader.Entering? && reader.d.src in table && table[reader.d.src] < |flows|
      requires var e := flows[table[reader.d.src]];
               e.state == FlowOpening && e.qBytes == Bytes(e.q) && |e.q| <= QUEUE_LEN
      modifies this
      ensures Snap() == Ingress.Known(old(Snap()), old(table)[old(reader).d.src], old(reader).d, now, old(reader).again)
    {
      hide Ingress.Push;
      var f := table[reader.d.src];
      flows := flows[f := flows[f].(last := now)];
      ghost var e := flows[f];
      var dropped := Push(f, reader.d.(at := now));
      assert flows == old(flows)[f := Ingress.Push(e, reader.d.(at := now)).0];
      reader := Idle;
      if dropped > 0 { todo := [Count(DropOpenQueue, dropped)]; } else { todo := []; }
    }

    /** Entry f becomes e and then held. */
    method HoldEntry(f: nat, e: Flow)
      requires f < |flows|
      modifies this`opening, this`open, this`held, this`flows
      ensures Snap() == Ingress.SetState(SetFlow(old(Snap()), f, e), f, FlowHeld)
    {
      hide Ingress.SetState;
      flows := flows[f := e];
      SetState(f, FlowHeld);
    }

    /** Entry f becomes e and then leaves the table. */
    method LeaveEntry(f: nat, e: Flow)
      requires f < |flows|
      requires !e.gone && e.client in table && table[e.client] == f ==>
                 e.idx < |all| && all[|all| - 1] < |flows|
      modifies this`opening, this`open, this`held, this`flows, this`table, this`all
      ensures Snap() == Ingress.Remove(SetFlow(old(Snap()), f, e), f)
    {
      hide Ingress.Remove;
      flows := flows[f := e];
      Remove(f);
    }

    /** replace's region. */
    method Replace(now: int)
      requires Valid() && reader.Replacing?
      modifies this
      ensures old(reader).f < |old(flows)|
      ensures Snap() == Ingress.Replace(old(Snap()), old(reader).f, old(reader).d, old(reader).err, now,
                                        old(reader).again)
    {
      hide Inv, Ingress.Remove, Ingress.SetState, Place;
      ghost var s := Snap();
      ReaderOf(s);
      var f, d := reader.f, reader.d;
      TableOf(s, f);
      var e := flows[f];
      if e.client !in table || table[e.client] != f {
        reader := Entering(d, true);
      } else if e.state == FlowHeld {
        reader, todo := Idle, [Count(DropHeld, 1)];
      } else if reader.err == ErrClosed && now - e.openedAt < REOPEN_HOLD {
        HoldReplaced(f);
      } else if opening >= OPENING_MAX {
        Remove(f);
        reader, todo := Idle, [Release, Count(DropOpening, 1)];
      } else {
        Remove(f);
        PlaceEntry(d, now, []);
      }
    }

    /** The far end closed the young flow f: its client is held. */
    method HoldReplaced(f: nat)
      requires f < |flows|
      modifies this
      ensures Snap() == var s1 := Ingress.SetState(old(Snap()), f, FlowHeld);
                        SetFlow(s1, f, s1.flows[f].(peerEnd := true)).(reader := Idle, todo := [Count(DropHeld, 1)])
    {
      hide Ingress.SetState;
      SetState(f, FlowHeld);
      flows := flows[f := flows[f].(peerEnd := true)];
      reader, todo := Idle, [Count(DropHeld, 1)];
    }

    /** The flush's region: give up at the stop, open when nothing waits, else take the queue. */
    method FlushLock(f: nat)
      requires Valid() && f < |flows| && flows[f].pc.Flushing? && flows[f].batch == [] && flows[f].todo == []
      modifies this
      ensures Snap() == FlushTake(old(Snap()), f)
    {
      hide Inv, Ingress.SetState;
      ghost var s := Snap();
      if stopped {
        var q := TakeQueue(f);
        flows := flows[f := flows[f].(pc := Ending(ErrClosed), todo := [Count(DropOpenQueue, |q|)])];
        ghost var e := Emptied(s.flows[f]).(pc := Ending(ErrClosed), todo := [Count(DropOpenQueue, |q|)]);
        assert flows == s.flows[f := e];
        return;
      }
      var q := TakeQueue(f);
      if |q| == 0 {
        NothingWaits(s, f);
        OpenEntry(f);
      } else {
        flows := flows[f := flows[f].(batch := q)];
        assert flows == s.flows[f := Emptied(s.flows[f]).(batch := q)];
      }
    }

    method OpenEntry(f: nat)
      requires f < |flows|
      modifies this`opening, this`open, this`held, this`flows
      ensures Snap() == var s1 := Ingress.SetState(old(Snap()), f, FlowOpen);
                        SetFlow(s1, f, s1.flows[f].(session := true, openedAt := old(flows)[f].dialedAt, pc := Pumping))
    {
      hide Ingress.SetState;
      var at := flows[f].dialedAt;
      SetState(f, FlowOpen);
      flows := flows[f := flows[f].(session := true, openedAt := at, pc := Pumping)];
    }

    /** The queue of entry f is taken away. */
    method TakeEntry(f: nat) returns (out: seq<Dgram>)
      requires f < |flows|
      modifies this`flows
      ensures out == Waiting(old(flows)[f]) && Snap() == SetFlow(old(Snap()), f, Emptied(old(flows)[f]))
    {
      hide Ingress.Waiting, Ingress.Emptied;
      out := TakeQueue(f);
    }

    /** openFailed's region. */
    method OpenFailedLock(f: nat)
      requires Valid() && f < |flows| && flows[f].pc.DialFailed? && flows[f].todo == []
      modifies this
      ensures Snap() == OpenFailed(old(Snap()), f, old(flows)[f].pc.stopping)
    {
      hide Inv, Ingress.SetState, Ingress.Remove, Ingress.Waiting, Ingress.Emptied, Ingress.SetFlow;
      ghost var s := Snap();
      EmptiedKeeps(flows[f]);
      var stopping, started := flows[f].pc.stopping, flows[f].first.Some?;
      if !flows[f].gone { RowOf(s, f); }
      SetFlowAt(s, f, Emptied(flows[f]));
      var q := TakeEntry(f);
      var n := |q|;
      if started { n := n + 1; }
      var e := flows[f].(first := None, pc := if stopping then Exited else Holding);
      if stopping || stopped {
        ReSet(s, Emptied(s.flows[f]), e.(todo := [Release, Count(DropOpenQueue, n)]), f);
        LeaveEntry(f, e.(todo := [Release, Count(DropOpenQueue, n)]));
      } else {
        ReSet(s, Emptied(s.flows[f]), e.(todo := [Count(DropHeld, n)]), f);
        HoldEntry(f, e.(todo := [Count(DropHeld, n)]));
      }
    }

    /** end's region. */
    method EndLock(f: nat, now: int)
      requires Valid() && f < |flows| && flows[f].pc.Ending? && flows[f].todo == []
      modifies this
      ensures Snap() == End(old(Snap()), f, old(flows)[f].pc.err, now)
    {
      hide Inv, Ingress.SetState, Ingress.Remove;
      var e, err := flows[f], flows[f].pc.err;
      if !flows[f].gone { RowOf(Snap(), f); }
      if e.peerEnd { err := EOF; }
      if e.gone {
        flows := flows[f := e.(pc := Exited)];
      } else if e.state == FlowHeld {
        flows := flows[f := e.(pc := Holding)];
      } else if !stopped && err == EOF && now - e.openedAt < REOPEN_HOLD {
        HoldEntry(f, e.(pc := Holding));
      } else {
        LeaveEntry(f, e.(pc := Exited));
        units := units - 1;
      }
    }

    /** hold's region. */
    method HoldLock(f: nat)
      requires Valid() && f < |flows| && flows[f].pc.Holding? && flows[f].todo == []
      modifies this
      ensures Snap() == HoldEnd(old(Snap()), f)
    {
      hide Inv, Ingress.Remove;
      TableOf(Snap(), f);
      var gone := flows[f].gone;
      LeaveEntry(f, flows[f].(pc := Exited, todo := if gone then [] else [Release]));
    }
  }

  lemma SampleIn(s: State, sample: seq<nat>)
    requires Inv(s) && SampleOk(s, sample)
    ensures forall i :: 0 <= i < |sample| ==> sample[i] < |s.flows|
  {
    hide FlowsInv, ReaderInv, DoneInv, Totals, Sum;
  }

  lemma QueueOf(s: State, f: nat)
    requires Inv(s) && f < |s.flows|
    ensures s.flows[f].qBytes == Bytes(s.flows[f].q) && |s.flows[f].q| <= QUEUE_LEN
  {
    hide TableInv, ReaderInv, DoneInv, Totals;
  }

  lemma NothingWaits(s: State, f: nat)
    requires Inv(s) && f < |s.flows| && Waiting(s.flows[f]) == []
    ensures Emptied(s.flows[f]) == s.flows[f] && s.flows[f := s.flows[f]] == s.flows
  {
    QueueOf(s, f);
  }

  lemma EmptiedKeeps(e: Flow)
    ensures Emptied(e).gone == e.gone && Emptied(e).client == e.client && Emptied(e).idx == e.idx
            && Emptied(e).first == e.first
            && Emptied(e).pc == e.pc
  {
  }

  lemma SetFlowAt(s: State, f: nat, e: Flow)
    requires f < |s.flows|
    ensures var r := SetFlow(s, f, e);
            |r.flows| == |s.flows| && r.flows[f] == e && r.table == s.table && r.all == s.all && r.stopped == s.stopped
  {
  }

  lemma ReSet(s: State, e: Flow, e1: Flow, f: nat)
    requires f < |s.flows|
    ensures SetFlow(SetFlow(s, f, e), f, e1) == SetFlow(s, f, e1)
  {
    assert s.flows[f := e][f := e1] == s.flows[f := e1];
  }
}
