/** Every step of the UDP ingress keeps the invariant of IngressSafety. */
module IngressSteps {
  import opened Ingress
  import opened IngressSafety

  // ---- the order of one flow's datagrams ----

  function Shift(i: int, a: int, b: int): int { if i < a then i else i + b }

  lemma DropMiddle(a: seq<nat>, b: seq<nat>, c: seq<nat>)
    requires Increasing(a + b + c)
    ensures Increasing(a + c)
    ensures forall n :: AllBelow(a + b + c, n) ==> AllBelow(a + c, n)
  {
    var s, t := a + b + c, a + c;
    forall i | 0 <= i < |t| ensures t[i] == s[Shift(i, |a|, |b|)] { }
    forall i, j | 0 <= i < j < |t| ensures t[i] < t[j] {
      assert s[Shift(i, |a|, |b|)] < s[Shift(j, |a|, |b|)];
    }
    forall n | AllBelow(s, n) ensures AllBelow(t, n) {
      forall i | 0 <= i < |t| ensures t[i] < n { assert s[Shift(i, |a|, |b|)] < n; }
    }
  }

  lemma Extend(a: seq<nat>, x: nat)
    requires Increasing(a) && AllBelow(a, x)
    ensures Increasing(a + [x]) && AllBelow(a + [x], x + 1)
  {
  }

  lemma PushChain(e: Flow, k: nat, d: Dgram)
    requires k <= |e.q| && Increasing(Chain(e)) && AllBelow(Chain(e), d.id)
    ensures Increasing(Chain(e.(q := e.q[k..] + [d]))) && AllBelow(Chain(e.(q := e.q[k..] + [d])), d.id + 1)
  {
    var a := Ids(e.calls) + Ids(e.batch) + Ids(OptSeq(e.first)) + Ids(OptSeq(e.firstQ));
    assert Chain(e) == a + Ids(e.q[..k]) + Ids(e.q[k..]);
    DropMiddle(a, Ids(e.q[..k]), Ids(e.q[k..]));
    Extend(a + Ids(e.q[k..]), d.id);
    assert Chain(e.(q := e.q[k..] + [d])) == a + Ids(e.q[k..]) + [d.id];
  }

  lemma {:induction false} BytesAppend(q: seq<Dgram>, d: Dgram)
    ensures Bytes(q + [d]) == Bytes(q) + Charge(d.size)
  {
    if q == [] {
      assert q + [d] == [d];
    } else {
      assert (q + [d])[1..] == q[1..] + [d];
      BytesAppend(q[1..], d);
    }
  }

  /** push keeps the queue's bounds, loses only what it reports and keeps the order. */
  lemma PushKeeps(e: Flow, d: Dgram)
    requires FlowInv(e) && Early(e.pc) && AllBelow(Chain(e), d.id) && d.src == e.client
    ensures var (e1, dropped) := Push(e, d);
            && FlowInv(e1) && AllBelow(Chain(e1), d.id + 1)
            && |e1.q| + dropped == |e.q| + 1 && e1 == e.(q := e1.q, qBytes := e1.qBytes)
  {
    var c := Charge(d.size);
    if c <= QUEUE_BYTES {
      var k := Overflow(e.q, c);
      BytesAppend(e.q[k..], d);
      PushChain(e, k, d);
      assert Chain(e.(q := e.q[k..] + [d], qBytes := Bytes(e.q[k..] + [d]))) == Chain(e.(q := e.q[k..] + [d]));
    }
  }

  lemma TakeChain(e: Flow)
    requires e.batch == [] && e.first.None?
    ensures Chain(Emptied(e).(batch := Waiting(e))) == Chain(e)
    ensures Chain(Emptied(e)) == Ids(e.calls) && Chain(e) == Ids(e.calls) + Ids(Waiting(e))
  {
  }

  lemma FlushChain(e: Flow, called: bool)
    requires e.batch != [] && e.first.None? && e.firstQ.None? && Increasing(Chain(e))
    ensures var e1 := e.(batch := e.batch[1..], calls := if called then e.calls + [e.batch[0]] else e.calls);
            Increasing(Chain(e1)) && forall n :: AllBelow(Chain(e), n) ==> AllBelow(Chain(e1), n)
  {
    var e1 := e.(batch := e.batch[1..], calls := if called then e.calls + [e.batch[0]] else e.calls);
    var x, c := [e.batch[0].id], Ids(e.batch[1..]) + Ids(Waiting(e));
    assert Ids(e.batch) == x + Ids(e.batch[1..]);
    assert Chain(e) == Ids(e.calls) + x + c;
    assert Ids(e.calls + [e.batch[0]]) == Ids(e.calls) + x;
    assert Chain(e1) == if called then Ids(e.calls) + x + c else Ids(e.calls) + c;
    DropMiddle(Ids(e.calls), x, c);
  }

  // ---- the goroutine's steps ----

  /** e may become e1 in place: same table row and state, same datagrams owed. */
  ghost predicate LocalOk(e: Flow, e1: Flow) {
    && FlowInv(e1) && NoNewer(e, e1) && One(e1) == One(e)
    && e1.gone == e.gone && e1.idx == e.idx && e1.client == e.client && e1.doneCloses == e.doneCloses
    && e1.state == e.state && (Early(e1.pc) ==> Early(e.pc))
  }

  lemma LocalStep(s: State, f: nat, e: Flow, r: State)
    requires Inv(s) && f < |s.flows| && LocalOk(s.flows[f], e) && r == SetFlow(s, f, e).(cancelled := r.cancelled)
    requires e.state == FlowOpening ==> Early(e.pc) || s.stopped
    ensures Inv(r)
  {
    assert Balanced(s, One(s.flows[f]), One(e), r) by {
      hide FlowInv, NoNewer, TableInv, FlowsInv, ReaderInv, DoneInv, One;
    }
    hide FlowInv, NoNewer, Inv, One, Balanced;
    ChangeStep(s, f, e, r);
  }

  lemma FlowOf(s: State, f: nat)
    requires Inv(s) && f < |s.flows|
    ensures FlowInv(s.flows[f]) && AllBelow(Chain(s.flows[f]), s.received)
  {
    hide TableInv, ReaderInv, DoneInv, Totals;
  }

  lemma DialLocal(e: Flow, rode: bool, mp: nat, now: int)
    requires FlowInv(e) && e.pc.Dialing? && e.todo == []
    ensures LocalOk(e, DialOk(e, rode, mp, now))
  {
    hide LocalOk, FlowInv;
    var e1 := DialOk(e, rode, mp, now);
    if e.first.Some? && rode { RodeLocal(e, e1); } else { UnriddenLocal(e, e1); }
  }

  /** The first datagram waits on, or there is none. */
  lemma UnriddenLocal(e: Flow, e1: Flow)
    requires FlowInv(e) && e.pc.Dialing? && e.todo == []
    requires e1 == e.(maxPayload := e1.maxPayload, dialedAt := e1.dialedAt, pc := e1.pc)
    requires e1.pc == if e.first.None? then Flushing else MoveFirst
    ensures LocalOk(e, e1)
  {
    hide Increasing, AllBelow, Owned;
    assert Chain(e1) == Chain(e);
    assert Owned(e) ==> Owned(e1) by { SameOwned(e, e1); }
  }

  lemma SameOwned(e: Flow, e1: Flow)
    requires e1 == e.(maxPayload := e1.maxPayload, dialedAt := e1.dialedAt, pc := e1.pc)
    ensures Owned(e) ==> Owned(e1)
  {
  }

  /** The first datagram rode the OPEN. */
  lemma RodeLocal(e: Flow, e1: Flow)
    requires FlowInv(e) && e.pc.Dialing? && e.todo == [] && e.first.Some?
    requires e1 == e.(maxPayload := e1.maxPayload, dialedAt := e1.dialedAt, pc := Flushing, first := None,
                      todo := [Count(ToSession, 1)], calls := e.calls + [e.first.value])
    ensures LocalOk(e, e1)
  {
    hide Increasing, AllBelow;
    assert Chain(e1) == Chain(e);
    OneCount(ToSession, 1);
  }

  lemma DialFailedLocal(e: Flow, stopping: bool)
    requires FlowInv(e) && e.pc.Dialing?
    ensures LocalOk(e, e.(pc := DialFailed(stopping)))
  {
    assert Chain(e.(pc := DialFailed(stopping))) == Chain(e);
  }

  lemma MoveFirstLocal(e: Flow)
    requires FlowInv(e) && e.pc.MoveFirst? && e.first.Some?
    ensures LocalOk(e, MovedFirst(e))
  {
    assert Chain(MovedFirst(e)) == Chain(e);
    assert OptSeq(e.first)[0].src == e.client;
  }

  /** One flushed datagram is counted once, and given to the session only in its turn. */
  lemma FlushOneLocal(e: Flow, now: int, w: Write)
    requires FlowInv(e) && e.pc.Flushing? && e.batch != [] && e.todo == []
    ensures LocalOk(e, FlushOne(e, now, w))
  {
    hide Increasing, AllBelow, FlushFate;
    var x := FlushFate(e, e.batch[0], now, w);
    FlushChain(e, x.called);
    var e1 := FlushOne(e, now, w);
    assert Chain(e1) == Chain(e.(batch := e1.batch, calls := e1.calls));
    OneCount(x.k, 1);
  }

  lemma OneCount(k: Counter, n: nat)
    ensures PendingCounts([Count(k, n)]) == n && PendingReleases([Count(k, n)]) == 0
  {
    assert [Count(k, n)][1..] == [];
  }

  lemma {:induction false} EmptyTodo(e: Flow)
    requires e.todo == []
    ensures One(e).dgrams == |OptSeq(e.first)| + |Waiting(e)| + |e.batch| && One(e).releases == 0
  {
  }

  /** The flush's region hands the queue over, or opens the entry, or gives it to the stop. */
  lemma FlushTakeInv(s: State, f: nat)
    requires Inv(s) && f < |s.flows| && s.flows[f].pc.Flushing? && s.flows[f].batch == [] && s.flows[f].todo == []
    ensures Inv(FlushTake(s, f))
  {
    hide Inv, FlowInv, LocalOk;
    FlowOf(s, f);
    if s.stopped || Waiting(s.flows[f]) != [] {
      TakeLocal(s.flows[f]);
      TakeStopped(s.flows[f]);
      LocalStep(s, f, FlushTake(s, f).flows[f], FlushTake(s, f));
    } else {
      OpenStep(s, f);
    }
  }

  lemma TakeLocal(e: Flow)
    requires FlowInv(e) && e.pc.Flushing? && e.batch == [] && e.todo == []
    ensures LocalOk(e, Emptied(e).(batch := Waiting(e)))
  {
    TakeChain(e);
  }

  lemma TakeStopped(e: Flow)
    requires FlowInv(e) && e.pc.Flushing? && e.batch == [] && e.todo == []
    ensures LocalOk(e, Emptied(e).(pc := Ending(ErrClosed), todo := [Count(DropOpenQueue, |Waiting(e)|)]))
  {
    hide Chain, Increasing, AllBelow, Waiting, NoNewer;
    var e2 := Emptied(e).(pc := Ending(ErrClosed), todo := [Count(DropOpenQueue, |Waiting(e)|)]);
    StoppedChain(e, e2);
    OneCount(DropOpenQueue, |Waiting(e)|);
    NoneWaits(e2);
  }

  lemma NoneWaits(e: Flow)
    requires e.firstQ.None? && e.q == []
    ensures Waiting(e) == []
  {
  }

  lemma StoppedChain(e: Flow, e2: Flow)
    requires Increasing(Chain(e)) && e.batch == [] && e.first.None? && e2 == Emptied(e).(pc := e2.pc, todo := e2.todo)
    ensures Increasing(Chain(e2)) && NoNewer(e, e2)
  {
    hide Increasing, AllBelow;
    TakeChain(e);
    assert Chain(e2) == Ids(e.calls);
    assert Ids(e.calls) + Ids(Waiting(e)) + [] == Chain(e) && Ids(e.calls) + [] == Ids(e.calls);
    DropMiddle(Ids(e.calls), Ids(Waiting(e)), []);
  }

  lemma OpenStep(s: State, f: nat)
    requires Inv(s) && f < |s.flows| && s.flows[f].pc.Flushing? && s.flows[f].batch == [] && s.flows[f].todo == []
    requires !s.stopped && Waiting(s.flows[f]) == []
    ensures Inv(FlushTake(s, f))
  {
    hide Inv, FlowInv, NoNewer, One;
    FlowOf(s, f);
    LiveState(s, f);
    TableOf(s, f);
    var e := s.flows[f];
    var e1 := e.(state := FlowOpen, session := true, openedAt := e.dialedAt, pc := Pumping);
    OpenFlow(e);
    StateTally(e);
    StateTally(e1);
    ChangeStep(s, f, e1, FlushTake(s, f));
  }

  lemma OpenFlow(e: Flow)
    requires FlowInv(e) && e.pc.Flushing? && e.batch == [] && e.todo == [] && Waiting(e) == []
    ensures var e1 := e.(state := FlowOpen, session := true, openedAt := e.dialedAt, pc := Pumping);
            FlowInv(e1) && NoNewer(e, e1) && One(e1).dgrams == One(e).dgrams
  {
    var e1 := e.(state := FlowOpen, session := true, openedAt := e.dialedAt, pc := Pumping);
    assert Chain(e1) == Chain(e);
    assert e.firstQ.None? && e.q == [];
  }

  // openFailed, end and hold

  lemma LeaveFlow(e: Flow, e1: Flow)
    requires FlowInv(e) && NoQueue(e1) && e1.calls == e.calls && e1.client == e.client && !Early(e1.pc)
    requires (e1.gone <==> e1.state == FlowGone) && e1.state != FlowOpening && (e1.pc.Exited? ==> e1.gone)
    requires e1.state == FlowOpen ==> (e1.pc.Pumping? || e1.pc.Ending?) && e1.session
    requires forall i :: 0 <= i < |e1.todo| ==> !e1.todo[i].CloseDone?
    ensures FlowInv(e1) && NoNewer(e, e1)
  {
    var rest := Ids(e.batch) + Ids(OptSeq(e.first)) + Ids(Waiting(e));
    assert Chain(e) == Ids(e.calls) + rest + [];
    DropMiddle(Ids(e.calls), rest, []);
    assert Chain(e1) == Ids(e.calls) + [];
  }

  ghost predicate NoQueue(e: Flow) {
    e.first.None? && e.firstQ.None? && e.q == [] && e.batch == [] && e.qBytes == 0
  }

  function Out(e: Flow): Flow { e.(state := FlowGone, gone := true) }

  lemma RemoveShape(s: State, f: nat, e: Flow)
    requires Inv(s) && f < |s.flows| && !s.flows[f].gone && e.gone == s.flows[f].gone && e.state == s.flows[f].state
    requires e.idx == s.flows[f].idx && e.client == s.flows[f].client
    ensures e.idx < |s.all| && s.all[|s.all| - 1] < |s.flows|
    ensures Remove(SetFlow(s, f, e), f) ==
            Gauges(s.(flows := Swapped(s.all, s.flows, f, Out(e)), table := s.table - {e.client},
                      all := s.all[e.idx := s.all[|s.all| - 1]][..|s.all| - 1]), e.state, -1)
  {
    hide Inv, Gauges;
    TableOf(s, f);
    assert s.flows[f := e][f := Out(e)] == s.flows[f := Out(e)];
    var m := s.(flows := s.flows[f := Out(e)]);
    GaugesApart(s, s.flows[f := e], s.table, s.all, e.state, -1);
    GaugesApart(s, m.flows, s.table, s.all, e.state, -1);
    GaugesApart(s, Swapped(s.all, s.flows, f, Out(e)), s.table - {e.client},
                s.all[e.idx := s.all[|s.all| - 1]][..|s.all| - 1], e.state, -1);
  }

  /** The gauges do not look at the table. */
  lemma GaugesApart(s: State, flows: seq<Flow>, table: map<Addr, nat>, all: seq<nat>, st: FlowState, delta: int)
    ensures Gauges(s.(flows := flows, table := table, all := all), st, delta)
         == Gauges(s, st, delta).(flows := flows, table := table, all := all)
  {
  }

  /** An entry that may leave: e is s.flows[f] with its goroutine moved on. */
  ghost predicate MayLeave(e0: Flow, e: Flow) {
    && !e0.gone && e.gone == e0.gone && e.state == e0.state && e.idx == e0.idx && e.client == e0.client
    && e.doneCloses == e0.doneCloses && NoQueue(e) && e.calls == e0.calls && !Early(e.pc)
    && (forall i :: 0 <= i < |e.todo| ==> !e.todo[i].CloseDone?)
  }

  lemma OutTally(e: Flow)
    ensures One(Out(e)).dgrams == One(e).dgrams
  {
  }

  /** Leaving the table: the unit goes now (units: -1) or is still owed (a Release). */
  lemma LeaveStep(s: State, f: nat, e: Flow, now: nat, r: State)
    requires Inv(s) && f < |s.flows| && MayLeave(s.flows[f], e)
    requires now + PendingReleases(e.todo) == 1 + PendingReleases(s.flows[f].todo)
    requires One(e).dgrams == One(s.flows[f]).dgrams
    requires r == Remove(SetFlow(s, f, e), f).(units := s.units - now)
    ensures Inv(r)
  {
    hide Inv, FlowInv, NoNewer, One, Remove;
    RemoveShape(s, f, e);
    FlowOf(s, f);
    TableOf(s, f);
    LeaveFlow(s.flows[f], Out(e));
    OutTally(e);
    StateTally(Out(e));
    StateTally(s.flows[f]);
    RemoveStep(s, f, Out(e), r);
  }

  /** Entering the held state. */
  lemma HoldStep(s: State, f: nat, e: Flow, r: State)
    requires Inv(s) && f < |s.flows| && MayLeave(s.flows[f], e.(state := s.flows[f].state)) && e.state == FlowHeld
    requires e.pc.Holding? || e.pc.Pumping? || e.pc.Ending?
    requires One(e).dgrams == One(s.flows[f]).dgrams && One(e).releases == One(s.flows[f]).releases
    requires r == Gauges(Gauges(SetFlow(s, f, e), s.flows[f].state, -1), FlowHeld, 1)
    ensures Inv(r)
  {
    hide Inv, FlowInv, NoNewer, One, TakenOut;
    FlowOf(s, f);
    LiveState(s, f);
    TableOf(s, f);
    LeaveFlow(s.flows[f], e);
    StateTally(e);
    StateTally(s.flows[f]);
    ChangeStep(s, f, e, r);
  }

  lemma LiveState(s: State, f: nat)
    requires Inv(s) && f < |s.flows|
    ensures s.flows[f].gone <==> s.flows[f].state == FlowGone
    ensures Early(s.flows[f].pc) ==> s.flows[f].state == FlowOpening
    ensures !Early(s.flows[f].pc) ==> NoQueue(s.flows[f])
    ensures s.flows[f].batch != [] ==> s.flows[f].pc.Flushing?
    ensures forall i :: 0 <= i < |s.flows[f].todo| ==> !s.flows[f].todo[i].CloseDone?
  {
    hide TableInv, ReaderInv, DoneInv, Totals;
  }

  /** What openFailed makes of its entry, before the entry's state changes. */
  function Failed(e: Flow, stopping: bool, todo: seq<Action>): Flow {
    Emptied(e).(first := None, pc := if stopping then Exited else Holding, todo := todo)
  }

  function Dropped(e: Flow): nat { |Waiting(e)| + if e.first.Some? then 1 else 0 }

  lemma FailedTally(e: Flow, stopping: bool)
    requires e.todo == [] && e.batch == []
    ensures var e1 := Failed(e, stopping, [Release, Count(DropOpenQueue, Dropped(e))]);
            One(e1).dgrams == One(e).dgrams && PendingReleases(e1.todo) == 1
    ensures var e2 := Failed(e, stopping, [Count(DropHeld, Dropped(e))]).(state := FlowHeld);
            One(e2).dgrams == One(e).dgrams && PendingReleases(e2.todo) == 0
  {
    EmptyTodo(e);
    var c := Count(DropOpenQueue, Dropped(e));
    assert [Release, c][1..] == [c] && [c][1..] == [];
    assert PendingCounts([c]) == Dropped(e) && PendingCounts([Release, c]) == PendingCounts([c]);
    var d := Count(DropHeld, Dropped(e));
    assert [d][1..] == [];
  }

  lemma OpenFailedShape(s: State, f: nat, stopping: bool)
    requires f < |s.flows|
    ensures var e, r := s.flows[f], OpenFailed(s, f, stopping);
            if stopping || s.stopped then
              r == Remove(SetFlow(s, f, Failed(e, stopping, [Release, Count(DropOpenQueue, Dropped(e))])), f)
              && r.units == s.units
            else
              var held := Failed(e, stopping, [Count(DropHeld, Dropped(e))]).(state := FlowHeld);
              r == Gauges(Gauges(SetFlow(s, f, held), e.state, -1), FlowHeld, 1)
  {
    hide Remove, SetState, Gauges;
    var e := s.flows[f];
    RemoveUnits(s, f, Failed(e, stopping, [Release, Count(DropOpenQueue, Dropped(e))]));
    SetStateShape(s, f, Failed(e, stopping, [Count(DropHeld, Dropped(e))]), FlowHeld);
  }

  lemma SetStateShape(s: State, f: nat, e: Flow, st: FlowState)
    requires f < |s.flows|
    ensures SetState(SetFlow(s, f, e), f, st) == Gauges(Gauges(SetFlow(s, f, e.(state := st)), e.state, -1), st, 1)
  {
    hide Gauges;
    var e' := e.(state := st);
    var g := Gauges(Gauges(s, e.state, -1), st, 1);
    GaugesFlow(s, f, e, e.state, -1);
    GaugesFlow(Gauges(s, e.state, -1), f, e, st, 1);
    GaugesFlow(s, f, e', e.state, -1);
    GaugesFlow(Gauges(s, e.state, -1), f, e', st, 1);
    assert g.flows[f := e][f := e'] == g.flows[f := e'];
  }

  lemma GaugesFlow(s: State, f: nat, e: Flow, st: FlowState, delta: int)
    requires f < |s.flows|
    ensures Gauges(s, st, delta).flows == s.flows
    ensures Gauges(SetFlow(s, f, e), st, delta) == SetFlow(Gauges(s, st, delta), f, e)
  {
  }

  /** A failed open's datagrams are all counted, and its unit released at most once. */
  lemma OpenFailedInv(s: State, f: nat, stopping: bool)
    requires Inv(s) && f < |s.flows| && s.flows[f].pc.DialFailed? && s.flows[f].todo == []
    ensures Inv(OpenFailed(s, f, stopping))
  {
    hide Inv, FlowInv, NoNewer, One, Remove, OpenFailed, Gauges, Dropped;
    var e, r := s.flows[f], OpenFailed(s, f, stopping);
    LiveState(s, f);
    StateTally(e);
    FailedTally(e, stopping);
    OpenFailedShape(s, f, stopping);
    if stopping || s.stopped {
      LeaveStep(s, f, Failed(e, stopping, [Release, Count(DropOpenQueue, Dropped(e))]), 0, r);
    } else {
      var e1 := Failed(e, stopping, [Count(DropHeld, Dropped(e))]).(state := FlowHeld);
      StateTally(e1);
      HoldStep(s, f, e1, r);
    }
  }

  lemma MovedTally(e: Flow, pc: Pc, st: FlowState)
    ensures One(e.(pc := pc, state := st)).dgrams == One(e).dgrams
  {
  }

  lemma MovedLocal(e: Flow, pc: Pc)
    requires FlowInv(e) && !Early(e.pc) && e.state != FlowOpen && e.state != FlowOpening
    requires pc == Holding || (pc == Exited && e.gone)
    ensures LocalOk(e, e.(pc := pc))
  {
    assert Chain(e.(pc := pc)) == Chain(e);
  }

  lemma EndHolds(s: State, f: nat, err: EndErr, now: int)
    requires Inv(s) && f < |s.flows| && s.flows[f].pc == Ending(err) && s.flows[f].todo == []
    requires !s.flows[f].gone && s.flows[f].state != FlowHeld
    requires !s.stopped && (s.flows[f].peerEnd || err == EOF) && now - s.flows[f].openedAt < REOPEN_HOLD
    ensures Inv(End(s, f, err, now))
  {
    hide Inv, FlowInv, NoNewer, One, Remove, SetState, Gauges;
    var e := s.flows[f];
    LiveState(s, f);
    StateTally(e);
    SetStateShape(s, f, e.(pc := Holding), FlowHeld);
    MovedTally(e, Holding, FlowHeld);
    StateTally(e.(pc := Holding, state := FlowHeld));
    HoldStep(s, f, e.(pc := Holding, state := FlowHeld), End(s, f, err, now));
  }

  lemma EndLeaves(s: State, f: nat, err: EndErr, now: int)
    requires Inv(s) && f < |s.flows| && s.flows[f].pc == Ending(err) && s.flows[f].todo == []
    requires !s.flows[f].gone && s.flows[f].state != FlowHeld
    requires s.stopped || !(s.flows[f].peerEnd || err == EOF) || now - s.flows[f].openedAt >= REOPEN_HOLD
    ensures Inv(End(s, f, err, now))
  {
    hide Inv, FlowInv, NoNewer, One, Remove;
    var e := s.flows[f];
    LiveState(s, f);
    StateTally(e);
    MovedTally(e, Exited, e.state);
    RemoveUnits(s, f, e.(pc := Exited));
    LeaveStep(s, f, e.(pc := Exited), 1, End(s, f, err, now));
  }

  lemma EndInv(s: State, f: nat, err: EndErr, now: int)
    requires Inv(s) && f < |s.flows| && s.flows[f].pc == Ending(err) && s.flows[f].todo == []
    ensures Inv(End(s, f, err, now))
  {
    hide Inv, FlowInv, NoNewer, One, Remove, LocalOk;
    var e := s.flows[f];
    FlowOf(s, f);
    LiveState(s, f);
    if e.gone || e.state == FlowHeld {
      var pc := if e.gone then Exited else Holding;
      MovedLocal(e, pc);
      LocalStep(s, f, e.(pc := pc), End(s, f, err, now));
    } else if !s.stopped && (e.peerEnd || err == EOF) && now - e.openedAt < REOPEN_HOLD {
      EndHolds(s, f, err, now);
    } else {
      EndLeaves(s, f, err, now);
    }
  }

  lemma RemoveUnits(s: State, f: nat, e: Flow)
    requires f < |s.flows|
    ensures Remove(SetFlow(s, f, e), f).units == s.units
  {
  }

  lemma HoldInv(s: State, f: nat)
    requires Inv(s) && f < |s.flows| && s.flows[f].pc.Holding? && s.flows[f].todo == []
    ensures Inv(HoldEnd(s, f))
  {
    hide Inv, FlowInv, NoNewer, One, LocalOk, Remove;
    var e, r := s.flows[f], HoldEnd(s, f);
    FlowOf(s, f);
    LiveState(s, f);
    StateTally(e);
    var e1 := e.(pc := Exited, todo := if e.gone then [] else [Release]);
    if e.gone {
      MovedLocal(e, Exited);
      RemoveGone(SetFlow(s, f, e1), f);
      LocalStep(s, f, e1, r);
    } else {
      MovedTally(e, Exited, e.state);
      OwedTally(e.(pc := Exited));
      RemoveUnits(s, f, e1);
      LeaveStep(s, f, e1, 0, r);
    }
  }

  lemma RemoveGone(s: State, f: nat)
    requires f < |s.flows| && s.flows[f].gone
    ensures Remove(s, f) == s
  {
  }

  lemma OwedTally(e: Flow)
    requires e.todo == []
    ensures One(e.(todo := [Release])).dgrams == One(e).dgrams && PendingReleases([Release]) == 1
  {
  }

  lemma RowOf(s: State, f: nat)
    requires Inv(s) && f < |s.flows| && !s.flows[f].gone
    ensures s.flows[f].idx < |s.all| && s.all[|s.all| - 1] < |s.flows|
  {
    hide FlowsInv, ReaderInv, DoneInv, Sum;
  }

  lemma TableOf(s: State, f: nat)
    requires Inv(s) && f < |s.flows|
    ensures !s.flows[f].gone ==> s.flows[f].client in s.table && s.table[s.flows[f].client] == f
                                 && s.flows[f].idx < |s.all| && s.all[s.flows[f].idx] == f
                                 && s.all[|s.all| - 1] < |s.flows|
    ensures s.opening <= OPENING_MAX && s.units <= s.max
    ensures forall a :: a in s.table ==>
              s.table[a] < |s.flows| && !s.flows[s.table[a]].gone && s.flows[s.table[a]].client == a
  {
    hide FlowsInv, ReaderInv, DoneInv, Sum;
  }
}
