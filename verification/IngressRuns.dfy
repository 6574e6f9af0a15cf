/** The reader's steps, and what holds in every run of the UDP ingress. */
module IngressRuns {
  import opened Ingress
  import opened IngressSafety
  import opened IngressSteps

  // ---- the reader finishes with its datagram ----

  lemma {:induction false} NoCloses(todo: seq<Action>, v: nat)
    requires forall i :: 0 <= i < |todo| ==> !todo[i].CloseDone?
    ensures PendingCloses(todo, v) == 0
  {
    if todo != [] { NoCloses(todo[1..], v); }
  }

  ghost predicate Finishes(s: State, r: State) {
    && InHand(s.reader) == 1 && r.reader == Idle
    && (forall i :: 0 <= i < |r.todo| ==> !r.todo[i].CloseDone?)
  }

  lemma FinishDone(s: State, r: State)
    requires DoneInv(s) && s.todo == [] && Finishes(s, r)
    requires |r.flows| == |s.flows|
    requires forall v :: 0 <= v < |s.flows| ==>
               r.flows[v].doneCloses == s.flows[v].doneCloses && (s.flows[v].gone ==> r.flows[v].gone)
    ensures DoneInv(r)
  {
    forall v | 0 <= v < |s.flows| { NoCloses(r.todo, v); }
  }

  lemma FinishStep(s: State, r: State)
    requires Inv(s) && Finishes(s, r) && r == s.(reader := Idle, todo := r.todo, units := r.units)
    requires PendingCounts(r.todo) == 1 && r.units == s.units + PendingReleases(r.todo) <= s.max
    ensures Inv(r)
  {
    hide FlowsInv, TableInv, DoneInv, Counts.Total;
    FinishDone(s, r);
  }

  /** Entry f takes the reader's datagram over, or sees it pass. */
  lemma FinishInto(s: State, f: nat, e: Flow, r: State)
    requires Inv(s) && f < |s.flows| && Finishes(s, r)
             && r == s.(flows := s.flows[f := e], reader := Idle, todo := r.todo)
    requires FlowInv(e) && AllBelow(Chain(e), s.received)
    requires e.gone == s.flows[f].gone && e.idx == s.flows[f].idx && e.client == s.flows[f].client
    requires e.doneCloses == s.flows[f].doneCloses && e.state == s.flows[f].state && e.pc == s.flows[f].pc
             && One(e).releases == One(s.flows[f]).releases
    requires One(e).dgrams + PendingCounts(r.todo) == One(s.flows[f]).dgrams + 1 && PendingReleases(r.todo) == 0
    ensures Inv(r)
  {
    hide FlowInv, TableInv, DoneInv, FlowsInv, Chain, One, AllBelow, Early, Counts.Total;
    SumUpdate(s.flows, f, e);
    StateTally(e);
    StateTally(s.flows[f]);
    TableUpdate(s.table, s.all, s.flows, f, e);
    FlowsUpdate(s.flows, s.received, f, e);
    FinishDone(s, r);
  }

  // ---- datagram ----

  lemma ReceiveInv(s: State, src: Addr, size: nat, at: int)
    requires Inv(s)
    ensures Inv(Do(s, Receive(src, size, at)))
  {
    hide FlowInv, TableInv, Chain, One, Counts.Total, Sum;
    var r := Do(s, Receive(src, size, at));
    assert forall f :: 0 <= f < |s.flows| && AllBelow(Chain(s.flows[f]), s.received) ==>
             AllBelow(Chain(r.flows[f]), s.received + 1);
  }

  lemma KnownInv(s: State, f: nat, d: Dgram, now: int, again: bool)
    requires Inv(s) && s.reader == Entering(d, again) && d.src in s.table && s.table[d.src] == f
    ensures f < |s.flows| && Inv(Known(s, f, d, now, again))
  {
    hide Inv, FlowInv, NoNewer, One, Push;
    ReaderOf(s);
    TableOf(s, f);
    FlowOf(s, f);
    LiveState(s, f);
    var e := s.flows[f];
    if e.state == FlowOpening {
      PushInv(s, f, d, now);
    } else if e.state == FlowHeld {
      HeldInto(e, now);
      FinishInto(s, f, e.(last := now), Known(s, f, d, now, again));
    } else {
      WritingInv(s, f, d, again);
    }
  }

  lemma ReaderOf(s: State)
    requires Inv(s)
    ensures InHand(s.reader) == 1 ==> s.todo == [] && s.reader.d.id + 1 == s.received
    ensures s.reader.Entering? ==>
              forall g :: 0 <= g < |s.flows| && !s.flows[g].gone ==> AllBelow(Chain(s.flows[g]), s.reader.d.id)
    ensures s.reader.Entering? && s.reader.again ==> s.reader.d.src !in s.table
    ensures s.reader.Writing? || s.reader.Replacing? ==>
              s.reader.f < |s.flows| && !s.reader.again && s.reader.d.src == s.flows[s.reader.f].client
              && !Early(s.flows[s.reader.f].pc) && s.flows[s.reader.f].state != FlowOpening
              && (s.flows[s.reader.f].gone ==> s.flows[s.reader.f].client !in s.table)
    ensures s.reader.Writing? ==> AllBelow(Chain(s.flows[s.reader.f]), s.reader.d.id)
    ensures s.stopped ==> s.reader == Returned
    ensures !s.stopped ==> forall g :: 0 <= g < |s.flows| && s.flows[g].state == FlowOpening ==> Early(s.flows[g].pc)
    ensures forall a :: a in s.table ==> s.table[a] < |s.flows|
  {
    hide FlowsInv, DoneInv, Totals, Sum, FlowInv;
  }

  lemma HeldInto(e: Flow, now: int)
    requires FlowInv(e)
    ensures FlowInv(e.(last := now)) && One(e.(last := now)) == One(e) && Chain(e.(last := now)) == Chain(e)
    ensures PendingCounts([Count(DropHeld, 1)]) == 1 && PendingReleases([Count(DropHeld, 1)]) == 0
  {
    assert Chain(e.(last := now)) == Chain(e);
  }

  lemma WritingInv(s: State, f: nat, d: Dgram, again: bool)
    requires Inv(s) && s.reader == Entering(d, again) && d.src in s.table && s.table[d.src] == f
    requires f < |s.flows| && s.flows[f].state != FlowOpening && !s.flows[f].gone
    ensures Inv(s.(reader := Writing(f, d, again)))
  {
    hide FlowsInv, Sum, FlowInv, TableInv, Chain;
    TableOf(s, f);
    LiveState(s, f);
    FlowOf(s, f);
  }

  lemma PushInv(s: State, f: nat, d: Dgram, now: int)
    requires Inv(s) && s.reader.Entering? && s.reader.d == d && f < |s.flows| && s.flows[f].state == FlowOpening
             && d.src == s.flows[f].client
    ensures Inv(Known(s, f, d, now, s.reader.again))
  {
    hide Inv, FlowInv, NoNewer, One, Push;
    ReaderOf(s);
    FlowOf(s, f);
    LiveState(s, f);
    var e := s.flows[f].(last := now);
    var (e1, dropped) := Push(e, d.(at := now));
    PushTally(s.flows[f], d.(at := now), now);
    FinishInto(s, f, e1, Known(s, f, d, now, s.reader.again));
  }

  lemma PushTally(e: Flow, d: Dgram, now: int)
    requires FlowInv(e) && e.state == FlowOpening && Early(e.pc) && AllBelow(Chain(e), d.id) && d.src == e.client
    ensures var (e1, dropped) := Push(e.(last := now), d);
            && FlowInv(e1) && AllBelow(Chain(e1), d.id + 1)
            && e1 == e.(last := now, q := e1.q, qBytes := e1.qBytes) && One(e1).releases == One(e).releases
            && One(e).dgrams + 1
               == One(e1).dgrams + PendingCounts(if dropped > 0 then [Count(DropOpenQueue, dropped)] else [])
            && PendingReleases(if dropped > 0 then [Count(DropOpenQueue, dropped)] else []) == 0
  {
    assert Chain(e.(last := now)) == Chain(e);
    PushKeeps(e.(last := now), d);
  }

  // ---- an open flow's WriteTo ----

  lemma CalledFlow(e: Flow, d: Dgram, now: int)
    requires FlowInv(e) && NoQueue(e) && AllBelow(Chain(e), d.id) && d.src == e.client
    ensures var e1 := e.(last := now, calls := e.calls + [d]);
            FlowInv(e1) && AllBelow(Chain(e1), d.id + 1) && One(e1) == One(e)
  {
    var e1 := e.(last := now, calls := e.calls + [d]);
    assert Chain(e) == Ids(e.calls) && Chain(e1) == Ids(e.calls) + [d.id];
    Extend(Ids(e.calls), d.id);
  }

  lemma CountOne(k: Counter)
    ensures PendingCounts([Count(k, 1)]) == 1 && PendingReleases([Count(k, 1)]) == 0
    ensures PendingCounts([Release, Count(k, 1)]) == 1 && PendingReleases([Release, Count(k, 1)]) == 1
  {
    assert [Release, Count(k, 1)][1..] == [Count(k, 1)];
    assert PendingCounts([Count(k, 1)]) == 1;
  }

  lemma WriteDoneInv(s: State, w: Write, now: int)
    requires Inv(s) && s.reader.Writing?
    ensures s.reader.f < |s.flows| && Inv(WriteDone(s, s.reader.f, s.reader.d, w, now, s.reader.again))
  {
    hide Inv, FlowInv, NoNewer, One;
    ReaderOf(s);
    var f, d := s.reader.f, s.reader.d;
    FlowOf(s, f);
    LiveState(s, f);
    CalledFlow(s.flows[f], d, now);
    CountOne(ToSession);
    CountOne(TooLarge);
    if w.WriteFailed? {
      FailedWriteInv(s, w.err, now);
    } else {
      FinishInto(s, f, s.flows[f].(last := now, calls := s.flows[f].calls + [d]),
                 WriteDone(s, f, d, w, now, s.reader.again));
    }
  }

  lemma FailedWriteInv(s: State, err: EndErr, now: int)
    requires Inv(s) && s.reader.Writing?
    ensures s.reader.f < |s.flows| && Inv(WriteDone(s, s.reader.f, s.reader.d, WriteFailed(err), now, s.reader.again))
  {
    hide FlowInv, TableInv, One, Early, Chain, FlowsInv, AllBelow, ReaderInv, DoneInv, Counts.Total;
    ReaderOf(s);
    var f, d := s.reader.f, s.reader.d;
    FlowOf(s, f);
    LiveState(s, f);
    CalledFlow(s.flows[f], d, now);
    var e := s.flows[f].(last := now, calls := s.flows[f].calls + [d]);
    SumUpdate(s.flows, f, e);
    TableUpdate(s.table, s.all, s.flows, f, e);
    FlowsUpdate(s.flows, s.received, f, e);
    FailedWriteReader(s, f, e, err);
    FailedWriteDone(s, f, e, err);
  }

  lemma FailedWriteReader(s: State, f: nat, e: Flow, err: EndErr)
    requires ReaderInv(s) && s.reader.Writing? && f == s.reader.f && AllBelow(Chain(e), s.received)
    requires e.gone == s.flows[f].gone && e.client == s.flows[f].client && e.pc == s.flows[f].pc
             && e.state == s.flows[f].state
    ensures ReaderInv(SetFlow(s, f, e).(reader := Replacing(f, s.reader.d, err, s.reader.again)))
  {
    hide Chain, Early;
  }

  lemma FailedWriteDone(s: State, f: nat, e: Flow, err: EndErr)
    requires DoneInv(s) && s.reader.Writing? && f < |s.flows|
    requires e.gone == s.flows[f].gone && e.doneCloses == s.flows[f].doneCloses
    ensures DoneInv(SetFlow(s, f, e).(reader := Replacing(f, s.reader.d, err, s.reader.again)))
  {
  }

  // ---- replace ----

  lemma ReenterInv(s: State)
    requires Inv(s) && s.reader.Replacing? && s.reader.f < |s.flows|
    requires var c := s.flows[s.reader.f].client; c !in s.table || s.table[c] != s.reader.f
    ensures Inv(s.(reader := Entering(s.reader.d, true)))
    ensures s.flows[s.reader.f].client !in s.table
  {
    hide FlowInv, TableInv, One, Chain, FlowsInv, AllBelow, Sum;
    TableOf(s, s.reader.f);
  }

  lemma ReplaceInv(s: State, now: int)
    requires Inv(s) && s.reader.Replacing?
    ensures s.reader.f < |s.flows| && Inv(Replace(s, s.reader.f, s.reader.d, s.reader.err, now, s.reader.again))
  {
    hide Inv, FlowInv, NoNewer, One, Remove, SetState, Gauges;
    ReaderOf(s);
    var f, e := s.reader.f, s.flows[s.reader.f];
    TableOf(s, f);
    LiveState(s, f);
    CountOne(DropHeld);
    if e.client !in s.table || s.table[e.client] != f {
      ReenterInv(s);
    } else if e.state == FlowHeld {
      FinishStep(s, Replace(s, f, s.reader.d, s.reader.err, now, s.reader.again));
    } else if s.reader.err == ErrClosed && now - e.openedAt < REOPEN_HOLD {
      ReplaceHoldInv(s, now);
    } else if s.opening >= OPENING_MAX {
      ReplaceFullInv(s, now);
    } else {
      ReplaceNewInv(s, now);
    }
  }

  lemma ReplaceHoldInv(s: State, now: int)
    requires Inv(s) && s.reader.Replacing? && s.reader.f < |s.flows| && s.reader.err == ErrClosed
    requires var e := s.flows[s.reader.f];
             e.client in s.table && s.table[e.client] == s.reader.f && e.state != FlowHeld
             && now - e.openedAt < REOPEN_HOLD
    ensures Inv(Replace(s, s.reader.f, s.reader.d, s.reader.err, now, s.reader.again))
  {
    hide Inv, FlowInv, NoNewer, One, Remove, SetState, Gauges;
    ReaderOf(s);
    var f, e := s.reader.f, s.flows[s.reader.f];
    TableOf(s, f);
    FlowOf(s, f);
    LiveState(s, f);
    OpenPc(e);
    var e1 := e.(state := FlowHeld, peerEnd := true);
    StateTally(e);
    StateTally(e1);
    SameDgrams(e);
    var s1 := Gauges(Gauges(SetFlow(s, f, e1), e.state, -1), FlowHeld, 1);
    HoldStep(s, f, e1, s1);
    HoldShape(s, f);
    GaugesFlow(SetFlow(s, f, e1), f, e1, e.state, -1);
    CountOne(DropHeld);
    GaugesRest(SetFlow(s, f, e1), e.state, FlowHeld);
    FinishStep(s1, s1.(reader := Idle, todo := [Count(DropHeld, 1)]));
  }

  lemma OpenPc(e: Flow)
    requires FlowInv(e) && e.state == FlowOpen
    ensures e.pc.Pumping? || e.pc.Ending?
  {
  }

  lemma SameDgrams(e: Flow)
    ensures One(e.(state := FlowHeld, peerEnd := true)).dgrams == One(e).dgrams
  {
  }

  lemma HoldShape(s: State, f: nat)
    requires f < |s.flows|
    ensures var s1 := SetState(s, f, FlowHeld);
            |s1.flows| == |s.flows| && SetFlow(s1, f, s1.flows[f].(peerEnd := true))
            == Gauges(Gauges(SetFlow(s, f, s.flows[f].(state := FlowHeld, peerEnd := true)), s.flows[f].state, -1),
                      FlowHeld, 1)
  {
    hide Gauges;
    var e := s.flows[f];
    var e1, e2 := e.(state := FlowHeld), e.(state := FlowHeld, peerEnd := true);
    var g := Gauges(Gauges(s, e.state, -1), FlowHeld, 1);
    GaugesFlow(s, f, e1, e.state, -1);
    GaugesFlow(Gauges(s, e.state, -1), f, e1, FlowHeld, 1);
    GaugesFlow(s, f, e2, e.state, -1);
    GaugesFlow(Gauges(s, e.state, -1), f, e2, FlowHeld, 1);
    assert g.flows[f := e1][f := e2] == g.flows[f := e2];
  }

  lemma GaugesRest(s: State, a: FlowState, b: FlowState)
    ensures var r := Gauges(Gauges(s, a, -1), b, 1);
            r.reader == s.reader && r.todo == s.todo && r.units == s.units && r.max == s.max && r.flows == s.flows
  {
  }

  lemma RemoveSelf(s: State, f: nat)
    requires f < |s.flows|
    ensures SetFlow(s, f, s.flows[f]) == s
  {
    assert s.flows[f := s.flows[f]] == s.flows;
  }

  lemma GaugesKeep(s: State, st: FlowState, delta: int)
    ensures var r := Gauges(s, st, delta);
            r == s.(opening := r.opening, open := r.open, held := r.held)
            && (st != FlowOpening ==> r.opening == s.opening)
  {
  }

  lemma RemoveRest(s: State, f: nat)
    requires f < |s.flows| && !s.flows[f].gone && s.flows[f].client in s.table && s.table[s.flows[f].client] == f
    requires s.flows[f].idx < |s.all| && s.all[|s.all| - 1] < |s.flows|
    ensures var r := Remove(s, f);
            r.reader == s.reader && r.todo == s.todo && r.units == s.units && r.max == s.max && r.received == s.received
            && r.bare == s.bare && r.table == s.table - {s.flows[f].client}
            && (s.flows[f].state != FlowOpening ==> r.opening == s.opening)
            && r.flows[f].doneCloses == s.flows[f].doneCloses && r.flows[f].gone
  {
    hide Gauges;
    GaugesKeep(s, s.flows[f].state, -1);
  }

  /** The reader takes entry f, open or held, out of the table; its unit is in the reader's hands. */
  lemma TakeOutInv(s: State, f: nat)
    requires Inv(s) && f < |s.flows| && !s.flows[f].gone && s.flows[f].state != FlowOpening
    ensures Inv(Remove(s, f).(units := s.units - 1))
  {
    hide Inv, FlowInv, NoNewer, One, Remove;
    LiveState(s, f);
    RemoveSelf(s, f);
    LeaveStep(s, f, s.flows[f], 1, Remove(s, f).(units := s.units - 1));
  }

  lemma ReplaceFullInv(s: State, now: int)
    requires Inv(s) && s.reader.Replacing? && s.reader.f < |s.flows| && s.opening >= OPENING_MAX
    requires var e := s.flows[s.reader.f]; e.client in s.table && s.table[e.client] == s.reader.f && e.state != FlowHeld
    requires !(s.reader.err == ErrClosed && now - s.flows[s.reader.f].openedAt < REOPEN_HOLD)
    ensures Inv(Replace(s, s.reader.f, s.reader.d, s.reader.err, now, s.reader.again))
  {
    hide Inv, FlowInv, NoNewer, One, Remove, SetState;
    ReaderOf(s);
    var f := s.reader.f;
    TableOf(s, f);
    TakeOutInv(s, f);
    RemoveRest(s, f);
    CountOne(DropOpening);
    FinishStep(Remove(s, f).(units := s.units - 1), Replace(s, f, s.reader.d, s.reader.err, now, s.reader.again));
  }

  lemma NewFlowOk(s: State, d: Dgram, now: int)
    ensures var e := NewFlow(s, d, now).(idx := |s.all|);
            FlowInv(e) && AllBelow(Chain(e), d.id + 1) && One(e).dgrams == 1 && One(e).releases == 0
  {
    var e := NewFlow(s, d, now).(idx := |s.all|);
    assert Ids([]) == [] && Ids(e.calls) == [] && Ids(e.batch) == [] && Ids(e.q) == [];
    if e.first.Some? {
      assert OptSeq(e.first) == [d] && Waiting(e) == [];
    } else {
      assert OptSeq(e.first) == [] && Waiting(e) == [d.(at := now)];
    }
    assert Chain(e) == [d.id];
  }

  /** The reader's datagram opens a new entry; s: its unit is in the reader's hands. */
  lemma PutNewInv(s: State, d: Dgram, now: int, units: int)
    requires Inv(s) && InHand(s.reader) == 1 && s.reader.d == d && d.src !in s.table
    requires s.opening < OPENING_MAX && units == s.units + 1 <= s.max
    ensures var s1 := s.(opening := s.opening + 1, units := units);
            Inv(Put(s1, NewFlow(s1, d, now)).(reader := Idle))
  {
    hide Inv, FlowInv, One, Chain, AllBelow;
    ReaderOf(s);
    var s1 := s.(opening := s.opening + 1, units := units);
    NewFlowOk(s1, d, now);
    PutStep(s, NewFlow(s1, d, now).(idx := |s.all|), Put(s1, NewFlow(s1, d, now)).(reader := Idle));
  }

  lemma ReplaceNewInv(s: State, now: int)
    requires Inv(s) && s.reader.Replacing? && s.reader.f < |s.flows| && s.opening < OPENING_MAX
    requires var e := s.flows[s.reader.f]; e.client in s.table && s.table[e.client] == s.reader.f && e.state != FlowHeld
    requires !(s.reader.err == ErrClosed && now - s.flows[s.reader.f].openedAt < REOPEN_HOLD)
    ensures Inv(Replace(s, s.reader.f, s.reader.d, s.reader.err, now, s.reader.again))
  {
    hide Inv, FlowInv, NoNewer, One, Remove, SetState;
    ReaderOf(s);
    var f := s.reader.f;
    TableOf(s, f);
    TakeOutInv(s, f);
    RemoveRest(s, f);
    PutNewInv(Remove(s, f).(units := s.units - 1), s.reader.d, now, s.units);
  }

  // ---- admit ----

  lemma EvictInv(s: State, v: nat)
    requires Inv(s) && v < |s.flows| && !s.flows[v].gone && s.flows[v].state != FlowOpening
    ensures Inv(Evict(s, v).(units := s.units - 1))
    ensures var r := Evict(s, v);
            r.reader == s.reader && r.todo == s.todo && r.units == s.units && r.max == s.max && r.bare == s.bare
            && r.opening == s.opening && r.table == s.table - {s.flows[v].client} && r.received == s.received
            && r.flows[v].doneCloses == s.flows[v].doneCloses && r.flows[v].gone
  {
    hide Inv, FlowInv, NoNewer, One, Remove;
    var e := s.flows[v];
    var e1 := e.(evicted := e.state == FlowOpen);
    TableOf(s, v);
    LiveState(s, v);
    SameFlag(e, e.state == FlowOpen);
    LeaveStep(s, v, e1, 1, Evict(s, v).(units := s.units - 1));
    RemoveRest(SetFlow(s, v, e1), v);
  }

  lemma SameFlag(e: Flow, b: bool)
    ensures One(e.(evicted := b)) == One(e)
  {
  }

  lemma CloseTodoInv(s: State, v: nat)
    requires Inv(s) && s.todo == [] && s.reader == Idle && v < |s.flows| && s.flows[v].gone
             && s.flows[v].doneCloses == 0
    ensures Inv(s.(todo := [CloseDone(v)]))
  {
    hide FlowInv, TableInv, FlowsInv, Sum, Counts.Total;
    assert [CloseDone(v)][1..] == [];
    assert forall w :: PendingCloses([CloseDone(v)], w) == if w == v then 1 else 0;
  }

  lemma NotClosed(s: State, v: nat)
    requires Inv(s) && v < |s.flows| && !s.flows[v].gone
    ensures s.flows[v].doneCloses == 0
  {
    hide FlowInv, TableInv, FlowsInv, Totals, ReaderInv;
  }

  /** Only a held entry, or an open one that is no stream and was idle, is ever a victim. */
  lemma VictimSafe(s: State, sample: seq<nat>, now: int, v: Option<nat>)
    requires VictimOk(s, sample, now, v) && v.Some?
    ensures v.value in sample && v.value < |s.flows|
    ensures s.flows[v.value].state == FlowHeld
            || (s.promoteActive && s.flows[v.value].state == FlowOpen && !s.flows[v.value].stream
                && s.flows[v.value].last + EVICT_IDLE <= now && s.flows[v.value].openedAt + EVICT_IDLE <= now)
  {
  }

  lemma AdmitInv(s: State, now: int, sample: seq<nat>, v: Option<nat>)
    requires Inv(s) && s.reader.Entering? && s.reader.d.src !in s.table && VictimOk(s, sample, now, v)
    requires v.Some? ==> v.value < |s.flows|
    ensures Inv(Admit(s, s.reader.d, now, v))
  {
    hide Inv, VictimOk, Evict;
    ReaderOf(s);
    UnitsOf(s);
    var d, r := s.reader.d, Admit(s, s.reader.d, now, v);
    var full := s.units >= s.max;
    CountOne(DropFull);
    CountOne(DropOpening);
    if (full && v.None?) || s.opening >= OPENING_MAX {
      assert (if full then [] else [Release]) + [Count(DropOpening, 1)]
             == if full then [Count(DropOpening, 1)] else [Release, Count(DropOpening, 1)];
      FinishStep(s, r);
    } else if full {
      VictimSafe(s, sample, now, v);
      AdmitEvictInv(s, now, v.value);
    } else {
      PutNewInv(s, d, now, s.units + 1);
    }
  }

  lemma UnitsOf(s: State)
    requires Inv(s)
    ensures s.units <= s.max && s.opening <= OPENING_MAX
  {
    hide FlowsInv, TableInv, ReaderInv, DoneInv, Sum;
  }

  lemma AdmitEvictInv(s: State, now: int, v: nat)
    requires Inv(s) && s.reader.Entering? && s.reader.d.src !in s.table && v < |s.flows|
    requires s.units >= s.max && s.opening < OPENING_MAX
             && (s.flows[v].state == FlowHeld || s.flows[v].state == FlowOpen)
    ensures Inv(Admit(s, s.reader.d, now, Some(v)))
  {
    hide Inv, Evict, NewFlow;
    ReaderOf(s);
    UnitsOf(s);
    LiveState(s, v);
    NotClosed(s, v);
    EvictInv(s, v);
    var s1 := Evict(s, v);
    PutNewInv(s1.(units := s.units - 1), s.reader.d, now, s.units);
    var s2 := Put(s1.(opening := s1.opening + 1), NewFlow(s1, s.reader.d, now)).(reader := Idle);
    SameNew(s1, s.reader.d, now);
    CloseTodoInv(s2, v);
  }

  lemma SameNew(s: State, d: Dgram, now: int)
    ensures NewFlow(s.(opening := s.opening + 1), d, now) == NewFlow(s, d, now)
    ensures forall u, o :: NewFlow(s.(units := u, opening := o), d, now) == NewFlow(s, d, now)
  {
  }

  // ---- the other steps ----

  lemma {:induction false} ClosesHead(todo: seq<Action>, v: nat)
    requires todo != []
    ensures PendingCloses(todo, v) == (if todo[0] == CloseDone(v) then 1 else 0) + PendingCloses(todo[1..], v)
  {
  }

  lemma AddTotal(c: Counts, k: Counter, n: nat)
    ensures c.Add(k, n).Total() == c.Total() + n
  {
  }

  lemma ReaderActsInv(s: State)
    requires Inv(s) && s.todo != []
    ensures Inv(Perform(s.(todo := s.todo[1..]), s.todo[0]))
  {
    if s.todo[0].CloseDone? { ReaderCloses(s); } else { ReaderCounts(s); }
  }

  lemma ReaderCounts(s: State)
    requires Inv(s) && s.todo != [] && !s.todo[0].CloseDone?
    ensures Inv(Perform(s.(todo := s.todo[1..]), s.todo[0]))
  {
    hide FlowInv, TableInv, FlowsInv, Chain, AllBelow, Counts.Total, Counts.Add, Sum;
    var a := s.todo[0];
    forall v | 0 <= v < |s.flows| { ClosesHead(s.todo, v); }
    if a.Count? { AddTotal(s.counts, a.k, a.n); }
  }

  lemma ReaderCloses(s: State)
    requires Inv(s) && s.todo != [] && s.todo[0].CloseDone?
    ensures Inv(Perform(s.(todo := s.todo[1..]), s.todo[0]))
  {
    hide FlowInv, TableInv, FlowsInv, ReaderInv, DoneInv, One, Chain, AllBelow, Counts.Total, Counts.Add;
    ClosesDone(s);
    var v := s.todo[0].v;
    var e := s.flows[v].(doneCloses := s.flows[v].doneCloses + 1);
    ClosedFlow(s, v);
    SumUpdate(s.flows, v, e);
    TableUpdate(s.table, s.all, s.flows, v, e);
    FlowsUpdate(s.flows, s.received, v, e);
    ClosesReader(s, v);
  }

  lemma ClosesReader(s: State, v: nat)
    requires ReaderInv(s) && FlowsInv(s.flows, s.received) && s.todo != [] && v < |s.flows|
    ensures ReaderInv(SetFlow(s.(todo := s.todo[1..]), v, s.flows[v].(doneCloses := s.flows[v].doneCloses + 1)))
  {
    hide FlowsInv, FlowInv, Chain, One;
    ClosedFlow(s, v);
  }

  lemma ClosesDone(s: State)
    requires DoneInv(s) && s.todo != [] && s.todo[0].CloseDone?
    ensures s.todo[0].v < |s.flows|
    ensures var v := s.todo[0].v;
            DoneInv(SetFlow(s.(todo := s.todo[1..]), v, s.flows[v].(doneCloses := s.flows[v].doneCloses + 1)))
  {
    forall v | 0 <= v < |s.flows| { ClosesHead(s.todo, v); }
  }

  lemma ClosedFlow(s: State, v: nat)
    requires FlowsInv(s.flows, s.received) && v < |s.flows|
    ensures var e := s.flows[v].(doneCloses := s.flows[v].doneCloses + 1);
            FlowInv(e) && AllBelow(Chain(e), s.received) && One(e) == One(s.flows[v]) && Chain(e) == Chain(s.flows[v])
  {
    var e := s.flows[v].(doneCloses := s.flows[v].doneCloses + 1);
    assert Chain(e) == Chain(s.flows[v]);
  }

  lemma ActFlow(e: Flow)
    requires FlowInv(e) && e.todo != []
    ensures var e1 := e.(todo := e.todo[1..]);
            FlowInv(e1) && NoNewer(e, e1) && !e.todo[0].CloseDone?
            && One(e1).dgrams + (if e.todo[0].Count? then e.todo[0].n else 0) == One(e).dgrams
            && One(e1).releases + (if e.todo[0].Release? then 1 else 0) == One(e).releases
  {
    var e1 := e.(todo := e.todo[1..]);
    assert Chain(e1) == Chain(e);
  }

  lemma FlowActsInv(s: State, f: nat)
    requires Inv(s) && f < |s.flows| && s.flows[f].todo != []
    ensures Inv(Do(s, FlowActs(f)))
  {
    hide Inv, FlowInv, NoNewer, One, Counts.Total, Counts.Add;
    var e := s.flows[f];
    var e1 := e.(todo := e.todo[1..]);
    FlowOf(s, f);
    UnitsOf(s);
    ReaderOf(s);
    ActFlow(e);
    StateTally(e);
    StateTally(e1);
    LiveState(s, f);
    if e.todo[0].Count? { AddTotal(s.counts, e.todo[0].k, e.todo[0].n); }
    EarlyOrStopped(s, f);
    ChangeStep(s, f, e1, Do(s, FlowActs(f)));
  }

  lemma EarlyOrStopped(s: State, f: nat)
    requires Inv(s) && f < |s.flows|
    ensures s.flows[f].state == FlowOpening ==> Early(s.flows[f].pc) || s.stopped
  {
    ReaderOf(s);
  }

  lemma FlowStepInv(s: State, step: Step)
    requires Inv(s) && (step.DialReturns? || step.MoveFirstLock? || step.FlushLock? || step.FlushWrites?
                        || step.SessionEnds? || step.OpenFailedLock? || step.EndLock? || step.HoldLock?
                        || step.Replies?)
    requires step.f < |s.flows| && s.flows[step.f].todo == []
    ensures Inv(DoFlow(s, step))
  {
    hide Inv, FlowInv, LocalOk, Early, FlushTake, OpenFailed, End, HoldEnd, FlushOne, DialOk, MovedFirst;
    var f, e := step.f, s.flows[step.f];
    FlowOf(s, f);
    match step
    case DialReturns(_, now, ok, rode, mp, peerClosed) =>
      if e.pc.Dialing? {
        DialPcs(e, rode, mp, now);
        if ok {
          DialLocal(e, rode, mp, now);
          LocalStep(s, f, DialOk(e, rode, mp, now), DoFlow(s, step));
        } else {
          DialFailedLocal(e, s.cancelled || peerClosed);
          LocalStep(s, f, e.(pc := DialFailed(s.cancelled || peerClosed)), DoFlow(s, step));
        }
      }
    case MoveFirstLock(_) =>
      if e.pc.MoveFirst? && e.first.Some? {
        MoveFirstLocal(e);
        DialPcs(e, false, 0, 0);
        LocalStep(s, f, MovedFirst(e), DoFlow(s, step));
      }
    case FlushLock(_) => if e.pc.Flushing? && e.batch == [] { FlushTakeInv(s, f); }
    case FlushWrites(_, now, w) =>
      if e.pc.Flushing? && e.batch != [] {
        FlushOneLocal(e, now, w);
        FlushPc(e, now, w);
        LocalStep(s, f, FlushOne(e, now, w), DoFlow(s, step));
      }
    case SessionEnds(_, err) =>
      if e.pc.Pumping? {
        PumpLocal(e, err, 0);
        LocalStep(s, f, e.(pc := Ending(err)), DoFlow(s, step));
      }
    case OpenFailedLock(_) => if e.pc.DialFailed? { OpenFailedInv(s, f, e.pc.stopping); }
    case EndLock(_, now) => if e.pc.Ending? { EndInv(s, f, e.pc.err, now); }
    case HoldLock(_) => if e.pc.Holding? { HoldInv(s, f); }
    case Replies(_, now) =>
      if e.pc.Pumping? {
        PumpLocal(e, EOF, now);
        LocalStep(s, f, e.(last := now), DoFlow(s, step));
      }
  }

  lemma DialPcs(e: Flow, rode: bool, mp: nat, now: int)
    ensures Early(DialOk(e, rode, mp, now).pc) && forall b :: Early(DialFailed(b))
    ensures e.first.Some? ==> Early(MovedFirst(e).pc)
  {
  }

  lemma FlushPc(e: Flow, now: int, w: Write)
    requires e.batch != [] && e.pc.Flushing?
    ensures Early(FlushOne(e, now, w).pc)
  {
  }

  lemma PumpLocal(e: Flow, err: EndErr, now: int)
    requires FlowInv(e) && e.pc.Pumping?
    ensures LocalOk(e, e.(pc := Ending(err))) && LocalOk(e, e.(last := now)) && e.state != FlowOpening
  {
    assert Chain(e.(pc := Ending(err))) == Chain(e);
    assert Chain(e.(last := now)) == Chain(e);
  }

  lemma PromoteLocal(e: Flow)
    requires FlowInv(e)
    ensures LocalOk(e, e.(stream := true))
  {
    assert Chain(e.(stream := true)) == Chain(e);
  }

  /** Every step keeps the invariant. */
  lemma StepInv(s: State, step: Step)
    requires Inv(s)
    ensures Inv(Do(s, step))
  {
    hide Inv, DoFlow, Known, Admit, WriteDone, Replace, Perform, FlowInv, LocalOk, VictimOk, SampleOk;
    match step
    case Receive(src, size, at) => ReceiveInv(s, src, size, at);
    case EnterLock(now, sample, v) =>
      if s.reader.Entering? && s.todo == [] {
        if s.reader.d.src in s.table {
          KnownInv(s, s.table[s.reader.d.src], s.reader.d, now, s.reader.again);
        } else if SampleOk(s, sample) && VictimOk(s, sample, now, v) && (v.Some? ==> v.value < |s.flows|) {
          AdmitInv(s, now, sample, v);
        }
      }
    case WriteReturns(w, now) => if s.reader.Writing? { WriteDoneInv(s, w, now); }
    case ReplaceLock(now) => if s.reader.Replacing? { ReplaceInv(s, now); }
    case ReaderReturns => EnvInv(s, step);
    case ReaderActs => if s.todo != [] { ReaderActsInv(s); }
    case Halt => EnvInv(s, step);
    case Shutdown => EnvInv(s, step);
    case OtherUnit(_) => EnvInv(s, step);
    case OtherOpening(_) => EnvInv(s, step);
    case FlowActs(f) => if f < |s.flows| && s.flows[f].todo != [] { FlowActsInv(s, f); }
    case Promotes(f) =>
      if f < |s.flows| {
        FlowOf(s, f);
        EarlyOrStopped(s, f);
        PromoteLocal(s.flows[f]);
        LocalStep(s, f, s.flows[f].(stream := true), Do(s, step));
      }
    case _ => if step.f < |s.flows| && s.flows[step.f].todo == [] { FlowStepInv(s, step); }
  }

  lemma EnvInv(s: State, step: Step)
    requires Inv(s) && (step.ReaderReturns? || step.Halt? || step.Shutdown? || step.OtherUnit? || step.OtherOpening?)
    ensures Inv(Do(s, step))
  {
    hide Known, Admit, WriteDone, Replace, Perform, DoFlow, SampleOk, VictimOk, SetFlow, Inv;
    var r := Do(s, step);
    if step.ReaderReturns? || step.Shutdown? {
      StoppedInv(s, step);
    } else {
      SharedInv(s, r);
    }
  }

  lemma StoppedInv(s: State, step: Step)
    requires Inv(s) && (step.ReaderReturns? || step.Shutdown?)
    ensures Inv(Do(s, step))
  {
    hide Known, Admit, WriteDone, Replace, Perform, DoFlow, SampleOk, VictimOk, SetFlow;
    hide TableInv, FlowsInv, ReaderInv, DoneInv, Counts.Total, Sum;
    StopReader(s, step);
    SameDone(s, Do(s, step));
  }

  /** Units and opening units that other ServeUDP calls take or give back. */
  lemma SharedInv(s: State, r: State)
    requires Inv(s) && r == s.(units := r.units, otherUnits := r.otherUnits, opening := r.opening,
                               otherOpening := r.otherOpening, cancelled := r.cancelled)
    requires r.units - s.units == r.otherUnits - s.otherUnits && (r.units <= s.units || r.units <= s.max)
    requires r.opening - s.opening == r.otherOpening - s.otherOpening
             && (r.opening <= s.opening || r.opening <= OPENING_MAX)
    ensures Inv(r)
  {
    hide TableInv, FlowsInv, ReaderInv, DoneInv, Counts.Total, Sum;
    SameReader(s, r);
    SameDone(s, r);
  }

  lemma StopReader(s: State, step: Step)
    requires ReaderInv(s) && (step.ReaderReturns? || step.Shutdown?)
    ensures ReaderInv(Do(s, step))
  {
    hide FlowInv, Chain, Early, Known, Admit, WriteDone, Replace, Perform, DoFlow;
  }

  lemma SameDone(s: State, r: State)
    requires DoneInv(s) && r.flows == s.flows && r.todo == s.todo
    ensures DoneInv(r)
  {
  }

  /** The invariant holds after every interleaving. */
  lemma {:induction false} RunInv(max: nat, bare: nat, active: bool, steps: seq<Step>)
    ensures Inv(Exec(Init(max, bare, active), steps))
    decreases |steps|
  {
    hide Inv, Do;
    if steps == [] {
      InitInv(max, bare, active);
    } else {
      RunInv(max, bare, active, steps[..|steps| - 1]);
      StepInv(Exec(Init(max, bare, active), steps[..|steps| - 1]), steps[|steps| - 1]);
    }
  }

  // ---- what every run shows ----

  lemma {:induction false} AllGone(flows: seq<Flow>, received: nat)
    requires FlowsInv(flows, received) && forall f :: 0 <= f < |flows| ==> flows[f].pc.Exited? && flows[f].todo == []
    ensures Sum(flows) == Tally(0, 0, 0, 0, 0, 0)
  {
    if flows != [] {
      AllGone(flows[..|flows| - 1], received);
      var e := flows[|flows| - 1];
      assert FlowInv(e);
    }
  }

  /** No flow's goroutine and no deferred action is left, and the reader is between two reads or returned. */
  ghost predicate Quiet(s: State) {
    (s.reader == Idle || s.reader == Returned) && s.todo == []
    && forall f :: 0 <= f < |s.flows| ==> s.flows[f].pc.Exited? && s.flows[f].todo == []
  }

  /** s is the state after some interleaving. */
  ghost predicate Reachable(max: nat, bare: nat, active: bool, s: State) {
    exists steps: seq<Step> :: s == Exec(Init(max, bare, active), steps)
  }

  /** Delivered or counted: whatever the interleaving, the datagrams the reader
      took are those counted plus those an entry, a flush or a call still holds;
      once nothing runs, every one of them is counted. */
  lemma DeliveredOrCounted(max: nat, bare: nat, active: bool, s: State)
    requires Reachable(max, bare, active, s)
    ensures
            && s.received == s.counts.Total() + Sum(s.flows).dgrams + PendingCounts(s.todo) + InHand(s.reader)
            && (Quiet(s) ==> s.received == s.counts.Total())
  {
    hide Exec;
    var steps :| s == Exec(Init(max, bare, active), steps);
    RunInv(max, bare, active, steps);
    TotalsOf(s);
    if Quiet(s) { AllGoneIn(s); }
  }

  lemma TotalsOf(s: State)
    requires Inv(s)
    ensures Totals(s) && |s.all| == Sum(s.flows).live && FlowsInv(s.flows, s.received)
  {
    hide ReaderInv, DoneInv, FlowsInv, Sum;
  }

  lemma AllGoneIn(s: State)
    requires Inv(s) && Quiet(s)
    ensures Sum(s.flows) == Tally(0, 0, 0, 0, 0, 0)
  {
    hide Inv, FlowsInv, Sum;
    TotalsOf(s);
    AllGone(s.flows, s.received);
  }

  /** MaxFlows: the units in use are the table's entries, the releases still
      owed and what other ServeUDP calls hold, never more than MaxFlows; the
      gauges are the entries in each state; and when nothing runs all of this
      call's units are back. */
  lemma UnitsAndGauges(max: nat, bare: nat, active: bool, s: State)
    requires Reachable(max, bare, active, s)
    ensures
            && s.units == |s.all| + Sum(s.flows).releases + PendingReleases(s.todo) + s.otherUnits <= max
            && |s.all| <= max
            && s.opening == Sum(s.flows).opening + s.otherOpening <= OPENING_MAX
            && s.open == Sum(s.flows).open && s.held == Sum(s.flows).held
            && TableInv(s.table, s.all, s.flows)
            && (Quiet(s) ==>
                  && s.units == s.otherUnits && s.opening == s.otherOpening
                  && s.open == 0 && s.held == 0 && s.all == [])
  {
    hide Exec, Sum;
    var steps :| s == Exec(Init(max, bare, active), steps);
    RunInv(max, bare, active, steps);
    MaxKept(max, bare, active, steps);
    TotalsOf(s);
    SumBounds(s.flows);
    TableKept(s);
    if Quiet(s) { AllGoneIn(s); }
  }

  lemma TableKept(s: State)
    requires Inv(s)
    ensures TableInv(s.table, s.all, s.flows)
  {
    hide ReaderInv, DoneInv, FlowsInv, Sum, TableInv;
  }

  lemma {:induction false} MaxKept(max: nat, bare: nat, active: bool, steps: seq<Step>)
    ensures Exec(Init(max, bare, active), steps).max == max
    ensures Exec(Init(max, bare, active), steps).promoteActive == active
    decreases |steps|
  {
    hide Do;
    if steps != [] {
      MaxKept(max, bare, active, steps[..|steps| - 1]);
      StepMax(Exec(Init(max, bare, active), steps[..|steps| - 1]), steps[|steps| - 1]);
    }
  }

  lemma GaugesMax(s: State, st: FlowState, delta: int)
    ensures Gauges(s, st, delta).max == s.max && Gauges(s, st, delta).received == s.received
    ensures Gauges(s, st, delta).promoteActive == s.promoteActive
  {
  }

  lemma DelMax(s: State, f: nat)
    requires f < |s.flows|
    ensures Del(s, f).max == s.max && Del(s, f).received == s.received
    ensures Del(s, f).promoteActive == s.promoteActive
  {
  }

  lemma RemoveMax(s: State, f: nat)
    requires f < |s.flows|
    ensures Remove(s, f).max == s.max && Remove(s, f).received == s.received
    ensures Remove(s, f).promoteActive == s.promoteActive
  {
    hide Gauges, Del;
    var e := s.flows[f];
    GaugesMax(s, e.state, -1);
    DelMax(SetFlow(Gauges(s, e.state, -1), f, Out(e)), f);
  }

  /** The limits and the datagrams received. */
  predicate SameLimits(s: State, r: State) {
    r.max == s.max && r.promoteActive == s.promoteActive && r.received == s.received
  }

  lemma ReaderMax(s: State, step: Step)
    requires step.EnterLock? || step.WriteReturns? || step.ReplaceLock?
    ensures SameLimits(s, Do(s, step))
  {
    hide Admit, Replace, Known, WriteDone, SampleOk, VictimOk;
    match step
    case EnterLock(now, sample, v) =>
      if s.reader.Entering? {
        if v.Some? ==> v.value < |s.flows| { AdmitMax(s, s.reader.d, now, v); }
        if s.reader.d.src in s.table && s.table[s.reader.d.src] < |s.flows| {
          KnownMax(s, s.table[s.reader.d.src], s.reader.d, now, s.reader.again);
        }
      }
    case WriteReturns(w, now) =>
      if s.reader.Writing? && s.reader.f < |s.flows| { WriteMax(s, s.reader.f, s.reader.d, w, now, s.reader.again); }
    case ReplaceLock(now) =>
      if s.reader.Replacing? && s.reader.f < |s.flows| {
        ReplaceMax(s, s.reader.f, s.reader.d, s.reader.err, now, s.reader.again);
      }
  }

  lemma ActsMax(s: State, step: Step)
    requires step.ReaderActs? || step.FlowActs?
    ensures SameLimits(s, Do(s, step))
  {
    hide Perform;
    if step.ReaderActs? {
      if s.todo != [] { PerformMax(s.(todo := s.todo[1..]), s.todo[0]); }
    } else if step.f < |s.flows| && s.flows[step.f].todo != [] {
      var e := s.flows[step.f];
      PerformMax(SetFlow(s, step.f, e.(todo := e.todo[1..])), e.todo[0]);
    }
  }

  lemma GoroutineMax(s: State, step: Step)
    requires step.DialReturns? || step.MoveFirstLock? || step.FlushLock? || step.FlushWrites?
             || step.SessionEnds? || step.OpenFailedLock? || step.EndLock? || step.HoldLock? || step.Replies?
    ensures SameLimits(s, Do(s, step))
  {
    hide DoFlow;
    if step.f < |s.flows| { FlowMax(s, step); }
  }

  lemma EnvMax(s: State, step: Step)
    requires step.Receive? || step.ReaderReturns? || step.Promotes? || step.Halt? || step.Shutdown?
             || step.OtherUnit? || step.OtherOpening?
    ensures SameLimits(s.(received := Do(s, step).received), Do(s, step))
    ensures !step.Receive? ==> Do(s, step).received == s.received
  {
  }

  lemma StepMax(s: State, step: Step)
    ensures Do(s, step).max == s.max && Do(s, step).promoteActive == s.promoteActive
    ensures !step.Receive? ==> Do(s, step).received == s.received
  {
    hide Do;
    match step
    case EnterLock(_, _, _) => ReaderMax(s, step);
    case WriteReturns(_, _) => ReaderMax(s, step);
    case ReplaceLock(_) => ReaderMax(s, step);
    case ReaderActs => ActsMax(s, step);
    case FlowActs(_) => ActsMax(s, step);
    case DialReturns(_, _, _, _, _, _) => GoroutineMax(s, step);
    case MoveFirstLock(_) => GoroutineMax(s, step);
    case FlushLock(_) => GoroutineMax(s, step);
    case FlushWrites(_, _, _) => GoroutineMax(s, step);
    case SessionEnds(_, _) => GoroutineMax(s, step);
    case OpenFailedLock(_) => GoroutineMax(s, step);
    case EndLock(_, _) => GoroutineMax(s, step);
    case HoldLock(_) => GoroutineMax(s, step);
    case Replies(_, _) => GoroutineMax(s, step);
    case _ => EnvMax(s, step);
  }

  lemma KnownMax(s: State, f: nat, d: Dgram, now: int, again: bool)
    requires f < |s.flows|
    ensures Known(s, f, d, now, again).max == s.max && Known(s, f, d, now, again).received == s.received
    ensures Known(s, f, d, now, again).promoteActive == s.promoteActive
  {
    hide Push;
  }

  lemma WriteMax(s: State, f: nat, d: Dgram, w: Write, now: int, again: bool)
    requires f < |s.flows|
    ensures WriteDone(s, f, d, w, now, again).max == s.max && WriteDone(s, f, d, w, now, again).received == s.received
    ensures WriteDone(s, f, d, w, now, again).promoteActive == s.promoteActive
  {
  }

  lemma PerformMax(s: State, a: Action)
    ensures Perform(s, a).max == s.max && Perform(s, a).received == s.received
    ensures Perform(s, a).promoteActive == s.promoteActive
  {
    hide Counts.Add;
  }

  lemma AdmitMax(s: State, d: Dgram, now: int, v: Option<nat>)
    requires v.Some? ==> v.value < |s.flows|
    ensures Admit(s, d, now, v).max == s.max && Admit(s, d, now, v).received == s.received
    ensures Admit(s, d, now, v).promoteActive == s.promoteActive
  {
    hide Remove, Place;
    PlaceMax(s.(units := s.units + 1), d, now, []);
    if v.Some? {
      RemoveMax(SetFlow(s, v.value, s.flows[v.value].(evicted := s.flows[v.value].state == FlowOpen)), v.value);
      PlaceMax(Evict(s, v.value), d, now, [CloseDone(v.value)]);
    }
  }

  lemma ReplaceMax(s: State, f: nat, d: Dgram, err: EndErr, now: int, again: bool)
    requires f < |s.flows|
    ensures Replace(s, f, d, err, now, again).max == s.max && Replace(s, f, d, err, now, again).received == s.received
    ensures Replace(s, f, d, err, now, again).promoteActive == s.promoteActive
  {
    hide Remove, SetState, Place, SetFlow;
    RemoveMax(s, f);
    HeldMax(s, f);
    PlaceMax(Remove(s, f), d, now, []);
  }

  lemma HeldMax(s: State, f: nat)
    requires f < |s.flows|
    ensures var s1 := SetState(s, f, FlowHeld);
            var r := SetFlow(s1, f, s1.flows[f].(peerEnd := true));
            r.max == s.max && r.received == s.received && r.promoteActive == s.promoteActive
  {
    hide SetState;
    StateMax(s, f, FlowHeld);
  }

  lemma StateMax(s: State, f: nat, st: FlowState)
    requires f < |s.flows|
    ensures SetState(s, f, st).max == s.max && SetState(s, f, st).received == s.received
    ensures SetState(s, f, st).promoteActive == s.promoteActive
  {
    hide Gauges;
    GaugesMax(s, s.flows[f].state, -1);
    GaugesMax(Gauges(s, s.flows[f].state, -1), st, 1);
  }

  lemma PlaceMax(s: State, d: Dgram, now: int, todo: seq<Action>)
    ensures Place(s, d, now, todo).max == s.max && Place(s, d, now, todo).received == s.received
    ensures Place(s, d, now, todo).promoteActive == s.promoteActive
  {
    hide NewFlow;
  }

  lemma FlowMax(s: State, step: Step)
    requires step.DialReturns? || step.MoveFirstLock? || step.FlushLock? || step.FlushWrites?
             || step.SessionEnds? || step.OpenFailedLock? || step.EndLock? || step.HoldLock? || step.Replies?
    requires step.f < |s.flows|
    ensures DoFlow(s, step).max == s.max && DoFlow(s, step).received == s.received
    ensures DoFlow(s, step).promoteActive == s.promoteActive
  {
    hide Remove, SetState, FlushOne, DialOk, MovedFirst, Waiting, OpenFailed;
    var f, e := step.f, s.flows[step.f];
    match step
    case OpenFailedLock(_) => if e.pc.DialFailed? { OpenFailedMax(s, f, e.pc.stopping); }
    case FlushLock(_) => StateMax(s, f, FlowOpen);
    case EndLock(_, _) =>
      RemoveMax(SetFlow(s, f, e.(pc := Exited)), f);
      StateMax(SetFlow(s, f, e.(pc := Holding)), f, FlowHeld);
    case HoldLock(_) => RemoveMax(SetFlow(s, f, e.(pc := Exited, todo := if e.gone then [] else [Release])), f);
    case _ =>
  }

  lemma OpenFailedMax(s: State, f: nat, stopping: bool)
    requires f < |s.flows|
    ensures OpenFailed(s, f, stopping).max == s.max && OpenFailed(s, f, stopping).received == s.received
    ensures OpenFailed(s, f, stopping).promoteActive == s.promoteActive
  {
    hide Remove, Dropped;
    var e := s.flows[f];
    OpenFailedShape(s, f, stopping);
    RemoveMax(SetFlow(s, f, Failed(e, stopping, [Release, Count(DropOpenQueue, Dropped(e))])), f);
  }

  /** The order of one session: its calls come in the order of arrival, and
      only its own client's datagrams reach it. */
  lemma SessionOrder(max: nat, bare: nat, active: bool, s: State, f: nat)
    requires Reachable(max, bare, active, s)
    requires f < |s.flows|
    ensures var e := s.flows[f];
            && (forall i, j :: 0 <= i < j < |e.calls| ==> e.calls[i].id < e.calls[j].id)
            && (forall i :: 0 <= i < |e.calls| ==> e.calls[i].src == e.client)
  {
    hide Exec;
    var steps :| s == Exec(Init(max, bare, active), steps);
    RunInv(max, bare, active, steps);
    FlowOf(s, f);
    CallsOrdered(s.flows[f]);
  }

  lemma CallsOrdered(e: Flow)
    requires FlowInv(e)
    ensures forall i, j :: 0 <= i < j < |e.calls| ==> e.calls[i].id < e.calls[j].id
    ensures From(e.calls, e.client)
  {
    forall i, j | 0 <= i < j < |e.calls| ensures e.calls[i].id < e.calls[j].id {
      assert Chain(e)[i] == e.calls[i].id && Chain(e)[j] == e.calls[j].id;
    }
  }

  /** `done` closes at most once, only once the entry left the table; and a
      replace re-enters `datagram` at most once, as a newcomer. */
  lemma ClosedOnceAndReentryOnce(max: nat, bare: nat, active: bool, s: State)
    requires Reachable(max, bare, active, s)
    ensures
            && (forall v :: 0 <= v < |s.flows| ==>
                  s.flows[v].doneCloses <= 1 && (s.flows[v].doneCloses == 1 ==> s.flows[v].gone))
            && (s.reader.Entering? && s.reader.again ==> s.reader.d.src !in s.table)
            && (s.reader.Writing? || s.reader.Replacing? ==> !s.reader.again)
  {
    hide Exec;
    var steps :| s == Exec(Init(max, bare, active), steps);
    RunInv(max, bare, active, steps);
    ReaderOf(s);
    DoneOf(s);
  }

  lemma DoneOf(s: State)
    requires Inv(s)
    ensures DoneInv(s)
  {
    hide ReaderInv, TableInv, FlowsInv, Totals, DoneInv;
  }

  lemma DelStates(s: State, v: nat, f: nat)
    requires v < |s.flows| && f < |s.flows|
    ensures |Del(s, v).flows| == |s.flows|
    ensures Del(s, v).flows[f].state == s.flows[f].state && Del(s, v).flows[f].gone == s.flows[f].gone
  {
  }

  lemma RemoveStates(s: State, v: nat, f: nat)
    requires v < |s.flows| && f < |s.flows|
    ensures f != v ==> Remove(s, v).flows[f].state == s.flows[f].state && Remove(s, v).flows[f].gone == s.flows[f].gone
    ensures Remove(s, v).flows[v].state == (if s.flows[v].gone then s.flows[v].state else FlowGone)
    ensures Remove(s, v).stopped == s.stopped
  {
    hide Gauges, Del;
    var e := s.flows[v];
    GaugesKeep(s, e.state, -1);
    var s1 := SetFlow(Gauges(s, e.state, -1), v, Out(e));
    DelStates(s1, v, f);
    DelStates(s1, v, v);
    DelKeeps(s1, v);
  }

  lemma DelKeeps(s: State, v: nat)
    requires v < |s.flows|
    ensures Del(s, v).stopped == s.stopped
  {
  }

  /** A newcomer never pushes out an opening flow, nor an open one that is a stream. */
  lemma EvictionSpares(s: State, now: int, sample: seq<nat>, v: Option<nat>, f: nat)
    requires Inv(s) && f < |s.flows|
    requires s.flows[f].state == FlowOpening || (s.flows[f].state == FlowOpen && s.flows[f].stream)
    ensures var r := Do(s, EnterLock(now, sample, v));
            f < |r.flows| && r.flows[f].state == s.flows[f].state && r.flows[f].gone == s.flows[f].gone
  {
    hide Inv, VictimOk, SampleOk, Known, Admit;
    ReaderOf(s);
    if s.reader.Entering? {
      if s.reader.d.src in s.table {
        KnownStates(s, s.table[s.reader.d.src], s.reader.d, now, s.reader.again, f);
      } else if VictimOk(s, sample, now, v) && (v.Some? ==> v.value < |s.flows|) {
        if v.Some? { VictimSafe(s, sample, now, v); }
        AdmitStates(s, s.reader.d, now, v, f);
      }
    }
  }

  lemma KnownStates(s: State, g: nat, d: Dgram, now: int, again: bool, f: nat)
    requires g < |s.flows| && f < |s.flows|
    ensures var r := Known(s, g, d, now, again);
            f < |r.flows| && r.flows[f].state == s.flows[f].state && r.flows[f].gone == s.flows[f].gone
  {
    hide Push;
    PushSame(s.flows[g].(last := now), d.(at := now));
  }

  lemma AdmitStates(s: State, d: Dgram, now: int, v: Option<nat>, f: nat)
    requires (v.Some? ==> v.value < |s.flows|) && f < |s.flows| && v != Some(f)
    ensures var r := Admit(s, d, now, v);
            f < |r.flows| && r.flows[f].state == s.flows[f].state && r.flows[f].gone == s.flows[f].gone
  {
    hide NewFlow, Remove;
    if v.Some? {
      RemoveStates(SetFlow(s, v.value, s.flows[v.value].(evicted := s.flows[v.value].state == FlowOpen)), v.value, f);
    }
  }

  lemma PushSame(e: Flow, d: Dgram)
    ensures Push(e, d).0.state == e.state && Push(e, d).0.gone == e.gone
  {
  }

  lemma PerformStates(s: State, a: Action, f: nat)
    requires f < |s.flows|
    ensures var r := Perform(s, a);
            r.stopped == s.stopped && |r.flows| == |s.flows| && r.flows[f].state == s.flows[f].state
  {
    hide Counts.Add;
  }

  /** After the stop no entry becomes open or held any more. */
  lemma StopIsFinal(s: State, step: Step, f: nat)
    requires Inv(s) && s.stopped && f < |s.flows|
    ensures var r := Do(s, step);
            r.stopped && f < |r.flows| && (r.flows[f].state == s.flows[f].state || r.flows[f].state == FlowGone)
  {
    hide Inv, VictimOk, SampleOk, Known, Admit, WriteDone, Replace, DoFlow, Perform;
    ReaderOf(s);
    if step.ReaderActs? && s.todo != [] {
      PerformStates(s.(todo := s.todo[1..]), s.todo[0], f);
    } else if step.FlowActs? && step.f < |s.flows| && s.flows[step.f].todo != [] {
      var e := s.flows[step.f];
      PerformStates(SetFlow(s, step.f, e.(todo := e.todo[1..])), e.todo[0], f);
    } else if step.DialReturns? || step.MoveFirstLock? || step.FlushLock? || step.FlushWrites?
       || step.SessionEnds? || step.OpenFailedLock? || step.EndLock? || step.HoldLock? || step.Replies? {
      if step.f < |s.flows| { StoppedFlow(s, step, f); }
    }
  }

  lemma DialState(e: Flow, rode: bool, mp: nat, now: int)
    ensures DialOk(e, rode, mp, now).state == e.state
  {
  }

  lemma StoppedFlow(s: State, step: Step, f: nat)
    requires step.DialReturns? || step.MoveFirstLock? || step.FlushLock? || step.FlushWrites?
             || step.SessionEnds? || step.OpenFailedLock? || step.EndLock? || step.HoldLock? || step.Replies?
    requires s.stopped && f < |s.flows| && step.f < |s.flows|
    ensures var r := DoFlow(s, step);
            r.stopped && f < |r.flows| && (r.flows[f].state == s.flows[f].state || r.flows[f].state == FlowGone)
  {
    hide Remove, SetState, FlushOne, Waiting, OpenFailed, DialOk;
    var g, e := step.f, s.flows[step.f];
    match step
    case DialReturns(_, now, _, rode, mp, _) => DialState(e, rode, mp, now);
    case OpenFailedLock(_) =>
      if e.pc.DialFailed? { OpenFailedStopped(s, g, e.pc.stopping, f); }
    case EndLock(_, now) =>
      if e.pc.Ending? && !e.gone && e.state != FlowHeld {
        RemoveStates(SetFlow(s, g, e.(pc := Exited)), g, f);
      }
    case HoldLock(_) =>
      if e.pc.Holding? {
        RemoveStates(SetFlow(s, g, e.(pc := Exited, todo := if e.gone then [] else [Release])), g, f);
      }
    case FlushWrites(_, now, w) => if e.batch != [] { FlushState(e, now, w); }
    case _ =>
  }

  lemma FlushState(e: Flow, now: int, w: Write)
    requires e.batch != []
    ensures FlushOne(e, now, w).state == e.state
  {
  }

  lemma OpenFailedStopped(s: State, g: nat, stopping: bool, f: nat)
    requires s.stopped && f < |s.flows| && g < |s.flows|
    ensures var r := OpenFailed(s, g, stopping);
            r.stopped && f < |r.flows| && (r.flows[f].state == s.flows[f].state || r.flows[f].state == FlowGone)
  {
    hide Remove, Dropped;
    OpenFailedShape(s, g, stopping);
    var todo := [Release, Count(DropOpenQueue, Dropped(s.flows[g]))];
    RemoveStates(SetFlow(s, g, Failed(s.flows[g], stopping, todo)), g, f);
  }
}
