/** Which counter a step of the UDP ingress adds to: every step names at most
    one, and leaves what the other six show, or are about to show, as it was. */
module IngressCounters {
  import opened Ingress
  import opened IngressSafety
  import opened IngressRuns
  import opened IngressPlaces

  /** At most one counter is named, after a release. */
  predicate Simple(todo: seq<Action>) { |todo| <= 2 && (|todo| == 2 ==> todo[0] == Release) }

  lemma SimplePending(todo: seq<Action>, k: Counter)
    requires Simple(todo) && Named(todo) != Some(k)
    ensures Pending(todo, k) == 0
  {
    if |todo| == 2 {
      assert todo == [Release, todo[1]] && todo[1..] == [todo[1]] && todo[1..][1..] == [];
    } else if |todo| == 1 {
      assert todo[1..] == [];
    }
  }

  /** The entries owe what they did, a new one nothing. */
  ghost predicate SameOwed(fs: seq<Flow>, gs: seq<Flow>) {
    && |fs| <= |gs| <= |fs| + 1 && (forall i :: 0 <= i < |fs| ==> gs[i].todo == fs[i].todo)
    && (|gs| > |fs| ==> gs[|fs|].todo == [])
  }

  lemma {:induction false} SameOwedIn(fs: seq<Flow>, gs: seq<Flow>, k: Counter)
    requires SameOwed(fs, gs)
    ensures In(fs, Owing(k)) == In(gs, Owing(k))
    decreases |gs|
  {
    if |gs| > |fs| {
      SameOwedIn(fs, gs[..|fs|], k);
    } else if fs != [] {
      var n := |fs| - 1;
      SameOwedIn(fs[..n], gs[..n], k);
    }
  }

  lemma SameFlowsOwe(fs: seq<Flow>, gs: seq<Flow>)
    requires SameFlows(fs, gs)
    ensures SameOwed(fs, gs)
  {
    forall i | 0 <= i < |fs| ensures gs[i].todo == fs[i].todo { assert SameHold(fs[i], gs[i]); }
  }

  /** What one step adds to counter k is what it names. */
  ghost predicate OneKind(s: State, step: Step, k: Counter) {
    Decision(Do(s, step), step) != Some(k) ==> Ledger(Do(s, step), k) == Ledger(s, k)
  }

  lemma ReaderOwes(s: State, step: Step, k: Counter)
    requires ReaderStep(step) && s.todo == []
    requires var r := Do(s, step); SameOwed(s.flows, r.flows) && r.counts == s.counts && Simple(r.todo)
    ensures OneKind(s, step, k)
  {
    hide Do, In, SameOwed, Simple, Named;
    var r := Do(s, step);
    SameOwedIn(s.flows, r.flows, k);
    if Named(r.todo) != Some(k) { SimplePending(r.todo, k); }
  }

  lemma FlowOwes(s: State, step: Step, e1: Flow, k: Counter)
    requires FlowStep(step) && step.f < |s.flows| && s.flows[step.f].todo == [] && Simple(e1.todo)
    requires var r := Do(s, step);
             SameOwed(s.flows[step.f := e1], r.flows) && r.counts == s.counts && r.todo == s.todo
             && |r.flows| == |s.flows|
    ensures OneKind(s, step, k)
  {
    hide Do, In, Simple, Named;
    var r, f := Do(s, step), step.f;
    InUpdate(s.flows, f, e1, Owing(k));
    SameOwedIn(s.flows[f := e1], r.flows, k);
    assert r.flows[f].todo == e1.todo;
    if Named(e1.todo) != Some(k) { SimplePending(e1.todo, k); }
  }

  lemma PlaceOwes(s: State, m: State, d: Dgram, now: int, todo: seq<Action>)
    requires SameFlows(s.flows, m.flows)
    ensures SameOwed(s.flows, Place(m, d, now, todo).flows)
  {
    SameFlowsOwe(s.flows, m.flows);
    NewHolds(m.(opening := m.opening + 1), d, now, 0);
  }

  lemma AdmitKind(s: State, step: Step, k: Counter)
    requires step.EnterLock? && s.reader.Entering? && s.todo == [] && s.reader.d.src !in s.table
    requires SampleOk(s, step.sample) && VictimOk(s, step.sample, step.now, step.v)
             && (step.v.Some? ==> step.v.value < |s.flows|)
    ensures OneKind(s, step, k)
  {
    hide Evict, Place, SampleOk, VictimOk, OneKind, SameOwed, SameFlows;
    var d, v, now := s.reader.d, step.v, step.now;
    assert Do(s, step) == Admit(s, d, now, v);
    SameSelf(s.flows);
    SameFlowsOwe(s.flows, s.flows);
    var full := s.units >= s.max;
    if v.Some? {
      EvictFlows(s, v.value);
      PlaceOwes(s, Evict(s, v.value), d, now, [CloseDone(v.value)]);
      PlaceFrame(Evict(s, v.value), d, now, [CloseDone(v.value)]);
    }
    PlaceOwes(s, s.(units := s.units + 1), d, now, []);
    PlaceFrame(s.(units := s.units + 1), d, now, []);
    ReaderOwes(s, step, k);
  }

  lemma PlaceFrame(s: State, d: Dgram, now: int, todo: seq<Action>)
    ensures Place(s, d, now, todo).counts == s.counts && Place(s, d, now, todo).todo == todo
  {
  }

  lemma KnownOwes(s: State, f: nat, d: Dgram, now: int, again: bool)
    requires f < |s.flows| && s.todo == []
    ensures var r := Known(s, f, d, now, again); SameOwed(s.flows, r.flows) && r.counts == s.counts && Simple(r.todo)
  {
    hide Push;
    PushHolds(s.flows[f], d, now, 0);
  }

  lemma KnownKind(s: State, step: Step, k: Counter)
    requires step.EnterLock? && s.reader.Entering? && s.todo == []
    requires s.reader.d.src in s.table && s.table[s.reader.d.src] < |s.flows|
    ensures OneKind(s, step, k)
  {
    hide SampleOk, VictimOk, Admit, Known, OneKind, SameOwed, Simple;
    var f := s.table[s.reader.d.src];
    assert Do(s, step) == Known(s, f, s.reader.d, step.now, s.reader.again);
    KnownOwes(s, f, s.reader.d, step.now, s.reader.again);
    ReaderOwes(s, step, k);
  }

  lemma WriteKind(s: State, step: Step, k: Counter)
    requires step.WriteReturns? && s.reader.Writing? && s.todo == [] && s.reader.f < |s.flows|
    ensures OneKind(s, step, k)
  {
    hide OneKind;
    ReaderOwes(s, step, k);
  }

  lemma ReplaceKind(s: State, step: Step, k: Counter)
    requires step.ReplaceLock? && s.reader.Replacing? && s.todo == [] && s.reader.f < |s.flows|
    ensures OneKind(s, step, k)
  {
    hide SetState, Remove, Place, SameFlows, OneKind, SameOwed;
    var d, f, now := s.reader.d, s.reader.f, step.now;
    assert Do(s, step) == Replace(s, f, d, s.reader.err, now, s.reader.again);
    SameSelf(s.flows);
    SameFlowsOwe(s.flows, s.flows);
    StateFlows(s, f, FlowHeld);
    ReplaceHolds(s, f);
    var s1 := SetState(s, f, FlowHeld);
    SameFlowsOwe(s.flows, SetFlow(s1, f, s1.flows[f].(peerEnd := true)).flows);
    RemoveFlows(s, f);
    SameFlowsOwe(s.flows, Remove(s, f).flows);
    PlaceOwes(s, Remove(s, f), d, now, []);
    PlaceFrame(Remove(s, f), d, now, []);
    ReaderOwes(s, step, k);
  }

  lemma FlowKind(s: State, step: Step, k: Counter)
    requires FlowStep(step) && step.f < |s.flows| && s.flows[step.f].todo == []
    ensures OneKind(s, step, k)
  {
    hide OneKind, FlushTake, OpenFailed, End, HoldEnd, FlushOne, DialOk, MovedFirst;
    var f := step.f;
    var e := s.flows[f];
    match step
    case DialReturns(_, _, _, _, _, _) => if e.pc.Dialing? { DialKind(s, step, k); } else { IdleKind(s, step, k); }
    case MoveFirstLock(_) =>
      if e.pc.MoveFirst? && e.first.Some? { MoveKind(s, step, k); } else { IdleKind(s, step, k); }
    case FlushWrites(_, _, _) =>
      if e.pc.Flushing? && e.batch != [] { WritesKind(s, step, k); } else { IdleKind(s, step, k); }
    case FlushLock(_) => if e.pc.Flushing? && e.batch == [] { FlushKind(s, step, k); } else { IdleKind(s, step, k); }
    case OpenFailedLock(_) => if e.pc.DialFailed? { FailedKind(s, step, k); } else { IdleKind(s, step, k); }
    case EndLock(_, _) => if e.pc.Ending? { EndKind(s, step, k); } else { IdleKind(s, step, k); }
    case HoldLock(_) => if e.pc.Holding? { HoldKind(s, step, k); } else { IdleKind(s, step, k); }
    case _ => if e.pc.Pumping? { PumpKind(s, step, k); } else { IdleKind(s, step, k); }
  }

  lemma IdleKind(s: State, step: Step, k: Counter)
    requires Do(s, step) == s
    ensures OneKind(s, step, k)
  {
    hide Do;
  }

  /** Entry f alone becomes e1. */
  lemma LocalKind(s: State, step: Step, e1: Flow, k: Counter)
    requires FlowStep(step) && step.f < |s.flows| && s.flows[step.f].todo == [] && Simple(e1.todo)
    requires var r := Do(s, step); r.flows == s.flows[step.f := e1] && r.counts == s.counts && r.todo == s.todo
    ensures OneKind(s, step, k)
  {
    hide OneKind, Do, Simple;
    FlowOwes(s, step, e1, k);
  }

  lemma DialKind(s: State, step: Step, k: Counter)
    requires step.DialReturns? && step.f < |s.flows| && s.flows[step.f].todo == [] && s.flows[step.f].pc.Dialing?
    ensures OneKind(s, step, k)
  {
    hide OneKind, DialOk;
    var e := s.flows[step.f];
    var halted := s.cancelled || step.peerClosed;
    DialTodo(e, step.rode, step.maxPayload, step.now);
    var e1 := if step.ok then DialOk(e, step.rode, step.maxPayload, step.now) else e.(pc := DialFailed(halted));
    LocalKind(s, step, e1, k);
  }

  lemma DialTodo(e: Flow, rode: bool, mp: nat, now: int)
    requires e.todo == []
    ensures Simple(DialOk(e, rode, mp, now).todo)
  {
  }

  lemma MoveKind(s: State, step: Step, k: Counter)
    requires step.MoveFirstLock? && step.f < |s.flows| && s.flows[step.f].todo == []
    requires s.flows[step.f].pc.MoveFirst? && s.flows[step.f].first.Some?
    ensures OneKind(s, step, k)
  {
    hide OneKind;
    LocalKind(s, step, MovedFirst(s.flows[step.f]), k);
  }

  lemma WritesKind(s: State, step: Step, k: Counter)
    requires step.FlushWrites? && step.f < |s.flows| && s.flows[step.f].todo == []
    requires s.flows[step.f].pc.Flushing? && s.flows[step.f].batch != []
    ensures OneKind(s, step, k)
  {
    hide OneKind, FlushFate;
    LocalKind(s, step, FlushOne(s.flows[step.f], step.now, step.w), k);
  }

  lemma PumpKind(s: State, step: Step, k: Counter)
    requires (step.SessionEnds? || step.Replies?) && step.f < |s.flows|
    requires s.flows[step.f].todo == [] && s.flows[step.f].pc.Pumping?
    ensures OneKind(s, step, k)
  {
    hide OneKind;
    var e := s.flows[step.f];
    LocalKind(s, step, if step.Replies? then e.(last := step.now) else e.(pc := Ending(step.err)), k);
  }

  lemma FlushKind(s: State, step: Step, k: Counter)
    requires step.FlushLock? && step.f < |s.flows| && s.flows[step.f].todo == []
    requires s.flows[step.f].pc.Flushing? && s.flows[step.f].batch == []
    ensures OneKind(s, step, k)
  {
    hide OneKind, SetState, Waiting, SameFlows;
    var f := step.f;
    var r := FlushTake(s, f);
    assert r == Do(s, step);
    if !s.stopped && Waiting(s.flows[f]) == [] {
      OpensSame(s, f);
      StateFlows(s, f, FlowOpen);
      SameFlowsOwe(s.flows, r.flows);
      FlowOwes(s, step, s.flows[f], k);
    } else {
      FlowOwes(s, step, r.flows[f], k);
    }
  }

  lemma FailedKind(s: State, step: Step, k: Counter)
    requires step.OpenFailedLock? && step.f < |s.flows| && s.flows[step.f].todo == [] && s.flows[step.f].pc.DialFailed?
    ensures OneKind(s, step, k)
  {
    hide OneKind, SetState, Remove, Waiting, Emptied, SameOwed;
    var f := step.f;
    var e := s.flows[f];
    assert Do(s, step) == OpenFailed(s, f, e.pc.stopping);
    var n := |Waiting(e)| + if e.first.Some? then 1 else 0;
    var e0 := Emptied(e).(first := None, pc := if e.pc.stopping then Exited else Holding);
    if e.pc.stopping || s.stopped {
      RemovedKind(s, step, e0.(todo := [Release, Count(DropOpenQueue, n)]), k);
    } else {
      HeldKind(s, step, e0.(todo := [Count(DropHeld, n)]), k);
    }
  }

  /** Entry f becomes e1 and leaves the table. */
  lemma RemovedKind(s: State, step: Step, e1: Flow, k: Counter)
    requires FlowStep(step) && step.f < |s.flows| && s.flows[step.f].todo == [] && Simple(e1.todo)
    requires Do(s, step) == Remove(SetFlow(s, step.f, e1), step.f)
    ensures OneKind(s, step, k)
  {
    hide OneKind, Do, Remove, SameOwed, Simple;
    RemovedOwes(s, step.f, e1);
    FlowOwes(s, step, e1, k);
  }

  /** Entry f becomes e1 and is held. */
  lemma HeldKind(s: State, step: Step, e1: Flow, k: Counter)
    requires FlowStep(step) && step.f < |s.flows| && s.flows[step.f].todo == [] && Simple(e1.todo)
    requires Do(s, step) == SetState(SetFlow(s, step.f, e1), step.f, FlowHeld)
    ensures OneKind(s, step, k)
  {
    hide OneKind, Do, SetState, SameOwed, Simple;
    StatedOwes(s, step.f, e1);
    FlowOwes(s, step, e1, k);
  }

  lemma RemovedOwes(s: State, f: nat, e1: Flow)
    requires f < |s.flows|
    ensures var r := Remove(SetFlow(s, f, e1), f);
            SameOwed(s.flows[f := e1], r.flows) && r.counts == s.counts && r.todo == s.todo && |r.flows| == |s.flows|
  {
    hide Remove, SameOwed;
    RemoveFlows(SetFlow(s, f, e1), f);
    SameFlowsOwe(s.flows[f := e1], Remove(SetFlow(s, f, e1), f).flows);
  }

  lemma StatedOwes(s: State, f: nat, e1: Flow)
    requires f < |s.flows|
    ensures var r := SetState(SetFlow(s, f, e1), f, FlowHeld);
            SameOwed(s.flows[f := e1], r.flows) && r.counts == s.counts && r.todo == s.todo && |r.flows| == |s.flows|
  {
    hide SetState, SameOwed;
    StateFlows(SetFlow(s, f, e1), f, FlowHeld);
    SameFlowsOwe(s.flows[f := e1], SetState(SetFlow(s, f, e1), f, FlowHeld).flows);
  }

  lemma EndKind(s: State, step: Step, k: Counter)
    requires step.EndLock? && step.f < |s.flows| && s.flows[step.f].todo == [] && s.flows[step.f].pc.Ending?
    ensures OneKind(s, step, k)
  {
    hide OneKind, SetState, Remove, SameFlows;
    var f := step.f;
    var e, r := s.flows[f], Do(s, step);
    EndFlows(s, f, e.pc.err, step.now);
    RemoveFlows(SetFlow(s, f, e.(pc := Exited)), f);
    StateFlows(SetFlow(s, f, e.(pc := Holding)), f, FlowHeld);
    SameFlowsOwe(s.flows, r.flows);
    assert s.flows[f := e] == s.flows;
    FlowOwes(s, step, e, k);
  }

  lemma HoldKind(s: State, step: Step, k: Counter)
    requires step.HoldLock? && step.f < |s.flows| && s.flows[step.f].todo == [] && s.flows[step.f].pc.Holding?
    ensures OneKind(s, step, k)
  {
    hide OneKind, Remove;
    var e := s.flows[step.f];
    RemovedKind(s, step, e.(pc := Exited, todo := if e.gone then [] else [Release]), k);
  }

  lemma PerformLedger(s: State, a: Action, k: Counter)
    ensures Ledger(Perform(s, a), k) == Ledger(s, k) + if a.Count? && a.k == k then a.n else 0
  {
    hide In;
    if a.CloseDone? && a.v < |s.flows| {
      var e := s.flows[a.v].(doneCloses := s.flows[a.v].doneCloses + 1);
      SameSet(s.flows, a.v, e);
      SameIn(s.flows, s.flows[a.v := e], Owing(k));
    }
  }

  lemma ActsKind(s: State, step: Step, k: Counter)
    requires step.ReaderActs? || step.FlowActs?
    ensures OneKind(s, step, k)
  {
    hide In, Perform;
    if step.ReaderActs? && s.todo != [] {
      PerformLedger(s.(todo := s.todo[1..]), s.todo[0], k);
    } else if step.FlowActs? && step.f < |s.flows| && s.flows[step.f].todo != [] {
      var e := s.flows[step.f];
      var e1 := e.(todo := e.todo[1..]);
      PerformLedger(SetFlow(s, step.f, e1), e.todo[0], k);
      InUpdate(s.flows, step.f, e1, Owing(k));
    }
  }

  lemma OtherKind(s: State, step: Step, k: Counter)
    requires !FlowStep(step) && !ReaderStep(step)
    ensures OneKind(s, step, k)
  {
    hide In, Perform, OneKind;
    if step.ReaderActs? || step.FlowActs? {
      ActsKind(s, step, k);
    } else if step.Promotes? {
      PromoteKind(s, step, k);
    } else {
      EnvKind(s, step, k);
    }
  }

  lemma PromoteKind(s: State, step: Step, k: Counter)
    requires step.Promotes?
    ensures OneKind(s, step, k)
  {
    hide In;
    if step.f < |s.flows| {
      var e := s.flows[step.f].(stream := true);
      SameRefl(s.flows[step.f], e);
      SameSet(s.flows, step.f, e);
      SameIn(s.flows, s.flows[step.f := e], Owing(k));
    }
  }

  lemma EnvKind(s: State, step: Step, k: Counter)
    requires step.Receive? || step.ReaderReturns? || step.Halt? || step.Shutdown? || step.OtherUnit?
             || step.OtherOpening?
    ensures OneKind(s, step, k)
  {
    hide In;
  }

  lemma ReaderKind(s: State, step: Step, k: Counter)
    requires ReaderStep(step)
    ensures OneKind(s, step, k)
  {
    hide OneKind, Known, Admit, WriteDone, Replace, SampleOk, VictimOk;
    match step
    case EnterLock(now, sample, v) =>
      if s.reader.Entering? && s.todo == [] {
        if s.reader.d.src in s.table {
          if s.table[s.reader.d.src] < |s.flows| { KnownKind(s, step, k); } else { IdleKind(s, step, k); }
        } else if SampleOk(s, sample) && VictimOk(s, sample, now, v) && (v.Some? ==> v.value < |s.flows|) {
          AdmitKind(s, step, k);
        } else {
          IdleKind(s, step, k);
        }
      } else {
        IdleKind(s, step, k);
      }
    case WriteReturns(_, _) =>
      if s.reader.Writing? && s.todo == [] && s.reader.f < |s.flows| {
        WriteKind(s, step, k);
      } else {
        IdleKind(s, step, k);
      }
    case ReplaceLock(_) =>
      if s.reader.Replacing? && s.todo == [] && s.reader.f < |s.flows| {
        ReplaceKind(s, step, k);
      } else {
        IdleKind(s, step, k);
      }
  }

  lemma StepKind(s: State, step: Step, k: Counter)
    ensures OneKind(s, step, k)
  {
    hide OneKind, DoFlow;
    if ReaderStep(step) {
      ReaderKind(s, step, k);
    } else if FlowStep(step) {
      if step.f < |s.flows| && s.flows[step.f].todo == [] { FlowKind(s, step, k); } else { IdleKind(s, step, k); }
    } else {
      OtherKind(s, step, k);
    }
  }
}
