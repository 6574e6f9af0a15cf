/** How old a waiting datagram of the UDP ingress is: the time it carries, by
    which the flush drops it, is the time at which the reader handed it to its
    entry, however long it waits and wherever it is moved. */
module IngressAges {
  import opened Ingress
  import opened IngressSafety
  import opened IngressSteps
  import opened IngressRuns
  import opened IngressPlaces
  import opened IngressFates

  /** d waits at the entry with a time of its own. */
  predicate Queued(e: Flow, d: Dgram) { e.firstQ == Some(d) || d in e.q || d in e.batch }

  /** e1 has nothing waiting that e has not. */
  ghost predicate Within(e: Flow, e1: Flow) {
    && e1.since == e.since && (e1.first.None? || e1.first == e.first)
    && (forall d :: Queued(e1, d) ==> Queued(e, d))
  }

  /** The reader brings datagram id to the table in this step. */
  predicate Enters(s: State, step: Step, id: nat) { (step.EnterLock? || step.ReplaceLock?) && Brings(s, id) }

  /** When the reader last brought datagram id to the table; 0 before it did. */
  function EnteredAt(s: State, steps: seq<Step>, id: nat): int
    decreases |steps|
  {
    if steps == [] then 0
    else
      var before, step := steps[..|steps| - 1], steps[|steps| - 1];
      if Enters(Exec(s, before), step, id) then step.now else EnteredAt(s, before, id)
  }

  /** The reader's datagram, with the time of this step. */
  predicate Handed(s: State, step: Step, d: Dgram) {
    InHand(s.reader) == 1 && (step.EnterLock? || step.ReplaceLock?) && d == s.reader.d.(at := step.now)
  }

  /** What waits at an entry after a step waited before, was just handed over, or is its first datagram moved. */
  ghost predicate Kept(s: State, step: Step, e: Flow, e1: Flow) {
    && e1.since == e.since && (e1.first.None? || e1.first == e.first)
    && (forall d :: Queued(e1, d) ==>
          Queued(e, d) || Handed(s, step, d) || (e.first.Some? && d == e.first.value.(at := e.since)))
  }

  /** A new entry has only the reader's datagram. */
  ghost predicate Newborn(s: State, step: Step, e: Flow) {
    && InHand(s.reader) == 1 && (step.EnterLock? || step.ReplaceLock?) && e.since == step.now
    && (e.first.Some? ==> e.first.value == s.reader.d) && (forall d :: Queued(e, d) ==> Handed(s, step, d))
  }

  ghost predicate Stamps(s: State, step: Step, r: State) {
    && |s.flows| <= |r.flows|
    && (forall f :: 0 <= f < |s.flows| ==> Kept(s, step, s.flows[f], r.flows[f]))
    && (forall f :: |s.flows| <= f < |r.flows| ==> Newborn(s, step, r.flows[f]))
  }

  // ---- parts of a step ----

  lemma WithinKept(s: State, step: Step, e: Flow, e1: Flow)
    requires Within(e, e1)
    ensures Kept(s, step, e, e1)
  {
  }

  lemma SameWithin(e: Flow, e1: Flow)
    requires SameHold(e, e1)
    ensures Within(e, e1)
  {
  }

  /** The entries hold what they did. */
  lemma SameStamps(s: State, step: Step, r: State)
    requires SameFlows(s.flows, r.flows)
    ensures Stamps(s, step, r)
  {
    hide SameHold, Kept, Within;
    forall f | 0 <= f < |s.flows| ensures Kept(s, step, s.flows[f], r.flows[f]) {
      assert SameHold(s.flows[f], r.flows[f]);
      SameWithin(s.flows[f], r.flows[f]);
      WithinKept(s, step, s.flows[f], r.flows[f]);
    }
  }

  /** Entry g becomes e1; then fields that hold nothing change. */
  lemma OneStamps(s: State, step: Step, g: nat, e1: Flow, r: State)
    requires g < |s.flows| && Kept(s, step, s.flows[g], e1) && SameFlows(s.flows[g := e1], r.flows)
    ensures Stamps(s, step, r)
  {
    hide SameHold, Kept, Within;
    forall f | 0 <= f < |s.flows| ensures Kept(s, step, s.flows[f], r.flows[f]) {
      SameAt(s.flows[g := e1], r.flows, f);
      if f == g {
        KeptSame(s, step, s.flows[g], e1, r.flows[g]);
      } else {
        SameWithin(s.flows[f], r.flows[f]);
        WithinKept(s, step, s.flows[f], r.flows[f]);
      }
    }
  }

  lemma KeptSame(s: State, step: Step, e: Flow, e1: Flow, e2: Flow)
    requires Kept(s, step, e, e1) && SameHold(e1, e2)
    ensures Kept(s, step, e, e2)
  {
    assert forall d :: Queued(e2, d) ==> Queued(e1, d);
  }

  /** The newcomer joins entries that hold what they did. */
  lemma PlaceStamps(s: State, step: Step, m: State, todo: seq<Action>)
    requires SameFlows(s.flows, m.flows) && InHand(s.reader) == 1 && (step.EnterLock? || step.ReplaceLock?)
    ensures Stamps(s, step, Place(m, s.reader.d, step.now, todo))
  {
    hide SameHold, Kept, Newborn, NewFlow, SameFlows;
    SameStamps(s, step, m);
    var e := NewFlow(m, s.reader.d, step.now);
    assert NewFlow(m.(opening := m.opening + 1), s.reader.d, step.now) == e by { NewSame(m, s.reader.d, step.now); }
    NewStamps(s, step, m);
    var r := Place(m, s.reader.d, step.now, todo);
    SameCount(s.flows, m.flows);
    assert r.flows == m.flows + [e.(idx := |m.all|)];
  }

  lemma SameCount(fs: seq<Flow>, gs: seq<Flow>)
    requires SameFlows(fs, gs)
    ensures |fs| == |gs|
  {
  }

  lemma NewSame(m: State, d: Dgram, now: int)
    ensures NewFlow(m.(opening := m.opening + 1), d, now) == NewFlow(m, d, now)
  {
  }

  lemma NewStamps(s: State, step: Step, m: State)
    requires InHand(s.reader) == 1 && (step.EnterLock? || step.ReplaceLock?)
    ensures Newborn(s, step, NewFlow(m, s.reader.d, step.now).(idx := |m.all|))
  {
  }

  // ---- the reader's steps ----

  lemma AdmitStamps(s: State, step: Step)
    requires step.EnterLock? && s.reader.Entering? && (step.v.Some? ==> step.v.value < |s.flows|)
    ensures Stamps(s, step, Admit(s, s.reader.d, step.now, step.v))
  {
    hide Stamps, Place, Evict, SameFlows;
    var v := step.v;
    var full := s.units >= s.max;
    SameSelf(s.flows);
    if (full && v.None?) || s.opening >= OPENING_MAX {
      SameStamps(s, step, Admit(s, s.reader.d, step.now, v));
    } else if full {
      EvictFlows(s, v.value);
      PlaceStamps(s, step, Evict(s, v.value), [CloseDone(v.value)]);
    } else {
      PlaceStamps(s, step, s.(units := s.units + 1), []);
    }
  }

  lemma PushStamps(s: State, step: Step, e: Flow)
    requires step.EnterLock? && InHand(s.reader) == 1
    ensures Kept(s, step, e, Push(e.(last := step.now), s.reader.d.(at := step.now)).0)
  {
    hide Overflow, Bytes;
  }

  lemma KnownStamps(s: State, step: Step, f: nat)
    requires step.EnterLock? && s.reader.Entering? && f < |s.flows|
    ensures Stamps(s, step, Known(s, f, s.reader.d, step.now, s.reader.again))
  {
    hide Stamps, Kept, Push, SameHold, SameFlows;
    var e, r := s.flows[f], Known(s, f, s.reader.d, step.now, s.reader.again);
    if e.state == FlowOpening {
      var e1 := Push(e.(last := step.now), s.reader.d.(at := step.now)).0;
      PushStamps(s, step, e);
      SameSelf(s.flows[f := e1]);
      OneStamps(s, step, f, e1, r);
    } else {
      var e1 := e.(last := step.now);
      SameRefl(e, e1);
      SameSet(s.flows, f, e1);
      SameSelf(s.flows);
      SameStamps(s, step, r);
    }
  }

  lemma WriteStamps(s: State, step: Step)
    requires step.WriteReturns? && s.reader.Writing? && s.reader.f < |s.flows|
    ensures Stamps(s, step, WriteDone(s, s.reader.f, s.reader.d, step.w, step.now, s.reader.again))
  {
    hide Stamps, Kept, SameFlows;
    var f := s.reader.f;
    var e := s.flows[f];
    var e1 := e.(last := step.now, calls := e.calls + [s.reader.d]);
    WithinKept(s, step, e, e1);
    SameSelf(s.flows[f := e1]);
    OneStamps(s, step, f, e1, WriteDone(s, f, s.reader.d, step.w, step.now, s.reader.again));
  }

  lemma ReplaceStamps(s: State, step: Step)
    requires step.ReplaceLock? && s.reader.Replacing? && s.reader.f < |s.flows|
    ensures Stamps(s, step, Replace(s, s.reader.f, s.reader.d, s.reader.err, step.now, s.reader.again))
  {
    hide Stamps, SetState, Remove, Place, SameFlows;
    var d, f, err, now := s.reader.d, s.reader.f, s.reader.err, step.now;
    var e, r := s.flows[f], Replace(s, f, d, err, now, s.reader.again);
    SameSelf(s.flows);
    RemoveFlows(s, f);
    if e.client !in s.table || s.table[e.client] != f || e.state == FlowHeld {
      SameStamps(s, step, r);
    } else if err == ErrClosed && now - e.openedAt < REOPEN_HOLD {
      ReplaceHolds(s, f);
      SameStamps(s, step, r);
    } else if s.opening >= OPENING_MAX {
      SameStamps(s, step, r);
    } else {
      PlaceStamps(s, step, Remove(s, f), []);
    }
  }

  lemma ReaderStamps(s: State, step: Step)
    requires ReaderStep(step)
    ensures Stamps(s, step, Do(s, step))
  {
    hide Stamps, Known, Admit, WriteDone, Replace, SampleOk, VictimOk, SameFlows;
    SameSelf(s.flows);
    SameStamps(s, step, s);
    match step
    case EnterLock(now, sample, v) =>
      if s.reader.Entering? && s.todo == [] {
        if s.reader.d.src in s.table {
          if s.table[s.reader.d.src] < |s.flows| { KnownStamps(s, step, s.table[s.reader.d.src]); }
        } else if v.Some? ==> v.value < |s.flows| {
          AdmitStamps(s, step);
        }
      }
    case WriteReturns(_, _) =>
      if s.reader.Writing? && s.reader.f < |s.flows| { WriteStamps(s, step); }
    case ReplaceLock(_) =>
      if s.reader.Replacing? && s.reader.f < |s.flows| { ReplaceStamps(s, step); }
  }

  // ---- the goroutines' steps ----

  lemma MovedKept(s: State, step: Step, e: Flow)
    requires e.first.Some?
    ensures Kept(s, step, e, MovedFirst(e))
  {
  }

  /** Emptied, or taken as the next batch. */
  lemma TakenWithin(e: Flow, e1: Flow)
    requires e1 == Emptied(e).(pc := e1.pc, todo := e1.todo, batch := e1.batch, first := e1.first)
    requires (e1.batch == e.batch || e1.batch == Waiting(e)) && (e1.first.None? || e1.first == e.first)
    ensures Within(e, e1)
  {
  }

  lemma FlushStamps(s: State, step: Step, f: nat)
    requires f < |s.flows|
    ensures Stamps(s, step, FlushTake(s, f))
  {
    hide Stamps, Kept, Within, SameFlows, SetState, Waiting, Emptied;
    var e, r := s.flows[f], FlushTake(s, f);
    var x := Emptied(e).(pc := Ending(ErrClosed), todo := [Count(DropOpenQueue, |Waiting(e)|)]);
    var z := Emptied(e).(batch := Waiting(e));
    SameSelf(s.flows[f := x]);
    SameSelf(s.flows[f := z]);
    if s.stopped {
      EmptiedKeeps(e);
      TakenWithin(e, x);
      WithinKept(s, step, e, x);
      OneStamps(s, step, f, x, r);
    } else if Waiting(e) == [] {
      OpensSame(s, f);
      SameStamps(s, step, r);
    } else {
      EmptiedKeeps(e);
      TakenWithin(e, z);
      WithinKept(s, step, e, z);
      OneStamps(s, step, f, z, r);
    }
  }

  lemma EmptiedKeeps(e: Flow)
    ensures Emptied(e).batch == e.batch && Emptied(e).first == e.first
  {
  }

  /** Entry f has nothing new waiting and then leaves the table. */
  lemma RemovedStamps(s: State, step: Step, f: nat, e1: Flow)
    requires f < |s.flows| && Within(s.flows[f], e1)
    ensures Stamps(s, step, Remove(SetFlow(s, f, e1), f))
  {
    hide Stamps, Kept, Within, SameFlows, Remove;
    WithinKept(s, step, s.flows[f], e1);
    RemoveFlows(SetFlow(s, f, e1), f);
    OneStamps(s, step, f, e1, Remove(SetFlow(s, f, e1), f));
  }

  /** Entry f has nothing new waiting and is then held. */
  lemma StatedStamps(s: State, step: Step, f: nat, e1: Flow)
    requires f < |s.flows| && Within(s.flows[f], e1)
    ensures Stamps(s, step, SetState(SetFlow(s, f, e1), f, FlowHeld))
  {
    hide Stamps, Kept, Within, SameFlows, SetState;
    WithinKept(s, step, s.flows[f], e1);
    StateFlows(SetFlow(s, f, e1), f, FlowHeld);
    OneStamps(s, step, f, e1, SetState(SetFlow(s, f, e1), f, FlowHeld));
  }

  lemma FailedWithin(e: Flow, e1: Flow)
    requires e1 == Emptied(e).(first := None, pc := e1.pc, todo := e1.todo)
    ensures Within(e, e1)
  {
  }

  lemma FailedStamps(s: State, step: Step, f: nat, stopping: bool)
    requires f < |s.flows|
    ensures Stamps(s, step, OpenFailed(s, f, stopping))
  {
    hide Stamps, Within, SetState, Remove, Waiting, Emptied, SetFlow;
    var e := s.flows[f];
    var n := |Waiting(e)| + if e.first.Some? then 1 else 0;
    var e0 := Emptied(e).(first := None, pc := if stopping then Exited else Holding);
    if stopping || s.stopped {
      FailedWithin(e, e0.(todo := [Release, Count(DropOpenQueue, n)]));
      RemovedStamps(s, step, f, e0.(todo := [Release, Count(DropOpenQueue, n)]));
    } else {
      FailedWithin(e, e0.(todo := [Count(DropHeld, n)]));
      StatedStamps(s, step, f, e0.(todo := [Count(DropHeld, n)]));
    }
  }

  lemma HoldStamps(s: State, step: Step, f: nat)
    requires f < |s.flows|
    ensures Stamps(s, step, HoldEnd(s, f))
  {
    hide Stamps, Remove;
    var e := s.flows[f];
    RemovedStamps(s, step, f, e.(pc := Exited, todo := if e.gone then [] else [Release]));
  }

  /** An entry changes by itself and has nothing new waiting. */
  lemma LocalStamps(s: State, step: Step, f: nat, e1: Flow, r: State)
    requires f < |s.flows| && Within(s.flows[f], e1) && r.flows == s.flows[f := e1]
    ensures Stamps(s, step, r)
  {
    hide Stamps, Kept, Within, SameFlows;
    WithinKept(s, step, s.flows[f], e1);
    SameSelf(s.flows[f := e1]);
    OneStamps(s, step, f, e1, r);
  }

  lemma DialWithin(e: Flow, rode: bool, mp: nat, now: int)
    ensures Within(e, DialOk(e, rode, mp, now))
  {
  }

  lemma FlushWithin(e: Flow, now: int, w: Write)
    requires e.batch != []
    ensures Within(e, FlushOne(e, now, w))
  {
    var e1 := FlushOne(e, now, w);
    forall d | d in e1.batch ensures d in e.batch { }
  }

  lemma FlowStamps(s: State, step: Step)
    requires FlowStep(step) && step.f < |s.flows|
    ensures Stamps(s, step, DoFlow(s, step))
  {
    hide Stamps, Kept, SameFlows, FlushTake, OpenFailed, End, HoldEnd, FlushOne, DialOk, MovedFirst;
    var f := step.f;
    var e, r := s.flows[f], DoFlow(s, step);
    SameSelf(s.flows);
    SameStamps(s, step, s);
    match step
    case DialReturns(_, now, ok, rode, mp, _) =>
      DialWithin(e, rode, mp, now);
      if e.pc.Dialing? { LocalStamps(s, step, f, r.flows[f], r); }
    case MoveFirstLock(_) =>
      if e.pc.MoveFirst? && e.first.Some? {
        MovedKept(s, step, e);
        SameSelf(s.flows[f := MovedFirst(e)]);
        OneStamps(s, step, f, MovedFirst(e), r);
      }
    case FlushLock(_) => FlushStamps(s, step, f);
    case FlushWrites(_, now, w) =>
      if e.pc.Flushing? && e.batch != [] {
        FlushWithin(e, now, w);
        LocalStamps(s, step, f, FlushOne(e, now, w), r);
      }
    case OpenFailedLock(_) => if e.pc.DialFailed? { FailedStamps(s, step, f, e.pc.stopping); }
    case EndLock(_, now) =>
      if e.pc.Ending? {
        EndFlows(s, f, e.pc.err, now);
        SameStamps(s, step, r);
      }
    case HoldLock(_) => HoldStamps(s, step, f);
    case SessionEnds(_, err) =>
      if e.pc.Pumping? { LocalStamps(s, step, f, e.(pc := Ending(err)), r); }
    case Replies(_, now) =>
      if e.pc.Pumping? { LocalStamps(s, step, f, e.(last := now), r); }
  }

  // ---- every step ----

  lemma NewbornSame(s: State, step: Step, e: Flow, e1: Flow)
    requires Newborn(s, step, e) && SameHold(e, e1)
    ensures Newborn(s, step, e1)
  {
    assert forall d :: Queued(e1, d) ==> Queued(e, d);
  }

  /** Only fields that hold nothing change on the way from m to r. */
  lemma AlikeStamps(s: State, step: Step, m: State, r: State)
    requires Stamps(s, step, m) && SameFlows(m.flows, r.flows)
    ensures Stamps(s, step, r)
  {
    hide Kept, Newborn, SameHold;
    forall f | 0 <= f < |s.flows| ensures Kept(s, step, s.flows[f], r.flows[f]) {
      SameAt(m.flows, r.flows, f);
      KeptSame(s, step, s.flows[f], m.flows[f], r.flows[f]);
    }
    forall f | |s.flows| <= f < |r.flows| ensures Newborn(s, step, r.flows[f]) {
      SameAt(m.flows, r.flows, f);
      NewbornSame(s, step, m.flows[f], r.flows[f]);
    }
  }

  lemma PerformStamps(s: State, step: Step, m: State, a: Action)
    requires Stamps(s, step, m)
    ensures Stamps(s, step, Perform(m, a))
  {
    hide Stamps, SameFlows, SameHold;
    SameSelf(m.flows);
    if a.CloseDone? && a.v < |m.flows| {
      var e := m.flows[a.v].(doneCloses := m.flows[a.v].doneCloses + 1);
      SameRefl(m.flows[a.v], e);
      SameSet(m.flows, a.v, e);
    }
    AlikeStamps(s, step, m, Perform(m, a));
  }

  lemma ActsStamps(s: State, step: Step)
    requires step.ReaderActs? || step.FlowActs?
    ensures Stamps(s, step, Do(s, step))
  {
    hide Stamps, Perform, SameFlows;
    SameSelf(s.flows);
    SameStamps(s, step, s);
    if step.ReaderActs? && s.todo != [] {
      var m := s.(todo := s.todo[1..]);
      SameStamps(s, step, m);
      PerformStamps(s, step, m, s.todo[0]);
    } else if step.FlowActs? && step.f < |s.flows| && s.flows[step.f].todo != [] {
      var e := s.flows[step.f];
      var m := SetFlow(s, step.f, e.(todo := e.todo[1..]));
      LocalStamps(s, step, step.f, e.(todo := e.todo[1..]), m);
      PerformStamps(s, step, m, e.todo[0]);
    }
  }

  lemma StepStamps(s: State, step: Step)
    ensures Stamps(s, step, Do(s, step))
  {
    hide Stamps, SameFlows;
    SameSelf(s.flows);
    SameStamps(s, step, s);
    if ReaderStep(step) {
      ReaderStamps(s, step);
    } else if step.ReaderActs? || step.FlowActs? {
      ActsStamps(s, step);
    } else if FlowStep(step) {
      hide DoFlow;
      if step.f < |s.flows| { FlowStamps(s, step); }
    } else if step.Promotes? && step.f < |s.flows| {
      LocalStamps(s, step, step.f, s.flows[step.f].(stream := true), Do(s, step));
    } else {
      SameStamps(s, step, Do(s, step));
    }
  }

  // ---- runs ----

  /** Entry f's datagrams carry the times at which the reader handed them over. */
  ghost predicate Stamped(s: State, steps: seq<Step>, e: Flow) {
    && (forall d :: Queued(e, d) ==> d.at == EnteredAt(s, steps, d.id))
    && (e.first.Some? ==> e.since == EnteredAt(s, steps, e.first.value.id))
  }

  lemma {:induction false} OccIn(q: seq<Dgram>, d: Dgram)
    requires d in q
    ensures Occ(q, d.id) >= 1
  {
    if q[0] != d { OccIn(q[1..], d); }
  }

  lemma {:induction false} WeightIn(fs: seq<Flow>, f: nat, q: Query)
    requires f < |fs|
    ensures In(fs, q) >= Weight(fs[f], q)
  {
    hide Weight;
    if f < |fs| - 1 { WeightIn(fs[..|fs| - 1], f, q); }
  }

  /** What waits at an entry, or is its first datagram, is not with the reader. */
  lemma NotInHand(max: nat, bare: nat, active: bool, steps: seq<Step>, f: nat, d: Dgram)
    requires var s := Exec(Init(max, bare, active), steps);
             f < |s.flows| && (Queued(s.flows[f], d) || s.flows[f].first == Some(d))
    ensures !Brings(Exec(Init(max, bare, active), steps), d.id)
  {
    hide Exec, Run, In, Weight;
    var s := Exec(Init(max, bare, active), steps);
    OnceRun(max, bare, active, steps, d.id);
    RunExec(Init(max, bare, active), steps);
    WeightIn(s.flows, f, Id(d.id));
    QueuedWeighs(s.flows[f], d);
  }

  lemma QueuedWeighs(e: Flow, d: Dgram)
    requires Queued(e, d) || e.first == Some(d)
    ensures Weight(e, Id(d.id)) >= 1
  {
    hide Occ;
    OptOcc(e.first, d.id);
    OptOcc(e.firstQ, d.id);
    if d in e.q { OccIn(e.q, d); }
    if d in e.batch { OccIn(e.batch, d); }
  }

  /** Over every run, every datagram that waits carries the time at which the reader handed it over. */
  lemma {:induction false} AgesAreTrue(max: nat, bare: nat, active: bool, steps: seq<Step>, f: nat)
    requires f < |Exec(Init(max, bare, active), steps).flows|
    ensures Stamped(Init(max, bare, active), steps, Exec(Init(max, bare, active), steps).flows[f])
    decreases |steps|
  {
    hide Do, Stamped, Kept, Newborn;
    if steps != [] {
      var s0 := Init(max, bare, active);
      var before, step := steps[..|steps| - 1], steps[|steps| - 1];
      var s := Exec(s0, before);
      StepStamps(s, step);
      if f < |s.flows| {
        AgesAreTrue(max, bare, active, before, f);
        KeptStamped(max, bare, active, steps, f, Do(s, step).flows[f]);
      } else {
        NewStamped(s0, steps, Do(s, step).flows[f]);
      }
    }
  }

  lemma KeptStamped(max: nat, bare: nat, active: bool, steps: seq<Step>, f: nat, e1: Flow)
    requires steps != []
    requires var before := steps[..|steps| - 1];
             var s := Exec(Init(max, bare, active), before);
             && f < |s.flows| && Stamped(Init(max, bare, active), before, s.flows[f])
             && Kept(s, steps[|steps| - 1], s.flows[f], e1)
    ensures Stamped(Init(max, bare, active), steps, e1)
  {
    hide Exec;
    var s0 := Init(max, bare, active);
    var before, step := steps[..|steps| - 1], steps[|steps| - 1];
    var s := Exec(s0, before);
    var e := s.flows[f];
    if e.first.Some? { NotInHand(max, bare, active, before, f, e.first.value); }
    forall d | Queued(e1, d) ensures d.at == EnteredAt(s0, steps, d.id) {
      if Queued(e, d) { NotInHand(max, bare, active, before, f, d); }
    }
  }

  lemma NewStamped(s0: State, steps: seq<Step>, e: Flow)
    requires steps != [] && Newborn(Exec(s0, steps[..|steps| - 1]), steps[|steps| - 1], e)
    ensures Stamped(s0, steps, e)
  {
    hide Exec;
  }
}
