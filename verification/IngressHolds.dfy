/** When the UDP ingress holds a source: exactly after an open that failed
    without a stop, and after a far end's close soon after the flow opened.
    Every other end of a flow takes it out of the table and gives its unit back. */
module IngressHolds {
  import opened Ingress
  import opened IngressSafety
  import opened IngressSteps
  import opened IngressRuns

  // ---- what a step does to an entry ----

  /** The part of an entry that the holds are about. */
  datatype View = View(client: Addr, state: FlowState, gone: bool, peerEnd: bool, openedAt: int, dialedAt: int,
                       last: int)

  function Look(e: Flow): View { View(e.client, e.state, e.gone, e.peerEnd, e.openedAt, e.dialedAt, e.last) }

  function At(s: State, f: nat): View
    requires f < |s.flows|
  {
    Look(s.flows[f])
  }

  function Left(v: View): View { if v.gone then v else v.(state := FlowGone, gone := true) }

  /** Entry f is in the table. */
  predicate InTable(s: State, f: nat) {
    f < |s.flows| && s.flows[f].client in s.table && s.table[s.flows[f].client] == f
  }

  /** The open of f failed, and no stop came before its region. */
  predicate OpenFails(s: State, step: Step, f: nat) {
    && step == OpenFailedLock(f) && f < |s.flows| && s.flows[f].todo == []
    && s.flows[f].pc == DialFailed(false) && !s.stopped
  }

  /** The goroutine of f reads at now that its session ended with err. */
  predicate EndsWith(s: State, step: Step, f: nat, err: EndErr) {
    step.EndLock? && step.f == f && f < |s.flows| && s.flows[f].todo == [] && s.flows[f].pc == Ending(err)
  }

  /** A write of the reader to f's session failed with err. */
  predicate WriteSees(s: State, step: Step, f: nat, err: EndErr) {
    step.ReplaceLock? && s.todo == [] && s.reader.Replacing? && s.reader.f == f && s.reader.err == err
  }

  /** The far end closed f, less than the reopen hold after its dial returned. */
  predicate ClosedEarly(s: State, step: Step, f: nat, dialed: int) {
    && (EndsWith(s, step, f, EOF) || WriteSees(s, step, f, ErrClosed)) && InTable(s, f) && !s.stopped
    && step.now - dialed < REOPEN_HOLD
  }

  /** The dial of f returns a session. */
  predicate Dials(s: State, step: Step, f: nat) {
    step.DialReturns? && step.f == f && step.ok && f < |s.flows| && s.flows[f].todo == [] && s.flows[f].pc.Dialing?
  }

  /** f's flush finds nothing more. */
  predicate Opens(s: State, step: Step, f: nat) {
    && step == FlushLock(f) && f < |s.flows| && s.flows[f].todo == []
    && s.flows[f].pc.Flushing? && s.flows[f].batch == [] && !s.stopped && Waiting(s.flows[f]) == []
  }

  /** The end of f that its entry says came early. */
  predicate EndsEarly(s: State, step: Step, f: nat) {
    && step.EndLock? && step.f == f && f < |s.flows| && s.flows[f].todo == [] && s.flows[f].pc.Ending?
    && !s.flows[f].gone && s.flows[f].state != FlowHeld && !s.stopped
    && (s.flows[f].peerEnd || s.flows[f].pc.err == EOF) && step.now - s.flows[f].openedAt < REOPEN_HOLD
  }

  predicate WriteEarly(s: State, step: Step, f: nat) {
    && WriteSees(s, step, f, ErrClosed) && InTable(s, f) && s.flows[f].state != FlowHeld
    && step.now - s.flows[f].openedAt < REOPEN_HOLD
  }

  /** A step that decides what becomes of a flow that failed to open or ended. */
  predicate Decides(s: State, step: Step, f: nat) {
    && f < |s.flows|
    && ((step == OpenFailedLock(f) && s.flows[f].todo == [] && s.flows[f].pc.DialFailed?)
        || (step.EndLock? && step.f == f && s.flows[f].todo == [] && s.flows[f].pc.Ending?)
        || (step.ReplaceLock? && s.todo == [] && s.reader.Replacing? && s.reader.f == f))
  }

  /** A newcomer takes f's unit: none is free, and f is the victim. */
  predicate EvictedFor(s: State, step: Step, f: nat) {
    && step.EnterLock? && s.reader.Entering? && s.todo == [] && s.reader.d.src !in s.table
    && s.units >= s.max && s.opening < OPENING_MAX && step.v == Some(f) && VictimOk(s, step.sample, step.now, step.v)
  }

  predicate HoldOver(s: State, step: Step, f: nat) {
    step == HoldLock(f) && f < |s.flows| && s.flows[f].todo == [] && s.flows[f].pc.Holding?
  }

  /** A datagram of f in either direction: its client's, queued, dropped while held or written, or a reply. */
  predicate Touches(s: State, step: Step, f: nat) {
    && f < |s.flows|
    && ((step.EnterLock? && s.reader.Entering? && s.todo == [] && s.reader.d.src in s.table
         && s.table[s.reader.d.src] == f && (s.flows[f].state == FlowOpening || s.flows[f].state == FlowHeld))
        || (step.WriteReturns? && s.reader.Writing? && s.todo == [] && s.reader.f == f)
        || (step.Replies? && step.f == f && s.flows[f].todo == [] && s.flows[f].pc.Pumping?))
  }

  function Touched(s: State, step: Step, f: nat): View
    requires f < |s.flows|
  {
    if Touches(s, step, f) then At(s, f).(last := step.now) else At(s, f)
  }

  /** What the step makes of entry f. */
  predicate Moved(s: State, step: Step, f: nat, w: View)
    requires f < |s.flows|
  {
    var v := Touched(s, step, f);
    if OpenFails(s, step, f) || EndsEarly(s, step, f) then w == v.(state := FlowHeld)
    else if WriteEarly(s, step, f) then w == v.(state := FlowHeld, peerEnd := true)
    else if Opens(s, step, f) then w == v.(state := FlowOpen, openedAt := v.dialedAt)
    else if Dials(s, step, f) then w == v.(dialedAt := step.now)
    else w == v || (w == Left(v) && (Decides(s, step, f) || HoldOver(s, step, f) || EvictedFor(s, step, f)))
  }

  // ---- the parts of a step ----

  lemma DelView(s: State, v: nat, f: nat)
    requires v < |s.flows| && f < |s.flows|
    ensures |Del(s, v).flows| == |s.flows| && At(Del(s, v), f) == At(s, f)
  {
  }

  lemma RemoveView(s: State, v: nat, f: nat)
    requires v < |s.flows| && f < |s.flows|
    ensures |Remove(s, v).flows| == |s.flows|
    ensures At(Remove(s, v), f) == if f == v then Left(At(s, f)) else At(s, f)
  {
    hide Gauges, Del;
    var e := s.flows[v];
    if !e.gone {
      var m := SetFlow(Gauges(s, e.state, -1), v, e.(state := FlowGone, gone := true));
      DelView(m, v, f);
    }
  }

  lemma StateView(s: State, v: nat, st: FlowState, f: nat)
    requires v < |s.flows| && f < |s.flows|
    ensures SetState(s, v, st).flows == s.flows[v := s.flows[v].(state := st)]
    ensures At(SetState(s, v, st), f) == if f == v then At(s, f).(state := st) else At(s, f)
  {
    hide Gauges;
  }

  lemma PlaceView(s: State, d: Dgram, now: int, todo: seq<Action>, f: nat)
    requires f < |s.flows|
    ensures |Place(s, d, now, todo).flows| == |s.flows| + 1 && At(Place(s, d, now, todo), f) == At(s, f)
  {
    hide NewFlow;
  }

  lemma PushView(e: Flow, d: Dgram)
    ensures Look(Push(e, d).0) == Look(e)
  {
    hide Overflow;
  }

  lemma AdmitView(s: State, d: Dgram, now: int, v: Option<nat>, f: nat)
    requires (v.Some? ==> v.value < |s.flows|) && f < |s.flows|
    ensures var r := Admit(s, d, now, v);
            && f < |r.flows|
            && (At(r, f) == At(s, f)
                || (At(r, f) == Left(At(s, f)) && s.units >= s.max && s.opening < OPENING_MAX && v == Some(f)))
  {
    hide Place, Remove;
    PlaceView(s.(units := s.units + 1), d, now, [], f);
    if v.Some? {
      var x := v.value;
      var m := SetFlow(s, x, s.flows[x].(evicted := s.flows[x].state == FlowOpen));
      RemoveView(m, x, f);
      PlaceView(Evict(s, x), d, now, [CloseDone(x)], f);
    }
  }

  lemma KnownView(s: State, g: nat, d: Dgram, now: int, again: bool, f: nat)
    requires g < |s.flows| && f < |s.flows|
    ensures var r := Known(s, g, d, now, again);
            && f < |r.flows|
            && At(r, f) == if f == g && (s.flows[g].state == FlowOpening || s.flows[g].state == FlowHeld) then
                             At(s, f).(last := now)
                           else At(s, f)
  {
    hide Push;
    PushView(s.flows[g].(last := now), d.(at := now));
  }

  lemma ReplaceView(s: State, g: nat, d: Dgram, err: EndErr, now: int, again: bool, f: nat)
    requires g < |s.flows| && f < |s.flows|
    ensures var e, r := s.flows[g], Replace(s, g, d, err, now, again);
            && f < |r.flows| && (f != g ==> At(r, f) == At(s, f))
            && (f == g ==>
                  At(r, f) == if !InTable(s, g) || e.state == FlowHeld then At(s, f)
                              else if err == ErrClosed && now - e.openedAt < REOPEN_HOLD then
                                At(s, f).(state := FlowHeld, peerEnd := true)
                              else Left(At(s, f)))
  {
    hide SetState, Remove, Place, Left;
    StateView(s, g, FlowHeld, f);
    RemoveView(s, g, f);
    PlaceView(Remove(s, g), d, now, [], f);
  }

  lemma ReplaceMoves(s: State, step: Step, f: nat)
    requires step.ReplaceLock? && s.reader.Replacing? && s.todo == [] && s.reader.f < |s.flows| && f < |s.flows|
    ensures var r := Do(s, step); f < |r.flows| && Moved(s, step, f, At(r, f))
  {
    hide Replace, Left, At;
    var g, d := s.reader.f, s.reader.d;
    assert Do(s, step) == Replace(s, g, d, s.reader.err, step.now, s.reader.again);
    ReplaceView(s, g, d, s.reader.err, step.now, s.reader.again, f);
  }

  /** Entry g becomes e1, which looks the same, and leaves the table. */
  lemma RemovedView(s: State, g: nat, e1: Flow, f: nat)
    requires g < |s.flows| && f < |s.flows| && Look(e1) == Look(s.flows[g])
    ensures var r := Remove(SetFlow(s, g, e1), g);
            |r.flows| == |s.flows| && At(r, f) == if f == g then Left(At(s, f)) else At(s, f)
  {
    hide Remove, Left;
    RemoveView(SetFlow(s, g, e1), g, f);
  }

  /** Entry g becomes e1, which looks the same, and is held. */
  lemma StatedView(s: State, g: nat, e1: Flow, f: nat)
    requires g < |s.flows| && f < |s.flows| && Look(e1) == Look(s.flows[g])
    ensures var r := SetState(SetFlow(s, g, e1), g, FlowHeld);
            |r.flows| == |s.flows| && At(r, f) == if f == g then At(s, f).(state := FlowHeld) else At(s, f)
  {
    hide SetState;
    StateView(SetFlow(s, g, e1), g, FlowHeld, f);
  }

  lemma OpenFailedView(s: State, g: nat, stopping: bool, f: nat)
    requires g < |s.flows| && f < |s.flows|
    ensures var r := OpenFailed(s, g, stopping);
            && f < |r.flows| && (f != g ==> At(r, f) == At(s, f))
            && (f == g ==> At(r, f) == if stopping || s.stopped then Left(At(s, f)) else At(s, f).(state := FlowHeld))
  {
    hide SetState, Remove, Waiting, Emptied, Left, At;
    var e := s.flows[g];
    var n := |Waiting(e)| + if e.first.Some? then 1 else 0;
    var e0 := Emptied(e).(first := None, pc := if stopping then Exited else Holding);
    EmptiedView(e);
    RemovedView(s, g, e0.(todo := [Release, Count(DropOpenQueue, n)]), f);
    StatedView(s, g, e0.(todo := [Count(DropHeld, n)]), f);
  }

  lemma OpenFailedMoves(s: State, step: Step, f: nat)
    requires step.OpenFailedLock? && step.f < |s.flows| && s.flows[step.f].todo == [] && s.flows[step.f].pc.DialFailed?
    requires f < |s.flows|
    ensures var r := Do(s, step); f < |r.flows| && Moved(s, step, f, At(r, f))
  {
    hide OpenFailed, Left, At;
    assert Do(s, step) == OpenFailed(s, step.f, s.flows[step.f].pc.stopping);
    OpenFailedView(s, step.f, s.flows[step.f].pc.stopping, f);
  }

  lemma EmptiedView(e: Flow)
    ensures Look(Emptied(e)) == Look(e)
  {
  }

  lemma EndMoves(s: State, step: Step, f: nat)
    requires step.EndLock? && step.f < |s.flows| && s.flows[step.f].todo == [] && s.flows[step.f].pc.Ending?
    requires f < |s.flows|
    ensures var r := Do(s, step); f < |r.flows| && Moved(s, step, f, At(r, f))
  {
    hide SetState, Remove;
    var g := step.f;
    var e := s.flows[g];
    assert Do(s, step) == End(s, g, e.pc.err, step.now);
    RemoveView(SetFlow(s, g, e.(pc := Exited)), g, f);
    StateView(SetFlow(s, g, e.(pc := Holding)), g, FlowHeld, f);
  }

  lemma FlushMoves(s: State, step: Step, f: nat)
    requires step.FlushLock? && step.f < |s.flows| && s.flows[step.f].todo == []
    requires s.flows[step.f].pc.Flushing? && s.flows[step.f].batch == [] && f < |s.flows|
    ensures var r := Do(s, step); f < |r.flows| && Moved(s, step, f, At(r, f))
  {
    hide SetState, Waiting, Emptied;
    assert Do(s, step) == FlushTake(s, step.f);
    EmptiedView(s.flows[step.f]);
    StateView(s, step.f, FlowOpen, f);
  }

  lemma DialLook(e: Flow, rode: bool, mp: nat, now: int)
    ensures Look(DialOk(e, rode, mp, now)) == Look(e).(dialedAt := now)
  {
  }

  lemma DialMoves(s: State, step: Step, f: nat)
    requires step.DialReturns? && step.f < |s.flows| && s.flows[step.f].todo == [] && s.flows[step.f].pc.Dialing?
    requires f < |s.flows|
    ensures var r := Do(s, step); f < |r.flows| && Moved(s, step, f, At(r, f))
  {
    hide DialOk;
    var e, r := s.flows[step.f], Do(s, step);
    DialLook(e, step.rode, step.maxPayload, step.now);
    if step.ok {
      assert r == SetFlow(s, step.f, DialOk(e, step.rode, step.maxPayload, step.now));
    } else {
      assert At(r, f) == At(s, f);
    }
  }

  lemma SetLook(s: State, g: nat, e1: Flow, f: nat)
    requires g < |s.flows| && f < |s.flows|
    ensures At(SetFlow(s, g, e1), f) == if f == g then Look(e1) else At(s, f)
  {
  }

  /** The goroutine's steps that change no state. */
  lemma PlainView(s: State, step: Step, f: nat)
    requires step.MoveFirstLock? || step.FlushWrites? || step.SessionEnds? || step.Replies?
    requires step.f < |s.flows| && s.flows[step.f].todo == [] && f < |s.flows|
    ensures var r := Do(s, step); f < |r.flows| && At(r, f) == Touched(s, step, f)
  {
    hide Do, At;
    match step
    case MoveFirstLock(_) => MovePlain(s, step, f);
    case FlushWrites(_, _, _) => WritesPlain(s, step, f);
    case SessionEnds(_, _) => EndsPlain(s, step, f);
    case Replies(_, _) => RepliesPlain(s, step, f);
  }

  lemma MovePlain(s: State, step: Step, f: nat)
    requires step.MoveFirstLock? && step.f < |s.flows| && s.flows[step.f].todo == [] && f < |s.flows|
    ensures var r := Do(s, step); f < |r.flows| && At(r, f) == At(s, f)
  {
    hide MovedFirst, Look;
    var e := s.flows[step.f];
    if e.pc.MoveFirst? && e.first.Some? {
      MovedLook(e);
      SetLook(s, step.f, MovedFirst(e), f);
    }
  }

  lemma WritesPlain(s: State, step: Step, f: nat)
    requires step.FlushWrites? && step.f < |s.flows| && s.flows[step.f].todo == [] && f < |s.flows|
    ensures var r := Do(s, step); f < |r.flows| && At(r, f) == At(s, f)
  {
    hide FlushOne, Look;
    var e := s.flows[step.f];
    if e.pc.Flushing? && e.batch != [] {
      FlushLook(e, step.now, step.w);
      SetLook(s, step.f, FlushOne(e, step.now, step.w), f);
    }
  }

  lemma EndsPlain(s: State, step: Step, f: nat)
    requires step.SessionEnds? && step.f < |s.flows| && s.flows[step.f].todo == [] && f < |s.flows|
    ensures var r := Do(s, step); f < |r.flows| && At(r, f) == At(s, f)
  {
    SetLook(s, step.f, s.flows[step.f].(pc := Ending(step.err)), f);
  }

  lemma RepliesPlain(s: State, step: Step, f: nat)
    requires step.Replies? && step.f < |s.flows| && s.flows[step.f].todo == [] && f < |s.flows|
    ensures var r := Do(s, step); f < |r.flows| && At(r, f) == Touched(s, step, f)
  {
    SetLook(s, step.f, s.flows[step.f].(last := step.now), f);
  }

  lemma MovedLook(e: Flow)
    requires e.first.Some?
    ensures Look(MovedFirst(e)) == Look(e)
  {
  }

  lemma FlushLook(e: Flow, now: int, w: Write)
    requires e.batch != []
    ensures Look(FlushOne(e, now, w)) == Look(e)
  {
    hide FlushFate;
  }

  lemma HoldView(s: State, step: Step, f: nat)
    requires step.HoldLock? && step.f < |s.flows| && s.flows[step.f].todo == [] && s.flows[step.f].pc.Holding?
    requires f < |s.flows|
    ensures var r := Do(s, step);
            f < |r.flows| && (At(r, f) == At(s, f) || (At(r, f) == Left(At(s, f)) && HoldOver(s, step, f)))
  {
    hide Remove;
    var e := s.flows[step.f];
    RemoveView(SetFlow(s, step.f, e.(pc := Exited, todo := if e.gone then [] else [Release])), step.f, f);
  }

  lemma PerformView(s: State, a: Action, f: nat)
    requires f < |s.flows|
    ensures |Perform(s, a).flows| == |s.flows| && At(Perform(s, a), f) == At(s, f)
  {
    hide Counts.Add;
  }

  // ---- every step ----

  predicate FlowStep(step: Step) {
    step.DialReturns? || step.MoveFirstLock? || step.FlushLock? || step.FlushWrites?
    || step.SessionEnds? || step.OpenFailedLock? || step.EndLock? || step.HoldLock? || step.Replies?
  }

  lemma SameMoves(s: State, step: Step, f: nat)
    requires f < |s.flows| && Do(s, step) == s && !Touches(s, step, f)
    requires !OpenFails(s, step, f) && !EndsEarly(s, step, f) && !WriteEarly(s, step, f)
    requires !Opens(s, step, f) && !Dials(s, step, f)
    ensures Moved(s, step, f, At(Do(s, step), f))
  {
    hide Do;
  }

  lemma HoldMoves(s: State, step: Step, f: nat)
    requires step.HoldLock? && step.f < |s.flows| && s.flows[step.f].todo == [] && s.flows[step.f].pc.Holding?
    requires f < |s.flows|
    ensures var r := Do(s, step); f < |r.flows| && Moved(s, step, f, At(r, f))
  {
    hide Do, Left, At;
    HoldView(s, step, f);
    OtherMoves(s, step, f);
  }

  lemma FlowMoves(s: State, step: Step, f: nat)
    requires FlowStep(step) && f < |s.flows|
    ensures var r := Do(s, step); f < |r.flows| && Moved(s, step, f, At(r, f))
  {
    hide FlushTake, OpenFailed, End, HoldEnd, FlushOne, DialOk, MovedFirst, Left, Moved, At;
    if step.f >= |s.flows| || s.flows[step.f].todo != [] {
      SameMoves(s, step, f);
    } else {
      var e := s.flows[step.f];
      match step
      case DialReturns(_, _, _, _, _, _) => if e.pc.Dialing? { DialMoves(s, step, f); } else { SameMoves(s, step, f); }
      case FlushLock(_) =>
        if e.pc.Flushing? && e.batch == [] { FlushMoves(s, step, f); } else { SameMoves(s, step, f); }
      case OpenFailedLock(_) => if e.pc.DialFailed? { OpenFailedMoves(s, step, f); } else { SameMoves(s, step, f); }
      case EndLock(_, _) => if e.pc.Ending? { EndMoves(s, step, f); } else { SameMoves(s, step, f); }
      case HoldLock(_) =>
        if e.pc.Holding? { HoldMoves(s, step, f); } else { SameMoves(s, step, f); }
      case _ => PlainView(s, step, f); OtherMoves(s, step, f);
    }
  }

  /** A step that is none of the five kinds only keeps the entry or takes it out. */
  lemma OtherMoves(s: State, step: Step, f: nat)
    requires f < |s.flows| && f < |Do(s, step).flows|
    requires !step.OpenFailedLock? && !step.EndLock? && !step.ReplaceLock? && !step.FlushLock? && !step.DialReturns?
    requires var w := At(Do(s, step), f);
             || w == Touched(s, step, f)
             || (w == Left(At(s, f)) && !Touches(s, step, f) && (HoldOver(s, step, f) || EvictedFor(s, step, f)))
    ensures Moved(s, step, f, At(Do(s, step), f))
  {
    hide Do, Left, VictimOk;
  }

  lemma ReaderMoves(s: State, step: Step, f: nat)
    requires (step.EnterLock? || step.WriteReturns? || step.ReplaceLock?) && f < |s.flows|
    ensures var r := Do(s, step); f < |r.flows| && Moved(s, step, f, At(r, f))
  {
    hide Known, Admit, WriteDone, Replace, SampleOk, VictimOk, Left, Moved;
    match step
    case EnterLock(now, sample, v) =>
      if s.reader.Entering? && s.todo == [] {
        if s.reader.d.src in s.table {
          if s.table[s.reader.d.src] < |s.flows| {
            KnownView(s, s.table[s.reader.d.src], s.reader.d, now, s.reader.again, f);
          }
        } else if SampleOk(s, sample) && VictimOk(s, sample, now, v) && (v.Some? ==> v.value < |s.flows|) {
          AdmitView(s, s.reader.d, now, v, f);
        }
      }
      OtherMoves(s, step, f);
    case WriteReturns(w, now) =>
      if s.reader.Writing? && s.reader.f < |s.flows| {
        WriteView(s, s.reader.f, s.reader.d, w, now, s.reader.again, f);
      }
      OtherMoves(s, step, f);
    case ReplaceLock(_) =>
      if s.reader.Replacing? && s.todo == [] && s.reader.f < |s.flows| {
        ReplaceMoves(s, step, f);
      } else {
        SameMoves(s, step, f);
      }
  }

  lemma WriteView(s: State, g: nat, d: Dgram, w: Write, now: int, again: bool, f: nat)
    requires g < |s.flows| && f < |s.flows|
    ensures var r := WriteDone(s, g, d, w, now, again);
            f < |r.flows| && At(r, f) == if f == g then At(s, f).(last := now) else At(s, f)
  {
  }

  lemma ActsMove(s: State, step: Step, f: nat)
    requires (step.ReaderActs? || step.FlowActs?) && f < |s.flows|
    ensures var r := Do(s, step); f < |r.flows| && At(r, f) == At(s, f)
  {
    hide Perform;
    if step.ReaderActs? {
      if s.todo != [] { PerformView(s.(todo := s.todo[1..]), s.todo[0], f); }
    } else if step.f < |s.flows| && s.flows[step.f].todo != [] {
      var e := s.flows[step.f];
      PerformView(SetFlow(s, step.f, e.(todo := e.todo[1..])), e.todo[0], f);
    }
  }

  lemma EnvFlows(s: State, step: Step)
    requires step.Receive? || step.ReaderReturns? || step.Halt? || step.Shutdown?
             || step.OtherUnit? || step.OtherOpening?
    ensures Do(s, step).flows == s.flows
  {
  }

  lemma EnvMove(s: State, step: Step, f: nat)
    requires step.Receive? || step.ReaderReturns? || step.Promotes? || step.Halt? || step.Shutdown?
             || step.OtherUnit? || step.OtherOpening?
    requires f < |s.flows|
    ensures var r := Do(s, step); f < |r.flows| && At(r, f) == At(s, f)
  {
    if step.Promotes? {
      if step.f < |s.flows| { SetLook(s, step.f, s.flows[step.f].(stream := true), f); }
    } else {
      hide Do;
      EnvFlows(s, step);
    }
  }

  lemma StepMoves(s: State, step: Step, f: nat)
    requires f < |s.flows|
    ensures var r := Do(s, step); f < |r.flows| && Moved(s, step, f, At(r, f))
  {
    hide Moved, Do, At;
    if FlowStep(step) {
      FlowMoves(s, step, f);
    } else if step.EnterLock? || step.WriteReturns? || step.ReplaceLock? {
      ReaderMoves(s, step, f);
    } else {
      if step.ReaderActs? || step.FlowActs? { ActsMove(s, step, f); } else { EnvMove(s, step, f); }
      OtherMoves(s, step, f);
    }
  }

  // ---- new entries ----

  function NewView(c: Addr, now: int): View { View(c, FlowOpening, false, false, 0, 0, now) }

  /** At most one entry is new, and it is opening, its datagram just come. */
  predicate Grown(s: State, r: State, now: int) {
    || |r.flows| == |s.flows|
    || (|r.flows| == |s.flows| + 1 && Look(r.flows[|s.flows|]) == NewView(r.flows[|s.flows|].client, now))
  }

  lemma PlaceGrows(s: State, d: Dgram, now: int, todo: seq<Action>)
    ensures var r := Place(s, d, now, todo);
            |r.flows| == |s.flows| + 1 && Look(r.flows[|s.flows|]) == NewView(r.flows[|s.flows|].client, now)
  {
  }

  lemma AdmitGrows(s: State, d: Dgram, now: int, v: Option<nat>)
    requires v.Some? ==> v.value < |s.flows|
    ensures Grown(s, Admit(s, d, now, v), now)
  {
    hide Place, Remove;
    PlaceGrows(s.(units := s.units + 1), d, now, []);
    if v.Some? { PlaceGrows(Evict(s, v.value), d, now, [CloseDone(v.value)]); }
  }

  lemma ReplaceGrows(s: State, g: nat, d: Dgram, err: EndErr, now: int, again: bool)
    requires g < |s.flows|
    ensures Grown(s, Replace(s, g, d, err, now, again), now)
  {
    hide Place, Remove, SetState;
    PlaceGrows(Remove(s, g), d, now, []);
  }

  lemma ReaderGrows(s: State, step: Step)
    requires step.EnterLock? || step.WriteReturns? || step.ReplaceLock?
    ensures Grown(s, Do(s, step), step.now) && (step.WriteReturns? ==> |Do(s, step).flows| == |s.flows|)
  {
    hide Admit, Replace, SampleOk, VictimOk, Push, Look;
    match step
    case EnterLock(now, sample, v) =>
      if s.reader.Entering? && (v.Some? ==> v.value < |s.flows|) { AdmitGrows(s, s.reader.d, now, v); }
    case WriteReturns(_, _) =>
    case ReplaceLock(now) =>
      if s.reader.Replacing? && s.reader.f < |s.flows| {
        ReplaceGrows(s, s.reader.f, s.reader.d, s.reader.err, now, s.reader.again);
      }
  }

  lemma FlowGrows(s: State, step: Step)
    requires FlowStep(step)
    ensures |Do(s, step).flows| == |s.flows|
  {
    hide FlushTake, OpenFailed, End, HoldEnd, FlushOne, DialOk, MovedFirst;
    if step.f < |s.flows| {
      SameLength(s, step.f);
    }
  }

  lemma SameLength(s: State, f: nat)
    requires f < |s.flows|
    ensures |FlushTake(s, f).flows| == |s.flows| && |HoldEnd(s, f).flows| == |s.flows|
    ensures forall stopping :: |OpenFailed(s, f, stopping).flows| == |s.flows|
    ensures forall err, now :: |End(s, f, err, now).flows| == |s.flows|
  {
    hide SetState, Remove, Waiting, Emptied;
  }

  lemma StepGrows(s: State, step: Step)
    ensures |Do(s, step).flows| == |s.flows| || step.EnterLock? || step.ReplaceLock?
    ensures step.EnterLock? || step.ReplaceLock? ==> Grown(s, Do(s, step), step.now)
  {
    hide DoFlow, Known, Admit, WriteDone, Replace, SampleOk, VictimOk, Look;
    if FlowStep(step) {
      FlowGrows(s, step);
    } else if step.EnterLock? || step.WriteReturns? || step.ReplaceLock? {
      ReaderGrows(s, step);
    }
  }

  // ---- every run ----

  /** When the dial of entry f returned its session; 0 before. */
  function DialTime(s: State, steps: seq<Step>, f: nat): int
    decreases |steps|
  {
    if steps == [] then 0
    else
      var before, step := steps[..|steps| - 1], steps[|steps| - 1];
      if Dials(Exec(s, before), step, f) then step.now else DialTime(s, before, f)
  }

  /** When the latest datagram of entry f came, in either direction, the one that made it included. */
  function Latest(s: State, steps: seq<Step>, f: nat): int
    decreases |steps|
  {
    if steps == [] then 0
    else
      var before, step := steps[..|steps| - 1], steps[|steps| - 1];
      var m := Exec(s, before);
      if Touches(m, step, f) then step.now
      else if |m.flows| <= f < |Exec(s, steps).flows| && (step.EnterLock? || step.ReplaceLock?) then step.now
      else Latest(s, before, f)
  }

  /** The far end's close is noted only at a held entry; an open one was opened when its dial returned. */
  predicate Timed(v: View) {
    (v.peerEnd ==> v.state == FlowHeld || v.gone) && (v.state == FlowOpen ==> v.openedAt == v.dialedAt)
  }

  lemma {:induction false} NotDialed(s: State, steps: seq<Step>, f: nat)
    requires s.flows == [] && f >= |Exec(s, steps).flows|
    ensures DialTime(s, steps, f) == 0
    decreases |steps|
  {
    hide Do;
    if steps != [] {
      StepGrows(Exec(s, steps[..|steps| - 1]), steps[|steps| - 1]);
      NotDialed(s, steps[..|steps| - 1], f);
    }
  }

  lemma {:induction false} RunTimed(max: nat, bare: nat, active: bool, steps: seq<Step>, f: nat)
    requires f < |Exec(Init(max, bare, active), steps).flows|
    ensures var v := At(Exec(Init(max, bare, active), steps), f);
            && Timed(v) && v.dialedAt == DialTime(Init(max, bare, active), steps, f)
            && v.last == Latest(Init(max, bare, active), steps, f)
    decreases |steps|
  {
    hide Do, Inv;
    var s0 := Init(max, bare, active);
    if steps != [] {
      var before, step := steps[..|steps| - 1], steps[|steps| - 1];
      var s := Exec(s0, before);
      StepGrows(s, step);
      if f < |s.flows| {
        RunTimed(max, bare, active, before, f);
        RunInv(max, bare, active, before);
        StepMoves(s, step, f);
        MovedTimed(s, step, f);
      } else {
        NotDialed(s0, before, f);
      }
    }
  }

  lemma MovedTimed(s: State, step: Step, f: nat)
    requires Inv(s) && f < |s.flows| && f < |Do(s, step).flows|
    requires Timed(At(s, f)) && Moved(s, step, f, At(Do(s, step), f))
    ensures var w := At(Do(s, step), f);
            && Timed(w) && w.dialedAt == (if Dials(s, step, f) then step.now else At(s, f).dialedAt)
            && w.last == if Touches(s, step, f) then step.now else At(s, f).last
  {
    hide Do, Inv;
    LiveState(s, f);
    FailedOnly(s, step, f);
  }

  /** The five kinds of change exclude each other. */
  lemma FailedOnly(s: State, step: Step, f: nat)
    requires f < |s.flows|
    ensures Dials(s, step, f) ==>
              !OpenFails(s, step, f) && !EndsEarly(s, step, f) && !WriteEarly(s, step, f) && !Opens(s, step, f)
  {
  }

  /** A source is held if and only if its open failed and no stop came before, or its flow's far end closed it,
      as its goroutine reads it or a write of the reader sees it, less than the reopen hold after its dial
      returned, the entry still in the table and no stop set. */
  lemma HeldExactly(max: nat, bare: nat, active: bool, steps: seq<Step>, step: Step, f: nat)
    requires f < |Exec(Init(max, bare, active), steps).flows|
    ensures var s := Exec(Init(max, bare, active), steps);
            var r := Do(s, step);
            && f < |r.flows|
            && ((s.flows[f].state != FlowHeld && r.flows[f].state == FlowHeld) <==>
                (OpenFails(s, step, f)
                 || (s.flows[f].state != FlowHeld
                     && ClosedEarly(s, step, f, DialTime(Init(max, bare, active), steps, f)))))
  {
    hide Exec, Do, DialTime, Inv, OpenFails, ClosedEarly;
    RunInv(max, bare, active, steps);
    RunTimed(max, bare, active, steps, f);
    HeldHere(Exec(Init(max, bare, active), steps), step, f);
  }

  lemma HeldHere(s: State, step: Step, f: nat)
    requires Inv(s) && f < |s.flows| && Timed(At(s, f))
    ensures var r := Do(s, step);
            && f < |r.flows|
            && ((s.flows[f].state != FlowHeld && r.flows[f].state == FlowHeld) <==>
                (OpenFails(s, step, f) || (s.flows[f].state != FlowHeld && ClosedEarly(s, step, f, At(s, f).dialedAt))))
  {
    hide Do, Inv, OpenFails, ClosedEarly, EndsEarly, WriteEarly, Opens, Dials;
    StepMoves(s, step, f);
    EarlyExactly(s, step, f);
  }

  lemma EarlyExactly(s: State, step: Step, f: nat)
    requires Inv(s) && f < |s.flows| && Timed(At(s, f))
    ensures (EndsEarly(s, step, f) || WriteEarly(s, step, f)) <==>
            (s.flows[f].state != FlowHeld && ClosedEarly(s, step, f, At(s, f).dialedAt))
    ensures OpenFails(s, step, f) ==> s.flows[f].state != FlowHeld && !EndsEarly(s, step, f) && !WriteEarly(s, step, f)
  {
    hide Inv;
    LiveState(s, f);
    if step.EndLock? {
      EndEarlyExactly(s, step, f);
    } else if step.ReplaceLock? {
      WriteEarlyExactly(s, step, f);
    }
  }

  lemma EndEarlyExactly(s: State, step: Step, f: nat)
    requires Inv(s) && f < |s.flows| && Timed(At(s, f)) && step.EndLock?
    ensures EndsEarly(s, step, f) <==> (s.flows[f].state != FlowHeld && ClosedEarly(s, step, f, At(s, f).dialedAt))
  {
    hide Inv, Chain, Increasing, Owned, Bytes;
    FlowOf(s, f);
    TableOf(s, f);
  }

  lemma WriteEarlyExactly(s: State, step: Step, f: nat)
    requires Inv(s) && f < |s.flows| && Timed(At(s, f)) && step.ReplaceLock?
    ensures WriteEarly(s, step, f) <==> (s.flows[f].state != FlowHeld && ClosedEarly(s, step, f, At(s, f).dialedAt))
  {
    hide Inv;
    LiveState(s, f);
    TableOf(s, f);
    ReaderOf(s);
  }

  // ---- leaving ----

  /** The releases still to come. */
  function Owed(s: State): int { PendingReleases(s.todo) + Sum(s.flows).releases }

  /** f left the table: with its unit, or a new entry of its client took both over. */
  ghost predicate Freed(s: State, r: State, f: nat)
    requires f < |s.flows|
  {
    var c := s.flows[f].client;
    || (c !in r.table && r.units - Owed(r) == s.units - Owed(s) - 1)
    || (c in r.table && r.table[c] == |s.flows| < |r.flows| && r.flows[|s.flows|].state == FlowOpening
        && r.units - Owed(r) == s.units - Owed(s))
  }

  /** The table without f, or with the newcomer in its place. */
  ghost predicate Vacates(s: State, r: State, f: nat)
    requires f < |s.flows|
  {
    var c := s.flows[f].client;
    && r.otherUnits == s.otherUnits
    && ((c !in r.table && |r.all| == |s.all| - 1)
        || (c in r.table && r.table[c] == |s.flows| < |r.flows| && r.flows[|s.flows|].state == FlowOpening
            && |r.all| == |s.all|))
  }

  lemma RemovedTable(s: State, f: nat, e1: Flow)
    requires Inv(s) && f < |s.flows| && !s.flows[f].gone
    requires e1.gone == s.flows[f].gone && e1.state == s.flows[f].state && e1.idx == s.flows[f].idx
    requires e1.client == s.flows[f].client
    ensures var r := Remove(SetFlow(s, f, e1), f);
            && s.flows[f].client !in r.table && |r.all| == |s.all| - 1 && r.otherUnits == s.otherUnits
            && |r.flows| == |s.flows|
  {
    hide Inv, Remove, Gauges, Swapped;
    RemoveShape(s, f, e1);
    var m := s.(flows := Swapped(s.all, s.flows, f, Out(e1)), table := s.table - {e1.client},
                all := s.all[e1.idx := s.all[|s.all| - 1]][..|s.all| - 1]);
    GaugesTable(m, e1.state, -1);
  }

  lemma GaugesTable(s: State, st: FlowState, delta: int)
    ensures var r := Gauges(s, st, delta); r.table == s.table && r.all == s.all && r.otherUnits == s.otherUnits
  {
  }

  lemma PlacedTable(s: State, d: Dgram, now: int, todo: seq<Action>)
    ensures var r := Place(s, d, now, todo);
            && d.src in r.table && r.table[d.src] == |s.flows| < |r.flows| && r.flows[|s.flows|].state == FlowOpening
            && |r.all| == |s.all| + 1 && r.otherUnits == s.otherUnits
  {
  }

  lemma EndLeaves(s: State, step: Step, f: nat)
    requires Inv(s) && f < |s.flows| && step.EndLock? && step.f == f && s.flows[f].todo == [] && s.flows[f].pc.Ending?
    requires !s.flows[f].gone && s.flows[f].state != FlowHeld && !EndsEarly(s, step, f)
    ensures Vacates(s, Do(s, step), f)
  {
    hide Inv, Remove, SetState;
    assert Do(s, step) == End(s, f, s.flows[f].pc.err, step.now);
    RemovedTable(s, f, s.flows[f].(pc := Exited));
  }

  lemma FailureLeaves(s: State, step: Step, f: nat)
    requires Inv(s) && f < |s.flows| && step == OpenFailedLock(f) && s.flows[f].todo == [] && s.flows[f].pc.DialFailed?
    requires !s.flows[f].gone && !OpenFails(s, step, f)
    ensures Vacates(s, Do(s, step), f)
  {
    hide Inv, Remove, SetState, Waiting, Emptied;
    var e := s.flows[f];
    assert Do(s, step) == OpenFailed(s, f, e.pc.stopping);
    var n := |Waiting(e)| + if e.first.Some? then 1 else 0;
    EmptiedKeeps(e);
    RemovedTable(s, f, Emptied(e).(first := None, pc := if e.pc.stopping then Exited else Holding,
                                   todo := [Release, Count(DropOpenQueue, n)]));
  }

  lemma EmptiedKeeps(e: Flow)
    ensures Emptied(e).gone == e.gone && Emptied(e).state == e.state && Emptied(e).idx == e.idx
    ensures Emptied(e).client == e.client
  {
  }

  lemma WriteLeaves(s: State, step: Step, f: nat)
    requires Inv(s) && f < |s.flows| && step.ReplaceLock? && s.todo == [] && s.reader.Replacing? && s.reader.f == f
    requires InTable(s, f) && s.flows[f].state != FlowHeld && !WriteEarly(s, step, f)
    ensures Vacates(s, Do(s, step), f)
  {
    hide Inv, Remove, SetState, Place;
    var e, d := s.flows[f], s.reader.d;
    assert Do(s, step) == Replace(s, f, d, s.reader.err, step.now, s.reader.again);
    TableOf(s, f);
    ReaderOf(s);
    assert SetFlow(s, f, e) == s by { assert s.flows[f := e] == s.flows; }
    RemovedTable(s, f, e);
    PlacedTable(Remove(s, f), d, step.now, []);
  }

  lemma UnitsOf(s: State)
    requires Inv(s)
    ensures s.units - Owed(s) == |s.all| + s.otherUnits
  {
    hide FlowsInv, ReaderInv, DoneInv, Sum;
  }

  /** Every other end of a flow takes its entry out of the table, with its unit: released, owed or passed on to the
      new entry of its client. */
  lemma OtherEndsLeave(max: nat, bare: nat, active: bool, steps: seq<Step>, step: Step, f: nat)
    requires var s := Exec(Init(max, bare, active), steps);
             && Decides(s, step, f) && InTable(s, f) && s.flows[f].state != FlowHeld && !OpenFails(s, step, f)
             && !ClosedEarly(s, step, f, DialTime(Init(max, bare, active), steps, f))
    ensures var s := Exec(Init(max, bare, active), steps);
            var r := Do(s, step);
            f < |r.flows| && r.flows[f].gone && Freed(s, r, f)
  {
    hide Exec, Do, DialTime, Inv, Owed;
    var s := Exec(Init(max, bare, active), steps);
    var r := Do(s, step);
    RunInv(max, bare, active, steps);
    RunTimed(max, bare, active, steps, f);
    EarlyExactly(s, step, f);
    StepInv(s, step);
    TableOf(s, f);
    UnitsOf(s);
    UnitsOf(r);
    DecidesLeave(s, step, f);
    StepMoves(s, step, f);
    GoneOut(s, r, f);
  }

  lemma DecidesLeave(s: State, step: Step, f: nat)
    requires Inv(s) && Decides(s, step, f) && InTable(s, f) && s.flows[f].state != FlowHeld
    requires !OpenFails(s, step, f) && !EndsEarly(s, step, f) && !WriteEarly(s, step, f)
    ensures Vacates(s, Do(s, step), f)
  {
    hide Inv, Do, Vacates;
    TableOf(s, f);
    if step.EndLock? {
      EndLeaves(s, step, f);
    } else if step.ReplaceLock? {
      WriteLeaves(s, step, f);
    } else {
      FailureLeaves(s, step, f);
    }
  }

  /** An entry that the table does not name is gone. */
  lemma GoneOut(s: State, r: State, f: nat)
    requires Inv(r) && f < |s.flows| && f < |r.flows| && r.flows[f].client == s.flows[f].client && Vacates(s, r, f)
    ensures r.flows[f].gone
  {
    hide Inv;
    TableOf(r, f);
  }

  /** An entry leaves the table only at its own end, when its hold is over, or for a newcomer while every unit is in
      use; and then it was held, or (with PromoteActive) open, no stream when victim examined it, its open and its
      latest datagram in either direction both a second or more ago. */
  lemma LeavesOnly(max: nat, bare: nat, active: bool, steps: seq<Step>, step: Step, f: nat)
    requires var s := Exec(Init(max, bare, active), steps);
             f < |s.flows| && !s.flows[f].gone && f < |Do(s, step).flows| && Do(s, step).flows[f].gone
    ensures var s := Exec(Init(max, bare, active), steps);
            || Decides(s, step, f) || HoldOver(s, step, f)
            || (step.EnterLock? && s.units == max && step.v == Some(f) && f in step.sample
                && (IsHeld(s, f)
                    || (active && s.flows[f].state == FlowOpen && !s.flows[f].stream
                        && Latest(Init(max, bare, active), steps, f) <= step.now - EVICT_IDLE
                        && DialTime(Init(max, bare, active), steps, f) <= step.now - EVICT_IDLE)))
  {
    hide Exec, Do, Inv, VictimOk, Latest, DialTime;
    var s := Exec(Init(max, bare, active), steps);
    RunInv(max, bare, active, steps);
    RunTimed(max, bare, active, steps, f);
    MaxKept(max, bare, active, steps);
    StepMoves(s, step, f);
    TableOf(s, f);
    if EvictedFor(s, step, f) { VictimSafe(s, step.sample, step.now, step.v); }
  }
}
