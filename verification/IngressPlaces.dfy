/** Where each datagram of the UDP ingress is: with the reader, in one of an
    entry's places, or decided. Every step moves datagrams between places
    without doubling one, and takes one out of all places only by naming a
    counter for it, for a reason that the state before the step shows. */
module IngressPlaces {
  import opened Ingress
  import opened IngressSafety
  import opened IngressSteps
  import opened IngressRuns

  // ---- what an entry holds ----

  /** What is counted over the entries: a datagram's places, all datagrams held, what is still to add to a counter. */
  datatype Query = Id(id: nat) | Held | Owing(k: Counter)

  function Occ(q: seq<Dgram>, id: nat): nat {
    if q == [] then 0 else (if q[0].id == id then 1 else 0) + Occ(q[1..], id)
  }

  /** What the actions still to do will add to counter k. */
  function Pending(todo: seq<Action>, k: Counter): nat
    decreases |todo|
  {
    if todo == [] then 0
    else (if todo[0].Count? && todo[0].k == k then todo[0].n else 0) + Pending(todo[1..], k)
  }

  function Weight(e: Flow, q: Query): nat {
    match q
    case Id(id) => Occ(OptSeq(e.first), id) + Occ(OptSeq(e.firstQ), id) + Occ(e.q, id) + Occ(e.batch, id)
    case Held => |OptSeq(e.first)| + |Waiting(e)| + |e.batch|
    case Owing(k) => Pending(e.todo, k)
  }

  function In(fs: seq<Flow>, q: Query): nat {
    if fs == [] then 0 else In(fs[..|fs| - 1], q) + Weight(fs[|fs| - 1], q)
  }

  lemma {:induction false} InUpdate(fs: seq<Flow>, i: nat, e: Flow, q: Query)
    requires i < |fs|
    ensures In(fs[i := e], q) == In(fs, q) - Weight(fs[i], q) + Weight(e, q)
  {
    hide Weight;
    var n := |fs| - 1;
    if i == n {
      assert fs[i := e][..n] == fs[..n];
    } else {
      InUpdate(fs[..n], i, e, q);
      assert fs[i := e][..n] == fs[..n][i := e];
    }
  }

  lemma InAppend(fs: seq<Flow>, e: Flow, q: Query)
    ensures In(fs + [e], q) == In(fs, q) + Weight(e, q)
  {
    hide Weight;
    assert (fs + [e])[..|fs|] == fs;
  }

  // ---- occurrences ----

  lemma {:induction false} OccAppend(a: seq<Dgram>, b: seq<Dgram>, id: nat)
    ensures Occ(a + b, id) == Occ(a, id) + Occ(b, id)
  {
    if a == [] {
      assert a + b == b;
    } else {
      assert (a + b)[1..] == a[1..] + b;
      OccAppend(a[1..], b, id);
    }
  }

  lemma OccOne(d: Dgram, id: nat)
    ensures Occ([d], id) == if d.id == id then 1 else 0
  {
    assert [d][1..] == [];
  }

  lemma {:induction false} OccFind(q: seq<Dgram>, id: nat)
    requires Occ(q, id) > 0
    ensures exists j :: 0 <= j < |q| && q[j].id == id
  {
    if q[0].id != id {
      OccFind(q[1..], id);
      var j :| 0 <= j < |q[1..]| && q[1..][j].id == id;
      assert q[j + 1].id == id;
    }
  }

  lemma OptOcc(o: Option<Dgram>, id: nat)
    ensures Occ(OptSeq(o), id) == if o.Some? && o.value.id == id then 1 else 0
  {
    if o.Some? { OccOne(o.value, id); }
  }

  // ---- places ----

  function InReader(r: Reader, id: nat): nat {
    if InHand(r) == 1 && r.d.id == id then 1 else 0
  }

  /** How many places hold datagram id. */
  function Places(s: State, id: nat): nat { In(s.flows, Id(id)) + InReader(s.reader, id) }

  function Of(c: Counts, k: Counter): nat {
    match k
    case ToSession => c.toSession
    case TooLarge => c.tooLarge
    case DropFull => c.dropFull
    case DropOpening => c.dropOpening
    case DropOpenQueue => c.dropOpenQueue
    case DropOpenAge => c.dropOpenAge
    case DropHeld => c.dropHeld
  }

  /** What counter k shows or is about to show. */
  function Ledger(s: State, k: Counter): nat { Of(s.counts, k) + Pending(s.todo, k) + In(s.flows, Owing(k)) }

  // ---- decisions ----

  /** The counter a list of actions names. */
  function Named(todo: seq<Action>): Option<Counter> {
    if todo == [] then None else if todo[0].Count? then Some(todo[0].k) else Named(todo[1..])
  }

  predicate FlowStep(step: Step) {
    step.DialReturns? || step.MoveFirstLock? || step.FlushLock? || step.FlushWrites?
    || step.SessionEnds? || step.OpenFailedLock? || step.EndLock? || step.HoldLock? || step.Replies?
  }

  predicate ReaderStep(step: Step) { step.EnterLock? || step.WriteReturns? || step.ReplaceLock? }

  /** The counter that the thread of this step is now about to add to. */
  function Decision(r: State, step: Step): Option<Counter> {
    if ReaderStep(step) then Named(r.todo)
    else if FlowStep(step) && step.f < |r.flows| then Named(r.flows[step.f].todo)
    else None
  }

  /** A call to a session, or the OPEN a datagram rode, and what became of it. */
  datatype Out = Out(id: nat, w: Write)

  function Grown(e: Flow, e1: Flow, w: Write): Option<Out> {
    if |e1.calls| > |e.calls| then Some(Out(e1.calls[|e1.calls| - 1].id, w)) else None
  }

  /** The call that ended in this step. */
  function NewCall(s: State, r: State, step: Step): Option<Out> {
    var f := if step.WriteReturns? && s.reader.Writing? then s.reader.f
             else if step.DialReturns? || step.FlushWrites? then step.f else |s.flows|;
    var w := if step.WriteReturns? || step.FlushWrites? then step.w else Wrote;
    if f < |s.flows| && f < |r.flows| then Grown(s.flows[f], r.flows[f], w) else None
  }

  // ---- reasons ----

  /** The reader brings this datagram. */
  predicate Brings(s: State, id: nat) { InHand(s.reader) == 1 && s.reader.d.id == id }

  /** It waits at an entry that is not open yet. */
  predicate Waits(e: Flow, id: nat) {
    (e.first.Some? && e.first.value.id == id) || exists j :: 0 <= j < |Waiting(e)| && Waiting(e)[j].id == id
  }

  /** It is the next datagram of a flush. */
  predicate Flushed(e: Flow, id: nat) { e.pc.Flushing? && e.batch != [] && e.batch[0].id == id }

  /** It is the next datagram of a flush whose session lives, of a size the session takes, and not too old. */
  predicate Writable(s: State, step: Step, id: nat)
    requires step.FlushWrites?
  {
    && step.f < |s.flows| && Flushed(s.flows[step.f], id) && !s.flows[step.f].ended
    && s.flows[step.f].batch[0].size <= s.flows[step.f].maxPayload
    && step.now - s.flows[step.f].batch[0].at <= QUEUE_AGE
  }

  /** Its place in the queue is needed: behind it, with d, the queue would be above its bounds. */
  predicate Displaced(e: Flow, d: Dgram, id: nat) {
    exists j :: 0 <= j < |e.q| && e.q[j].id == id && !Fits(e.q[j..], Charge(d.size))
  }

  /** Why a datagram is decided for counter k in this step, as the state before shows it. */
  ghost predicate Reason(s: State, step: Step, id: nat, k: Counter) {
    match k
    case ToSession =>
      NewCall(s, Do(s, step), step) == Some(Out(id, Wrote)) && (step.FlushWrites? ==> Writable(s, step, id))
    case TooLarge =>
      || (NewCall(s, Do(s, step), step) == Some(Out(id, WriteTooLarge))
          && (step.FlushWrites? ==> Writable(s, step, id)))
      || (step.FlushWrites? && step.f < |s.flows| && Flushed(s.flows[step.f], id)
          && s.flows[step.f].batch[0].size > s.flows[step.f].maxPayload)
    case DropFull =>
      step.EnterLock? && Brings(s, id) && s.reader.d.src !in s.table && s.units >= s.max
      && forall i :: 0 <= i < |step.sample| ==> !IsHeld(s, step.sample[i]) && !Evictable(s, step.sample[i], step.now)
    case DropOpening =>
      && Brings(s, id) && s.opening >= OPENING_MAX
      && ((step.EnterLock? && s.reader.d.src !in s.table) || (step.ReplaceLock? && s.reader.Replacing?))
    case DropHeld =>
      || (step.EnterLock? && Brings(s, id) && s.reader.d.src in s.table && IsHeld(s, s.table[s.reader.d.src]))
      || (step.ReplaceLock? && Brings(s, id) && s.reader.Replacing? && s.reader.f < |s.flows|
          && (IsHeld(s, s.reader.f)
              || (s.reader.err == ErrClosed && step.now - s.flows[s.reader.f].openedAt < REOPEN_HOLD)))
      || (step.OpenFailedLock? && step.f < |s.flows| && Waits(s.flows[step.f], id)
          && s.flows[step.f].pc == DialFailed(false) && !s.stopped)
    case DropOpenQueue =>
      || (step.EnterLock? && s.reader.Entering? && s.reader.d.src in s.table && s.table[s.reader.d.src] < |s.flows|
          && s.flows[s.table[s.reader.d.src]].state == FlowOpening
          && ((Brings(s, id) && Charge(s.reader.d.size) > QUEUE_BYTES)
              || Displaced(s.flows[s.table[s.reader.d.src]], s.reader.d, id)))
      || (step.FlushLock? && step.f < |s.flows| && Waits(s.flows[step.f], id) && s.stopped)
      || (step.OpenFailedLock? && step.f < |s.flows| && Waits(s.flows[step.f], id)
          && (s.stopped || s.flows[step.f].pc == DialFailed(true)))
      || (step.FlushWrites? && step.f < |s.flows| && Flushed(s.flows[step.f], id)
          && s.flows[step.f].batch[0].size <= s.flows[step.f].maxPayload && s.flows[step.f].ended)
      || (step.FlushWrites? && Writable(s, step, id) && step.w.WriteFailed?)
    case DropOpenAge =>
      && step.FlushWrites? && step.f < |s.flows| && Flushed(s.flows[step.f], id)
      && s.flows[step.f].batch[0].size <= s.flows[step.f].maxPayload && !s.flows[step.f].ended
      && step.now - s.flows[step.f].batch[0].at > QUEUE_AGE
  }

  /** What one step may do to datagram id. */
  ghost predicate Fair(s: State, step: Step, id: nat) {
    var r := Do(s, step);
    && (Places(r, id) <= Places(s, id)
        || (step.Receive? && id == s.received && r.received == id + 1 && Places(r, id) == Places(s, id) + 1))
    && (Places(r, id) < Places(s, id) ==>
          Decision(r, step).Some? && Reason(s, step, id, Decision(r, step).value))
    && (NewCall(s, r, step) == Some(Out(id, Wrote)) ==>
          Places(r, id) < Places(s, id) && Decision(r, step) == Some(ToSession))
  }

  // ---- frames ----

  /** e1 holds and owes what e does. */
  predicate SameHold(e: Flow, e1: Flow) {
    e1.first == e.first && e1.firstQ == e.firstQ && e1.q == e.q && e1.batch == e.batch && e1.calls == e.calls
    && e1.todo == e.todo && e1.since == e.since
  }

  ghost predicate SameFlows(fs: seq<Flow>, gs: seq<Flow>) {
    |fs| == |gs| && forall i :: 0 <= i < |fs| ==> SameHold(fs[i], gs[i])
  }

  lemma {:induction false} SameIn(fs: seq<Flow>, gs: seq<Flow>, q: Query)
    requires SameFlows(fs, gs)
    ensures In(fs, q) == In(gs, q)
    decreases |fs|
  {
    if fs != [] {
      var n := |fs| - 1;
      SameIn(fs[..n], gs[..n], q);
      assert SameHold(fs[n], gs[n]);
    }
  }

  lemma SameSet(fs: seq<Flow>, i: nat, e: Flow)
    requires i < |fs| && SameHold(fs[i], e)
    ensures SameFlows(fs, fs[i := e])
  {
  }

  lemma StateFlows(s: State, f: nat, st: FlowState)
    requires f < |s.flows|
    ensures var r := SetState(s, f, st);
            SameFlows(s.flows, r.flows) && r.counts == s.counts && r.todo == s.todo && r.reader == s.reader
            && r.received == s.received
  {
    hide SameHold;
    GaugeFrame(s, s.flows[f].state, -1);
    GaugeFrame(Gauges(s, s.flows[f].state, -1), st, 1);
    SameRefl(s.flows[f], s.flows[f].(state := st));
    forall i | 0 <= i < |s.flows| ensures SameHold(s.flows[i], s.flows[i]) { SameRefl(s.flows[i], s.flows[i]); }
  }

  lemma SameRefl(e: Flow, e1: Flow)
    requires e1 == e.(state := e1.state, gone := e1.gone, idx := e1.idx, evicted := e1.evicted,
                      doneCloses := e1.doneCloses,
                      peerEnd := e1.peerEnd, last := e1.last, stream := e1.stream, pc := e1.pc, session := e1.session,
                      openedAt := e1.openedAt)
    ensures SameHold(e, e1)
  {
  }

  lemma GaugeFrame(s: State, st: FlowState, delta: int)
    ensures var r := Gauges(s, st, delta);
            r.flows == s.flows && r.counts == s.counts && r.todo == s.todo && r.reader == s.reader
            && r.received == s.received
            && r.table == s.table && r.all == s.all
  {
  }

  lemma DelFlows(s: State, f: nat)
    requires f < |s.flows|
    ensures var r := Del(s, f);
            SameFlows(s.flows, r.flows) && r.counts == s.counts && r.todo == s.todo && r.reader == s.reader
            && r.received == s.received
  {
  }

  lemma SameTrans(a: seq<Flow>, b: seq<Flow>, c: seq<Flow>)
    requires SameFlows(a, b) && SameFlows(b, c)
    ensures SameFlows(a, c)
  {
    forall i | 0 <= i < |a| ensures SameHold(a[i], c[i]) { assert SameHold(a[i], b[i]) && SameHold(b[i], c[i]); }
  }

  lemma RemoveFlows(s: State, f: nat)
    requires f < |s.flows|
    ensures var r := Remove(s, f);
            SameFlows(s.flows, r.flows) && r.counts == s.counts && r.todo == s.todo && r.reader == s.reader
            && r.received == s.received
  {
    hide Gauges, Del, SameHold;
    forall i | 0 <= i < |s.flows| ensures SameHold(s.flows[i], s.flows[i]) { SameRefl(s.flows[i], s.flows[i]); }
    var e := s.flows[f];
    if !e.gone {
      var e1 := e.(state := FlowGone, gone := true);
      GaugeFrame(s, e.state, -1);
      var m := SetFlow(Gauges(s, e.state, -1), f, e1);
      SameRefl(e, e1);
      SameSet(s.flows, f, e1);
      DelFlows(m, f);
      SameTrans(s.flows, m.flows, Del(m, f).flows);
    }
  }

  lemma EvictFlows(s: State, v: nat)
    requires v < |s.flows|
    ensures var r := Evict(s, v);
            SameFlows(s.flows, r.flows) && r.counts == s.counts && r.todo == s.todo && r.reader == s.reader
            && r.received == s.received
  {
    hide Remove, SameHold;
    var e1 := s.flows[v].(evicted := s.flows[v].state == FlowOpen);
    SameRefl(s.flows[v], e1);
    forall i | 0 <= i < |s.flows| ensures SameHold(s.flows[i], s.flows[i]) { SameRefl(s.flows[i], s.flows[i]); }
    SameSet(s.flows, v, e1);
    RemoveFlows(SetFlow(s, v, e1), v);
    SameTrans(s.flows, s.flows[v := e1], Evict(s, v).flows);
  }

  // ---- the reader's regions ----

  function If(b: bool): nat { if b then 1 else 0 }

  /** The reader lets go of its datagram; the entries hold what they did. */
  lemma HandEmpties(s: State, r: State, id: nat)
    requires SameFlows(s.flows, r.flows) && InHand(s.reader) == 1 && InHand(r.reader) == 0
    ensures Places(r, id) == Places(s, id) - If(Brings(s, id))
  {
    hide In, SameFlows;
    SameIn(s.flows, r.flows, Id(id));
  }

  /** The reader goes on with its datagram. */
  lemma HandStays(s: State, r: State, id: nat)
    requires SameFlows(s.flows, r.flows) && InHand(s.reader) == 1 && InHand(r.reader) == 1 && r.reader.d == s.reader.d
    ensures Places(r, id) == Places(s, id)
  {
    hide In, SameFlows;
    SameIn(s.flows, r.flows, Id(id));
  }

  /** The reader's datagram becomes a new entry's. */
  lemma HandPlaces(s: State, m: State, now: int, todo: seq<Action>, id: nat)
    requires SameFlows(s.flows, m.flows) && InHand(s.reader) == 1
    ensures Places(Place(m, s.reader.d, now, todo), id) == Places(s, id)
  {
    hide In, SameFlows, Weight;
    SameIn(s.flows, m.flows, Id(id));
    var m1 := m.(opening := m.opening + 1);
    var e := NewFlow(m, s.reader.d, now);
    assert NewFlow(m1, s.reader.d, now) == e;
    InAppend(m.flows, e.(idx := |m.all|), Id(id));
    NewHolds(m, s.reader.d, now, id);
  }

  lemma NewHolds(s: State, d: Dgram, now: int, id: nat)
    ensures Weight(NewFlow(s, d, now).(idx := |s.all|), Id(id)) == If(d.id == id)
    ensures NewFlow(s, d, now).todo == []
  {
    var e := NewFlow(s, d, now);
    OptOcc(e.first, id);
    OptOcc(e.firstQ, id);
  }

  lemma AdmitFair(s: State, step: Step, id: nat)
    requires step.EnterLock? && s.reader.Entering? && s.todo == [] && s.reader.d.src !in s.table
    requires SampleOk(s, step.sample) && VictimOk(s, step.sample, step.now, step.v)
             && (step.v.Some? ==> step.v.value < |s.flows|)
    ensures Fair(s, step, id)
  {
    hide Places, Place, Evict, SameFlows, SampleOk;
    var d, v, now := s.reader.d, step.v, step.now;
    var r := Admit(s, d, now, v);
    assert r == Do(s, step);
    var full := s.units >= s.max;
    SameSelf(s.flows);
    if full && v.None? {
      HandEmpties(s, r, id);
      NoVictim(s, step.sample, now);
    } else if s.opening >= OPENING_MAX {
      HandEmpties(s, r, id);
      assert r.todo == (if full then [] else [Release]) + [Count(DropOpening, 1)];
      NamedRefusal(full);
    } else if full {
      EvictFlows(s, v.value);
      HandPlaces(s, Evict(s, v.value), now, [CloseDone(v.value)], id);
    } else {
      HandPlaces(s, s.(units := s.units + 1), now, [], id);
    }
  }

  lemma SameSelf(fs: seq<Flow>)
    ensures SameFlows(fs, fs)
  {
  }

  lemma NamedRefusal(full: bool)
    ensures Named((if full then [] else [Release]) + [Count(DropOpening, 1)]) == Some(DropOpening)
  {
    var c := [Count(DropOpening, 1)];
    assert [] + c == c;
    assert ([Release] + c)[1..] == c;
  }

  lemma NamedTwo(k: Counter, n: nat)
    ensures Named([Release, Count(k, n)]) == Some(k)
  {
    assert [Release, Count(k, n)][1..] == [Count(k, n)];
  }

  lemma NoVictim(s: State, sample: seq<nat>, now: int)
    requires VictimOk(s, sample, now, None)
    ensures forall i :: 0 <= i < |sample| ==> !IsHeld(s, sample[i]) && !Evictable(s, sample[i], now)
  {
  }

  /** push: the datagram is in the queue, or dropped; each one dropped had to go. */
  lemma PushHolds(e: Flow, d: Dgram, now: int, id: nat)
    ensures var (e1, dropped) := Push(e.(last := now), d.(at := now));
            && e1.first == e.first && e1.firstQ == e.firstQ && e1.batch == e.batch && e1.todo == e.todo
            && e1.calls == e.calls
            && Occ(e1.q, id) <= Occ(e.q, id) + If(d.id == id)
            && (Occ(e1.q, id) < Occ(e.q, id) + If(d.id == id) ==>
                  dropped > 0 && ((d.id == id && Charge(d.size) > QUEUE_BYTES) || Displaced(e, d, id)))
  {
    hide Displaced;
    var c := Charge(d.size);
    if c <= QUEUE_BYTES {
      var k := Overflow(e.q, c);
      assert e.q == e.q[..k] + e.q[k..];
      OccAppend(e.q[..k], e.q[k..], id);
      OccAppend(e.q[k..], [d.(at := now)], id);
      OccOne(d.(at := now), id);
      if Occ(e.q[..k], id) > 0 { DisplacedFound(e, d, k, id); }
    }
  }

  lemma DisplacedFound(e: Flow, d: Dgram, k: nat, id: nat)
    requires k <= |e.q| && Occ(e.q[..k], id) > 0 && forall j :: 0 <= j < k ==> !Fits(e.q[j..], Charge(d.size))
    ensures Displaced(e, d, id)
  {
    hide Fits;
    OccFind(e.q[..k], id);
    var j :| 0 <= j < |e.q[..k]| && e.q[..k][j].id == id;
    assert e.q[j].id == id && !Fits(e.q[j..], Charge(d.size));
  }

  lemma KnownFair(s: State, step: Step, id: nat)
    requires step.EnterLock? && s.reader.Entering? && s.todo == []
    requires s.reader.d.src in s.table && s.table[s.reader.d.src] < |s.flows|
    ensures Fair(s, step, id)
  {
    hide Fair, Known;
    var f := s.table[s.reader.d.src];
    match s.flows[f].state
    case FlowOpening => KnownOpening(s, step, f, id);
    case FlowHeld => KnownHeld(s, step, f, id);
    case _ => KnownOpen(s, step, f, id);
  }

  lemma KnownOpening(s: State, step: Step, f: nat, id: nat)
    requires step.EnterLock? && s.reader.Entering? && s.todo == []
    requires s.reader.d.src in s.table && s.table[s.reader.d.src] == f < |s.flows| && s.flows[f].state == FlowOpening
    ensures Fair(s, step, id)
  {
    hide Places, Push, Displaced, SampleOk, VictimOk, Admit;
    var d, now := s.reader.d, step.now;
    var e := s.flows[f];
    var (e1, dropped) := Push(e.(last := now), d.(at := now));
    var r := SetFlow(s, f, e1).(reader := Idle, todo := if dropped > 0 then [Count(DropOpenQueue, dropped)] else []);
    assert r == Do(s, step);
    PushHolds(e, d, now, id);
    PushPlaces(s, r, f, e1, id);
  }

  lemma KnownHeld(s: State, step: Step, f: nat, id: nat)
    requires step.EnterLock? && s.reader.Entering? && s.todo == []
    requires s.reader.d.src in s.table && s.table[s.reader.d.src] == f < |s.flows| && s.flows[f].state == FlowHeld
    ensures Fair(s, step, id)
  {
    hide Places, SameFlows, SampleOk, VictimOk, Admit, Push;
    var e := s.flows[f].(last := step.now);
    var r := SetFlow(s, f, e).(reader := Idle, todo := [Count(DropHeld, 1)]);
    assert r == Do(s, step);
    SameRefl(s.flows[f], e);
    SameSet(s.flows, f, e);
    HandEmpties(s, r, id);
  }

  lemma KnownOpen(s: State, step: Step, f: nat, id: nat)
    requires step.EnterLock? && s.reader.Entering? && s.todo == []
    requires s.reader.d.src in s.table && s.table[s.reader.d.src] == f < |s.flows|
    requires s.flows[f].state != FlowOpening && s.flows[f].state != FlowHeld
    ensures Fair(s, step, id)
  {
    hide Places, SameFlows, SampleOk, VictimOk, Admit, Push;
    var r := s.(reader := Writing(f, s.reader.d, s.reader.again));
    assert r == Do(s, step);
    SameSelf(s.flows);
    HandStays(s, r, id);
  }

  lemma PushPlaces(s: State, r: State, f: nat, e1: Flow, id: nat)
    requires f < |s.flows| && InHand(s.reader) == 1 && InHand(r.reader) == 0 && r.flows == s.flows[f := e1]
    requires var e := s.flows[f]; e1.first == e.first && e1.firstQ == e.firstQ && e1.batch == e.batch
    ensures Places(r, id) == Places(s, id) - If(Brings(s, id)) + Occ(e1.q, id) - Occ(s.flows[f].q, id)
  {
    hide In, Occ;
    InUpdate(s.flows, f, e1, Id(id));
  }

  lemma WriteFair(s: State, step: Step, id: nat)
    requires step.WriteReturns? && s.reader.Writing? && s.todo == [] && s.reader.f < |s.flows|
    ensures Fair(s, step, id)
  {
    hide Places, In;
    var d, f := s.reader.d, s.reader.f;
    var e := s.flows[f];
    var e1 := e.(last := step.now, calls := e.calls + [d]);
    var r := WriteDone(s, f, d, step.w, step.now, s.reader.again);
    assert r == Do(s, step) && r.flows == s.flows[f := e1];
    assert NewCall(s, r, step) == Some(Out(d.id, step.w));
    CalledPlaces(s, r, f, e1, id);
  }

  lemma CalledPlaces(s: State, r: State, f: nat, e1: Flow, id: nat)
    requires f < |s.flows| && r.flows == s.flows[f := e1]
    requires var e := s.flows[f]; e1.first == e.first && e1.firstQ == e.firstQ && e1.batch == e.batch && e1.q == e.q
    ensures Places(r, id) == Places(s, id) - InReader(s.reader, id) + InReader(r.reader, id)
  {
    hide In, Occ;
    InUpdate(s.flows, f, e1, Id(id));
  }

  lemma ReplaceFair(s: State, step: Step, id: nat)
    requires step.ReplaceLock? && s.reader.Replacing? && s.todo == [] && s.reader.f < |s.flows|
    ensures Fair(s, step, id)
  {
    hide Places, SetState, Remove, Place, SameFlows;
    var d, f, err, now := s.reader.d, s.reader.f, s.reader.err, step.now;
    var e := s.flows[f];
    var r := Replace(s, f, d, err, now, s.reader.again);
    assert r == Do(s, step);
    SameSelf(s.flows);
    StateFlows(s, f, FlowHeld);
    RemoveFlows(s, f);
    if e.client !in s.table || s.table[e.client] != f {
      HandStays(s, r, id);
    } else if e.state == FlowHeld {
      HandEmpties(s, r, id);
    } else if err == ErrClosed && now - e.openedAt < REOPEN_HOLD {
      ReplaceHolds(s, f);
      HandEmpties(s, r, id);
    } else if s.opening >= OPENING_MAX {
      HandEmpties(s, r, id);
      NamedTwo(DropOpening, 1);
    } else {
      HandPlaces(s, Remove(s, f), now, [], id);
    }
  }

  lemma ReplaceHolds(s: State, f: nat)
    requires f < |s.flows|
    ensures var s1 := SetState(s, f, FlowHeld);
            SameFlows(s.flows, SetFlow(s1, f, s1.flows[f].(peerEnd := true)).flows)
  {
    hide SetState, SameHold;
    StateFlows(s, f, FlowHeld);
    var s1 := SetState(s, f, FlowHeld);
    var e := s1.flows[f].(peerEnd := true);
    SameRefl(s1.flows[f], e);
    forall i | 0 <= i < |s1.flows| ensures SameHold(s1.flows[i], s1.flows[i]) { SameRefl(s1.flows[i], s1.flows[i]); }
    SameSet(s1.flows, f, e);
    SameTrans(s.flows, s1.flows, s1.flows[f := e]);
  }

  // ---- an entry's goroutine ----

  /** Entry f becomes e1, up to fields that hold nothing; the reader keeps what it has. */
  lemma FlowChanges(s: State, r: State, f: nat, e1: Flow, id: nat)
    requires f < |s.flows| && SameFlows(s.flows[f := e1], r.flows) && r.reader == s.reader
    ensures Places(r, id) == Places(s, id) - Weight(s.flows[f], Id(id)) + Weight(e1, Id(id))
    ensures f < |r.flows| && r.flows[f].todo == e1.todo && r.flows[f].calls == e1.calls
  {
    hide In, Weight, SameFlows;
    InUpdate(s.flows, f, e1, Id(id));
    SameIn(s.flows[f := e1], r.flows, Id(id));
    SameAt(s.flows[f := e1], r.flows, f);
  }

  lemma SameAt(fs: seq<Flow>, gs: seq<Flow>, i: nat)
    requires SameFlows(fs, gs) && i < |fs|
    ensures |gs| == |fs| && SameHold(fs[i], gs[i])
  {
  }

  /** What an emptied queue held waits. */
  lemma WaitsFound(e: Flow, id: nat)
    ensures Occ(OptSeq(e.first), id) + Occ(OptSeq(e.firstQ), id) + Occ(e.q, id) > 0 ==> Waits(e, id)
    ensures Occ(Waiting(e), id) == Occ(OptSeq(e.firstQ), id) + Occ(e.q, id)
  {
    hide Waiting;
    OptOcc(e.first, id);
    WaitingOcc(e, id);
    if Occ(Waiting(e), id) > 0 { OccFind(Waiting(e), id); }
  }

  lemma WaitingOcc(e: Flow, id: nat)
    ensures Occ(Waiting(e), id) == Occ(OptSeq(e.firstQ), id) + Occ(e.q, id)
  {
    OccAppend(OptSeq(e.firstQ), e.q, id);
  }

  lemma FlowSame(s: State, r: State, f: nat, e1: Flow, id: nat)
    requires f < |s.flows| && r.flows == s.flows[f := e1] && SameHold(s.flows[f], e1) && r.reader == s.reader
    ensures Places(r, id) == Places(s, id)
  {
    hide In, SameHold;
    SameSet(s.flows, f, e1);
    SameIn(s.flows, r.flows, Id(id));
  }

  /** DialReturns: a datagram that rode the OPEN leaves its place. */
  lemma DialFair(s: State, step: Step, id: nat)
    requires step.DialReturns? && step.f < |s.flows| && s.flows[step.f].todo == [] && s.flows[step.f].pc.Dialing?
    ensures Fair(s, step, id)
  {
    hide Places, Weight, In, SameFlows;
    var f := step.f;
    var e, r := s.flows[f], Do(s, step);
    if !step.ok {
      SameRefl(e, r.flows[f]);
      FlowSame(s, r, f, r.flows[f], id);
    } else {
      var e1 := DialOk(e, step.rode, step.maxPayload, step.now);
      assert r == SetFlow(s, f, e1);
      SameSelf(s.flows[f := e1]);
      FlowChanges(s, r, f, e1, id);
      DialHolds(e, step.rode, step.maxPayload, step.now, id);
    }
  }

  lemma DialHolds(e: Flow, rode: bool, mp: nat, now: int, id: nat)
    requires e.todo == []
    ensures var e1 := DialOk(e, rode, mp, now);
            if e.first.Some? && rode then
              && Weight(e1, Id(id)) == Weight(e, Id(id)) - If(e.first.value.id == id)
              && e1.todo == [Count(ToSession, 1)]
              && e1.calls == e.calls + [e.first.value]
            else Weight(e1, Id(id)) == Weight(e, Id(id)) && e1.calls == e.calls && e1.todo == []
  {
    OptOcc(e.first, id);
  }

  lemma MoveFirstFair(s: State, step: Step, id: nat)
    requires step.MoveFirstLock? && step.f < |s.flows| && s.flows[step.f].todo == []
    requires Inv(s) && s.flows[step.f].pc.MoveFirst? && s.flows[step.f].first.Some?
    ensures Fair(s, step, id)
  {
    hide Places, Weight, In, SameFlows, Inv;
    var f := step.f;
    var e, r := s.flows[f], Do(s, step);
    FlowOf(s, f);
    SameSelf(s.flows[f := MovedFirst(e)]);
    FlowChanges(s, r, f, MovedFirst(e), id);
    MovedHolds(e, id);
  }

  lemma MovedHolds(e: Flow, id: nat)
    requires e.first.Some? && e.firstQ.None?
    ensures Weight(MovedFirst(e), Id(id)) == Weight(e, Id(id)) && MovedFirst(e).todo == e.todo
            && MovedFirst(e).calls == e.calls
  {
    OptOcc(e.first, id);
    OptOcc(e.firstQ, id);
    OptOcc(MovedFirst(e).firstQ, id);
  }

  lemma FlushLockFair(s: State, step: Step, id: nat)
    requires step.FlushLock? && step.f < |s.flows| && s.flows[step.f].todo == []
    requires s.flows[step.f].pc.Flushing? && s.flows[step.f].batch == [] && s.flows[step.f].first.None?
    ensures Fair(s, step, id)
  {
    hide Places, Weight, In, SameFlows, SetState, Waiting;
    var f := step.f;
    var e, r := s.flows[f], FlushTake(s, f);
    assert r == Do(s, step);
    WaitsFound(e, id);
    if s.stopped {
      var e1 := Emptied(e).(pc := Ending(ErrClosed), todo := [Count(DropOpenQueue, |Waiting(e)|)]);
      SameSelf(s.flows[f := e1]);
      FlowChanges(s, r, f, e1, id);
      EmptiedHolds(e, e1, id);
    } else if Waiting(e) == [] {
      OpensSame(s, f);
      SameIn2(s, r, id);
      SameAt(s.flows, r.flows, f);
    } else {
      var e1 := Emptied(e).(batch := Waiting(e));
      SameSelf(s.flows[f := e1]);
      FlowChanges(s, r, f, e1, id);
      EmptiedHolds(e, e1, id);
    }
  }

  lemma SameIn2(s: State, r: State, id: nat)
    requires SameFlows(s.flows, r.flows) && r.reader == s.reader
    ensures Places(r, id) == Places(s, id)
  {
    hide In, SameFlows;
    SameIn(s.flows, r.flows, Id(id));
  }

  lemma EmptiedHolds(e: Flow, e1: Flow, id: nat)
    requires e.batch == [] && e.first.None? && e1 == Emptied(e).(pc := e1.pc, todo := e1.todo, batch := e1.batch)
    ensures Weight(e1, Id(id)) == Occ(e1.batch, id)
    ensures Weight(e, Id(id)) == Occ(OptSeq(e.firstQ), id) + Occ(e.q, id)
  {
  }

  lemma OpensSame(s: State, f: nat)
    requires f < |s.flows|
    ensures var s1 := SetState(s, f, FlowOpen);
            var r := SetFlow(s1, f, s1.flows[f].(session := true, openedAt := s.flows[f].dialedAt, pc := Pumping));
            SameFlows(s.flows, r.flows) && r.reader == s.reader
  {
    hide SetState, SameHold;
    StateFlows(s, f, FlowOpen);
    var s1 := SetState(s, f, FlowOpen);
    var e := s1.flows[f].(session := true, openedAt := s.flows[f].dialedAt, pc := Pumping);
    SameRefl(s1.flows[f], e);
    forall i | 0 <= i < |s1.flows| ensures SameHold(s1.flows[i], s1.flows[i]) { SameRefl(s1.flows[i], s1.flows[i]); }
    SameSet(s1.flows, f, e);
    SameTrans(s.flows, s1.flows, s1.flows[f := e]);
  }

  lemma FlushFair(s: State, step: Step, id: nat)
    requires step.FlushWrites? && step.f < |s.flows| && s.flows[step.f].todo == []
    requires s.flows[step.f].pc.Flushing? && s.flows[step.f].batch != []
    ensures Fair(s, step, id)
  {
    hide Places, Weight, In, SameFlows;
    var f := step.f;
    var e, r := s.flows[f], Do(s, step);
    var e1 := FlushOne(e, step.now, step.w);
    SameSelf(s.flows[f := e1]);
    FlowChanges(s, r, f, e1, id);
    FlushHolds(e, e1, id);
    assert e1.calls == e.calls || e1.calls == e.calls + [e.batch[0]];
  }

  lemma FlushHolds(e: Flow, e1: Flow, id: nat)
    requires e.batch != [] && e1 == e.(batch := e.batch[1..], calls := e1.calls, ended := e1.ended, todo := e1.todo)
    ensures Weight(e1, Id(id)) == Weight(e, Id(id)) - If(e.batch[0].id == id)
  {
  }

  lemma OpenFailedFair(s: State, step: Step, id: nat)
    requires Inv(s) && step.OpenFailedLock? && step.f < |s.flows| && s.flows[step.f].todo == []
             && s.flows[step.f].pc.DialFailed?
    ensures Fair(s, step, id)
  {
    hide Places, OpenFailed, Waits, Inv, Occ, OptSeq, Waiting;
    var f := step.f;
    var e := s.flows[f];
    var r := OpenFailed(s, f, e.pc.stopping);
    assert r == Do(s, step);
    NoBatch(s, f);
    WaitsFound(e, id);
    FailedPlaces(s, f, e.pc.stopping, id);
  }

  lemma NoBatch(s: State, f: nat)
    requires Inv(s) && f < |s.flows| && s.flows[f].pc.DialFailed?
    ensures s.flows[f].batch == []
  {
    hide Inv;
    FlowOf(s, f);
  }

  lemma FailedPlaces(s: State, f: nat, stopping: bool, id: nat)
    requires f < |s.flows| && s.flows[f].batch == []
    ensures var e, r := s.flows[f], OpenFailed(s, f, stopping);
            && Places(r, id) == Places(s, id) - (Occ(OptSeq(e.first), id) + Occ(OptSeq(e.firstQ), id) + Occ(e.q, id))
            && f < |r.flows| && r.flows[f].calls == e.calls
            && Named(r.flows[f].todo) == Some(if stopping || s.stopped then DropOpenQueue else DropHeld)
  {
    hide Places, Weight, SameFlows, SetState, Remove, Waiting, Occ, OptSeq, Named, SetFlow, Emptied;
    var e, r := s.flows[f], OpenFailed(s, f, stopping);
    var n := |Waiting(e)| + if e.first.Some? then 1 else 0;
    var e0 := Emptied(e).(first := None, pc := if stopping then Exited else Holding);
    var gone := [Release, Count(DropOpenQueue, n)];
    var held := [Count(DropHeld, n)];
    NamedTwo(DropOpenQueue, n);
    NamedOne(DropHeld, n);
    if stopping || s.stopped {
      RemovedPlaces(s, f, e0.(todo := gone), id);
      FailedHolds(e, e0.(todo := gone), id);
    } else {
      StatedPlaces(s, f, e0.(todo := held), id);
      FailedHolds(e, e0.(todo := held), id);
    }
    EmptiedCalls(e);
  }

  lemma EmptiedCalls(e: Flow)
    ensures Emptied(e).calls == e.calls
  {
  }

  lemma NamedOne(k: Counter, n: nat)
    ensures Named([Count(k, n)]) == Some(k)
  {
  }

  /** Entry f becomes e1 and then leaves the table. */
  lemma RemovedPlaces(s: State, f: nat, e1: Flow, id: nat)
    requires f < |s.flows|
    ensures var r := Remove(SetFlow(s, f, e1), f);
            && Places(r, id) == Places(s, id) - Weight(s.flows[f], Id(id)) + Weight(e1, Id(id))
            && f < |r.flows| && r.flows[f].todo == e1.todo && r.flows[f].calls == e1.calls
  {
    hide Places, Weight, SameFlows, Remove;
    RemoveFlows(SetFlow(s, f, e1), f);
    FlowChanges(s, Remove(SetFlow(s, f, e1), f), f, e1, id);
  }

  /** Entry f becomes e1 and then held. */
  lemma StatedPlaces(s: State, f: nat, e1: Flow, id: nat)
    requires f < |s.flows|
    ensures var r := SetState(SetFlow(s, f, e1), f, FlowHeld);
            && Places(r, id) == Places(s, id) - Weight(s.flows[f], Id(id)) + Weight(e1, Id(id))
            && f < |r.flows| && r.flows[f].todo == e1.todo && r.flows[f].calls == e1.calls
  {
    hide Places, Weight, SameFlows, SetState;
    StateFlows(SetFlow(s, f, e1), f, FlowHeld);
    FlowChanges(s, SetState(SetFlow(s, f, e1), f, FlowHeld), f, e1, id);
  }

  lemma FailedHolds(e: Flow, e1: Flow, id: nat)
    requires e.batch == [] && e1 == Emptied(e).(first := None, pc := e1.pc, todo := e1.todo)
    ensures Weight(e1, Id(id)) == 0
    ensures Weight(e, Id(id)) == Occ(OptSeq(e.first), id) + Occ(OptSeq(e.firstQ), id) + Occ(e.q, id)
  {
  }

  lemma EndFair(s: State, step: Step, id: nat)
    requires step.EndLock? && step.f < |s.flows| && s.flows[step.f].todo == [] && s.flows[step.f].pc.Ending?
    ensures Fair(s, step, id)
  {
    hide Places, In, SameFlows, End;
    var f := step.f;
    EndFlows(s, f, s.flows[f].pc.err, step.now);
    var r := End(s, f, s.flows[f].pc.err, step.now);
    assert r == Do(s, step);
    SameIn2(s, r, id);
    SameAt(s.flows, r.flows, f);
  }

  lemma EndFlows(s: State, f: nat, err: EndErr, now: int)
    requires f < |s.flows|
    ensures var r := End(s, f, err, now); SameFlows(s.flows, r.flows) && r.reader == s.reader
  {
    hide SameFlows, SetState, Remove;
    var e := s.flows[f];
    var x, z := e.(pc := Exited), e.(pc := Holding);
    SameRefl(e, x);
    SameRefl(e, z);
    SameSet(s.flows, f, x);
    SameSet(s.flows, f, z);
    RemoveFlows(SetFlow(s, f, x), f);
    StateFlows(SetFlow(s, f, z), f, FlowHeld);
    SameTrans(s.flows, s.flows[f := x], Remove(SetFlow(s, f, x), f).flows);
    SameTrans(s.flows, s.flows[f := z], SetState(SetFlow(s, f, z), f, FlowHeld).flows);
  }

  lemma HoldFair(s: State, step: Step, id: nat)
    requires step.HoldLock? && step.f < |s.flows| && s.flows[step.f].todo == [] && s.flows[step.f].pc.Holding?
    ensures Fair(s, step, id)
  {
    hide Places, In, SameFlows, Remove;
    var f := step.f;
    var e, r := s.flows[f], Do(s, step);
    var e1 := e.(pc := Exited, todo := if e.gone then [] else [Release]);
    RemoveFlows(SetFlow(s, f, e1), f);
    FlowChanges(s, r, f, e1, id);
  }

  /** The goroutine's steps that hold and decide nothing new. */
  lemma PlainFair(s: State, step: Step, id: nat)
    requires (step.SessionEnds? || step.Replies?) && step.f < |s.flows| && s.flows[step.f].pc.Pumping?
             && s.flows[step.f].todo == []
    ensures Fair(s, step, id)
  {
    hide Places, In;
    var f := step.f;
    var e, r := s.flows[f], Do(s, step);
    SameRefl(e, r.flows[f]);
    FlowSame(s, r, f, r.flows[f], id);
  }

  // ---- every step ----

  lemma IdleFair(s: State, step: Step, id: nat)
    requires Do(s, step) == s
    ensures Fair(s, step, id)
  {
    hide Do;
  }

  lemma FlowFair(s: State, step: Step, id: nat)
    requires Inv(s) && FlowStep(step) && step.f < |s.flows|
    ensures Fair(s, step, id)
  {
    hide Fair, Inv, FlushTake, OpenFailed, End, HoldEnd, FlushOne, DialOk, MovedFirst;
    var e := s.flows[step.f];
    if e.todo != [] {
      IdleFair(s, step, id);
    } else {
      match step
      case DialReturns(_, _, _, _, _, _) => if e.pc.Dialing? { DialFair(s, step, id); } else { IdleFair(s, step, id); }
      case MoveFirstLock(_) =>
        if e.pc.MoveFirst? && e.first.Some? { MoveFirstFair(s, step, id); } else { IdleFair(s, step, id); }
      case FlushLock(_) =>
        if e.pc.Flushing? && e.batch == [] {
          FlowOf(s, step.f);
          FlushLockFair(s, step, id);
        } else {
          IdleFair(s, step, id);
        }
      case FlushWrites(_, _, _) =>
        if e.pc.Flushing? && e.batch != [] { FlushFair(s, step, id); } else { IdleFair(s, step, id); }
      case OpenFailedLock(_) => if e.pc.DialFailed? { OpenFailedFair(s, step, id); } else { IdleFair(s, step, id); }
      case EndLock(_, _) => if e.pc.Ending? { EndFair(s, step, id); } else { IdleFair(s, step, id); }
      case HoldLock(_) => if e.pc.Holding? { HoldFair(s, step, id); } else { IdleFair(s, step, id); }
      case _ => if e.pc.Pumping? { PlainFair(s, step, id); } else { IdleFair(s, step, id); }
    }
  }

  lemma ReaderFair(s: State, step: Step, id: nat)
    requires ReaderStep(step)
    ensures Fair(s, step, id)
  {
    hide Fair, Known, Admit, WriteDone, Replace, SampleOk, VictimOk;
    match step
    case EnterLock(now, sample, v) =>
      if s.reader.Entering? && s.todo == [] {
        if s.reader.d.src in s.table {
          if s.table[s.reader.d.src] < |s.flows| { KnownFair(s, step, id); } else { IdleFair(s, step, id); }
        } else if SampleOk(s, sample) && VictimOk(s, sample, now, v) && (v.Some? ==> v.value < |s.flows|) {
          AdmitFair(s, step, id);
        } else {
          IdleFair(s, step, id);
        }
      } else {
        IdleFair(s, step, id);
      }
    case WriteReturns(_, _) =>
      if s.reader.Writing? && s.todo == [] && s.reader.f < |s.flows| {
        WriteFair(s, step, id);
      } else {
        IdleFair(s, step, id);
      }
    case ReplaceLock(_) =>
      if s.reader.Replacing? && s.todo == [] && s.reader.f < |s.flows| {
        ReplaceFair(s, step, id);
      } else {
        IdleFair(s, step, id);
      }
  }

  lemma PerformPlaces(s: State, a: Action, id: nat)
    ensures Places(Perform(s, a), id) == Places(s, id)
  {
    hide In;
    if a.CloseDone? && a.v < |s.flows| {
      var e := s.flows[a.v].(doneCloses := s.flows[a.v].doneCloses + 1);
      SameSet(s.flows, a.v, e);
      SameIn(s.flows, s.flows[a.v := e], Id(id));
    }
  }

  /** The deferred actions move no datagram. */
  lemma ActsFair(s: State, step: Step, id: nat)
    requires step.ReaderActs? || step.FlowActs?
    ensures Fair(s, step, id)
  {
    hide In, Perform, Weight;
    if step.ReaderActs? && s.todo != [] {
      PerformPlaces(s.(todo := s.todo[1..]), s.todo[0], id);
    } else if step.FlowActs? && step.f < |s.flows| && s.flows[step.f].todo != [] {
      var e := s.flows[step.f];
      var e1 := e.(todo := e.todo[1..]);
      PerformPlaces(SetFlow(s, step.f, e1), e.todo[0], id);
      InUpdate(s.flows, step.f, e1, Id(id));
      SameWeight(e, e1, id);
    }
  }

  lemma SameWeight(e: Flow, e1: Flow, id: nat)
    requires e1 == e.(todo := e1.todo)
    ensures Weight(e1, Id(id)) == Weight(e, Id(id))
  {
  }

  /** The steps around the reader and the flows: a datagram enters, or nothing moves. */
  lemma OtherFair(s: State, step: Step, id: nat)
    requires !FlowStep(step) && !ReaderStep(step)
    ensures Fair(s, step, id)
  {
    hide In, SameFlows, Fair, Perform;
    if step.ReaderActs? || step.FlowActs? {
      ActsFair(s, step, id);
    } else if step.Promotes? {
      PromoteFair(s, step, id);
    } else {
      EnvFair(s, step, id);
    }
  }

  lemma PromoteFair(s: State, step: Step, id: nat)
    requires step.Promotes?
    ensures Fair(s, step, id)
  {
    hide In;
    if step.f < |s.flows| {
      var e := s.flows[step.f].(stream := true);
      SameRefl(s.flows[step.f], e);
      FlowSame(s, Do(s, step), step.f, e, id);
    }
  }

  lemma EnvFair(s: State, step: Step, id: nat)
    requires step.Receive? || step.ReaderReturns? || step.Halt? || step.Shutdown? || step.OtherUnit?
             || step.OtherOpening?
    ensures Fair(s, step, id)
  {
    hide In;
  }

  /** Every step is fair to every datagram. */
  lemma StepFair(s: State, step: Step, id: nat)
    requires Inv(s)
    ensures Fair(s, step, id)
  {
    hide Fair, Inv, Do;
    if ReaderStep(step) {
      ReaderFair(s, step, id);
    } else if FlowStep(step) {
      if step.f < |s.flows| { FlowFair(s, step, id); } else { NoFlow(s, step); IdleFair(s, step, id); }
    } else {
      OtherFair(s, step, id);
    }
  }

  lemma NoFlow(s: State, step: Step)
    requires FlowStep(step) && step.f >= |s.flows|
    ensures Do(s, step) == s
  {
  }
}
