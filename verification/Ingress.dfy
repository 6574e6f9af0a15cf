/** The UDP ingress of l4/portforward_udp.go and l4/flowtable.go as a transition
    system. Every mutex region, every call into a session and every atomic
    counter update is one step; a step list is one interleaving of the reader,
    the flows' goroutines, the hold timers, the stop and the other ServeUDP
    calls that share the PortForward's units. Entries are never freed: an entry's
    index in `flows` stands for its pointer. */
module Ingress {

  datatype Option<+T> = None | Some(value: T)

  type Addr = nat

  const QUEUE_LEN := 8            // ingressQueueLen
  const QUEUE_BYTES := 16384      // ingressQueueBytes
  const QUEUE_AGE := 1_000        // ingressQueueAge, in milliseconds
  const OPENING_MAX := 256        // ingressOpeningMax
  const REOPEN_HOLD := 5_000      // ingressReopenHold
  const SAMPLE := 8               // ingressSample
  const EVICT_IDLE := 1_000       // ingressEvictIdle
  const FIRST_BUDGET := 438       // firstBudget

  /** One client datagram; ids number the arrivals. */
  datatype Dgram = Dgram(id: nat, src: Addr, size: nat, at: int)

  datatype FlowState = FlowGone | FlowOpening | FlowOpen | FlowHeld

  /** What ends a session, as the ingress tells the cases apart. */
  datatype EndErr = ErrClosed | EOF | ErrOther

  /** Where an entry's goroutine stands. */
  datatype Pc =
    | Dialing                     // inside dialIngress
    | DialFailed(stopping: bool)  // openFailed, before its region
    | MoveFirst                   // the open went without the first datagram
    | Flushing                    // the flush loop
    | Pumping                     // session -> client
    | Ending(err: EndErr)         // end, before its region
    | Holding                     // hold, before its region
    | Exited

  datatype Counter = ToSession | TooLarge | DropFull | DropOpening | DropOpenQueue | DropOpenAge | DropHeld

  /** What a thread still does after its region, outside the lock. */
  datatype Action = Count(k: Counter, n: nat) | Release | CloseDone(v: nat)

  /** ingressFlow, with its goroutine's local state and, as history, the
      datagrams its session was given in the order of the calls. */
  datatype Flow = Flow(
    client: Addr, since: int, last: int, openedAt: int, stream: bool,
    first: Option<Dgram>, idx: nat, state: FlowState, gone: bool, evicted: bool,
    peerEnd: bool, session: bool, firstQ: Option<Dgram>, q: seq<Dgram>, qBytes: nat,
    doneCloses: nat, pc: Pc, dialedAt: int, maxPayload: nat, batch: seq<Dgram>, ended: bool,
    todo: seq<Action>, calls: seq<Dgram>)

  datatype Counts = Counts(
    toSession: nat, tooLarge: nat, dropFull: nat, dropOpening: nat,
    dropOpenQueue: nat, dropOpenAge: nat, dropHeld: nat)
  {
    function Total(): nat {
      toSession + tooLarge + dropFull + dropOpening + dropOpenQueue + dropOpenAge + dropHeld
    }

    function Add(k: Counter, n: nat): Counts {
      match k
      case ToSession => this.(toSession := toSession + n)
      case TooLarge => this.(tooLarge := tooLarge + n)
      case DropFull => this.(dropFull := dropFull + n)
      case DropOpening => this.(dropOpening := dropOpening + n)
      case DropOpenQueue => this.(dropOpenQueue := dropOpenQueue + n)
      case DropOpenAge => this.(dropOpenAge := dropOpenAge + n)
      case DropHeld => this.(dropHeld := dropHeld + n)
    }
  }

  /** Where the reader stands: between two reads, at the lock of `datagram`
      (again: entered from `replace`), inside an open flow's WriteTo, at the
      lock of `replace`, or returned. */
  datatype Reader =
    | Idle
    | Entering(d: Dgram, again: bool)
    | Writing(f: nat, d: Dgram, again: bool)
    | Replacing(f: nat, d: Dgram, err: EndErr, again: bool)
    | Returned

  datatype State = State(
    max: nat, bare: nat, promoteActive: bool,
    table: map<Addr, nat>, all: seq<nat>, flows: seq<Flow>,
    stopped: bool, cancelled: bool,
    units: int, opening: int, open: int, held: int,
    otherUnits: nat, otherOpening: nat,
    counts: Counts, received: nat,
    reader: Reader, todo: seq<Action>)

  function Init(max: nat, bare: nat, promoteActive: bool): State {
    State(max, bare, promoteActive, map[], [], [], false, false, 0, 0, 0, 0, 0, 0,
          Counts(0, 0, 0, 0, 0, 0, 0), 0, Idle, [])
  }

  // ---- l4/flowtable.go ----

  /** The pool class that holds n bytes (ingressClasses). */
  function Charge(n: nat): nat {
    if n <= 512 then 512 else if n <= 2048 then 2048 else if n <= 16384 then 16384 else 65536
  }

  function Bytes(q: seq<Dgram>): nat {
    if q == [] then 0 else Charge(q[0].size) + Bytes(q[1..])
  }

  /** Room for one more datagram of this charge behind q. */
  predicate Fits(q: seq<Dgram>, charge: nat) {
    q == [] || (|q| < QUEUE_LEN && Bytes(q) + charge <= QUEUE_BYTES)
  }

  /** The fewest oldest datagrams whose removal makes room. */
  function Overflow(q: seq<Dgram>, charge: nat): (k: nat)
    ensures k <= |q|
    ensures Fits(q[k..], charge)
    ensures forall j :: 0 <= j < k ==> !Fits(q[j..], charge)
  {
    if Fits(q, charge) then 0
    else
      var k := Overflow(q[1..], charge);
      assert q[1..][k..] == q[k + 1..];
      assert forall j :: 0 < j < k + 1 ==> q[j..] == q[1..][j - 1..];
      k + 1
  }

  /** push: the queue, its charge and how many datagrams were dropped. */
  function Push(e: Flow, d: Dgram): (r: (Flow, nat)) {
    var c := Charge(d.size);
    if c > QUEUE_BYTES then (e, 1)
    else
      var k := Overflow(e.q, c);
      (e.(q := e.q[k..] + [d], qBytes := Bytes(e.q[k..] + [d])), k)
  }

  function OptSeq(o: Option<Dgram>): seq<Dgram> {
    if o.Some? then [o.value] else []
  }

  /** takeQueue: what waits on e, in arrival order. */
  function Waiting(e: Flow): seq<Dgram> { OptSeq(e.firstQ) + e.q }

  function Emptied(e: Flow): Flow { e.(firstQ := None, q := [], qBytes := 0) }

  function Put(s: State, e: Flow): State {
    var f := |s.flows|;
    s.(flows := s.flows + [e.(idx := |s.all|)], table := s.table[e.client := f], all := s.all + [f])
  }

  /** del: the last entry of `all` takes f's index. */
  function Del(s: State, f: nat): State
    requires f < |s.flows|
  {
    var e := s.flows[f];
    if e.client !in s.table || s.table[e.client] != f || e.idx >= |s.all| || s.all[|s.all| - 1] >= |s.flows| then s
    else
      var last := s.all[|s.all| - 1];
      s.(table := s.table - {e.client},
         all := s.all[e.idx := last][..|s.all| - 1],
         flows := if e.idx == |s.all| - 1 then s.flows else s.flows[last := s.flows[last].(idx := e.idx)])
  }

  function Gauges(s: State, st: FlowState, delta: int): (r: State)
    ensures r.flows == s.flows
  {
    match st
    case FlowOpening => s.(opening := s.opening + delta)
    case FlowOpen => s.(open := s.open + delta)
    case FlowHeld => s.(held := s.held + delta)
    case FlowGone => s
  }

  function SetFlow(s: State, f: nat, e: Flow): State
    requires f < |s.flows|
  {
    s.(flows := s.flows[f := e])
  }

  /** setState, for the two states an entry moves to. */
  function SetState(s: State, f: nat, st: FlowState): (r: State)
    requires f < |s.flows|
    ensures |r.flows| == |s.flows|
  {
    SetFlow(Gauges(Gauges(s, s.flows[f].state, -1), st, 1), f, s.flows[f].(state := st))
  }

  function Remove(s: State, f: nat): (r: State)
    requires f < |s.flows|
    ensures |r.flows| == |s.flows|
  {
    var e := s.flows[f];
    if e.gone then s
    else Del(SetFlow(Gauges(s, e.state, -1), f, e.(state := FlowGone, gone := true)), f)
  }

  /** The instant an open flow counts as active at. */
  function Active(e: Flow): int { if e.last >= e.openedAt then e.last else e.openedAt }

  predicate Evictable(s: State, f: nat, now: int) {
    f < |s.flows| && s.promoteActive && s.flows[f].state == FlowOpen && !s.flows[f].stream
    && Active(s.flows[f]) <= now - EVICT_IDLE
  }

  predicate IsHeld(s: State, f: nat) { f < |s.flows| && s.flows[f].state == FlowHeld }

  /** The draws of flowTable.sample. */
  predicate SampleOk(s: State, sample: seq<nat>) {
    if |s.all| <= SAMPLE then sample == s.all
    else |sample| == SAMPLE && forall i :: 0 <= i < |sample| ==> sample[i] in s.all
  }

  /** The victim's law: the first held entry of the sample; with none held the
      least recently active evictable one, the earliest of equals; else none. */
  predicate VictimOk(s: State, sample: seq<nat>, now: int, v: Option<nat>) {
    if exists i :: 0 <= i < |sample| && IsHeld(s, sample[i]) then
      v.Some? && exists i :: 0 <= i < |sample| && v.value == sample[i] && IsHeld(s, sample[i])
                             && forall j :: 0 <= j < i ==> !IsHeld(s, sample[j])
    else if v.Some? then
      exists i :: 0 <= i < |sample| && v.value == sample[i] && Evictable(s, sample[i], now)
                  && (forall j :: 0 <= j < |sample| && Evictable(s, sample[j], now) ==>
                        Active(s.flows[sample[i]]) <= Active(s.flows[sample[j]]))
                  && (forall j :: 0 <= j < i && Evictable(s, sample[j], now) ==>
                        Active(s.flows[sample[i]]) < Active(s.flows[sample[j]]))
    else
      forall i :: 0 <= i < |sample| ==> !Evictable(s, sample[i], now)
  }

  // ---- the reader ----

  function NewFlow(s: State, d: Dgram, now: int): Flow {
    var rides := d.size > 0 && s.bare + d.size <= FIRST_BUDGET;
    Flow(d.src, now, now, 0, false, if rides then Some(d) else None, 0, FlowOpening, false, false,
         false, false, if rides then None else Some(d.(at := now)), [], 0,
         0, Dialing, 0, 0, [], false, [], [])
  }

  /** The region of `admit`; v is what `victim` picked (looked at only when full). */
  function Admit(s: State, d: Dgram, now: int, v: Option<nat>): State
    requires v.Some? ==> v.value < |s.flows|
  {
    var full := s.units >= s.max;
    if full && v.None? then s.(reader := Idle, todo := [Count(DropFull, 1)])
    else if s.opening >= OPENING_MAX then
      s.(units := if full then s.units else s.units + 1, reader := Idle,
         todo := (if full then [] else [Release]) + [Count(DropOpening, 1)])
    else if full then Place(Evict(s, v.value), d, now, [CloseDone(v.value)])
    else Place(s.(units := s.units + 1), d, now, [])
  }

  /** The newcomer's entry; its unit is taken. */
  function Place(s: State, d: Dgram, now: int, todo: seq<Action>): State {
    Put(s.(opening := s.opening + 1), NewFlow(s, d, now)).(reader := Idle, todo := todo)
  }

  /** The victim leaves the table; only an open one counts as evicted. */
  function Evict(s: State, v: nat): (r: State)
    requires v < |s.flows|
    ensures |r.flows| == |s.flows|
  {
    Remove(SetFlow(s, v, s.flows[v].(evicted := s.flows[v].state == FlowOpen)), v)
  }

  /** The region of `datagram` for a client that has an entry. */
  function Known(s: State, f: nat, d: Dgram, now: int, again: bool): State
    requires f < |s.flows|
  {
    var e := s.flows[f];
    match e.state
    case FlowOpening =>
      var (e1, dropped) := Push(e.(last := now), d.(at := now));
      SetFlow(s, f, e1).(reader := Idle, todo := if dropped > 0 then [Count(DropOpenQueue, dropped)] else [])
    case FlowHeld =>
      SetFlow(s, f, e.(last := now)).(reader := Idle, todo := [Count(DropHeld, 1)])
    case _ => s.(reader := Writing(f, d, again))
  }

  /** The region of `replace`. */
  function Replace(s: State, f: nat, d: Dgram, err: EndErr, now: int, again: bool): State
    requires f < |s.flows|
  {
    var e := s.flows[f];
    if e.client !in s.table || s.table[e.client] != f then s.(reader := Entering(d, true))
    else if e.state == FlowHeld then s.(reader := Idle, todo := [Count(DropHeld, 1)])
    else if err == ErrClosed && now - e.openedAt < REOPEN_HOLD then
      var s1 := SetState(s, f, FlowHeld);
      SetFlow(s1, f, s1.flows[f].(peerEnd := true)).(reader := Idle, todo := [Count(DropHeld, 1)])
    else if s.opening >= OPENING_MAX then
      Remove(s, f).(reader := Idle, todo := [Release, Count(DropOpening, 1)])
    else
      Place(Remove(s, f), d, now, [])
  }

  datatype Write = Wrote | WriteTooLarge | WriteFailed(err: EndErr)

  /** An open flow's WriteTo returned. */
  function WriteDone(s: State, f: nat, d: Dgram, w: Write, now: int, again: bool): State
    requires f < |s.flows|
  {
    var e := s.flows[f];
    var s1 := SetFlow(s, f, e.(last := now, calls := e.calls + [d]));
    match w
    case Wrote => s1.(reader := Idle, todo := [Count(ToSession, 1)])
    case WriteTooLarge => s1.(reader := Idle, todo := [Count(TooLarge, 1)])
    case WriteFailed(err) => s1.(reader := Replacing(f, d, err, again))
  }

  // ---- a flow's goroutine ----

  /** dialIngress returned a session; rode: the OPEN carried the first datagram. */
  function DialOk(e: Flow, rode: bool, maxPayload: nat, now: int): Flow {
    var e1 := e.(maxPayload := maxPayload, dialedAt := now);
    if e.first.None? then e1.(pc := Flushing)
    else if rode then
      e1.(pc := Flushing, first := None, todo := [Count(ToSession, 1)], calls := e.calls + [e.first.value])
    else e1.(pc := MoveFirst)
  }

  function MovedFirst(e: Flow): Flow
    requires e.first.Some?
  {
    e.(pc := Flushing, first := None, firstQ := Some(e.first.value.(at := e.since)))
  }

  /** The flush's region. */
  function FlushTake(s: State, f: nat): State
    requires f < |s.flows|
  {
    var e := s.flows[f];
    var q := Waiting(e);
    if s.stopped then
      SetFlow(s, f, Emptied(e).(pc := Ending(ErrClosed), todo := [Count(DropOpenQueue, |q|)]))
    else if q == [] then
      var s1 := SetState(s, f, FlowOpen);
      SetFlow(s1, f, s1.flows[f].(session := true, openedAt := e.dialedAt, pc := Pumping))
    else SetFlow(s, f, Emptied(e).(batch := q))
  }

  /** What became of one flushed datagram. */
  datatype Fate = Fate(k: Counter, called: bool, ended: bool)

  /** One datagram of the flush: its size is checked before all else, its age
      before it is written; a session that ended takes no more. */
  function FlushFate(e: Flow, d: Dgram, now: int, w: Write): Fate {
    if d.size > e.maxPayload then Fate(TooLarge, false, e.ended)
    else if e.ended then Fate(DropOpenQueue, false, e.ended)
    else if now - d.at > QUEUE_AGE then Fate(DropOpenAge, false, e.ended)
    else
      match w
      case Wrote => Fate(ToSession, true, e.ended)
      case WriteTooLarge => Fate(TooLarge, true, e.ended)
      case WriteFailed(_) => Fate(DropOpenQueue, true, true)
  }

  /** The flush goes on to its next datagram, outside the lock. */
  function FlushOne(e: Flow, now: int, w: Write): Flow
    requires e.batch != []
  {
    var x := FlushFate(e, e.batch[0], now, w);
    e.(batch := e.batch[1..], calls := if x.called then e.calls + [e.batch[0]] else e.calls,
       ended := x.ended, todo := [Count(x.k, 1)])
  }

  /** The region of `openFailed`. */
  function OpenFailed(s: State, f: nat, stopping: bool): State
    requires f < |s.flows|
  {
    var e := s.flows[f];
    var n := |Waiting(e)| + if e.first.Some? then 1 else 0;
    var e1 := Emptied(e).(first := None, pc := if stopping then Exited else Holding);
    if stopping || s.stopped then
      Remove(SetFlow(s, f, e1.(todo := [Release, Count(DropOpenQueue, n)])), f)
    else
      SetState(SetFlow(s, f, e1.(todo := [Count(DropHeld, n)])), f, FlowHeld)
  }

  /** The region of `end`. */
  function End(s: State, f: nat, err: EndErr, now: int): State
    requires f < |s.flows|
  {
    var e := s.flows[f];
    var cause := if e.peerEnd then EOF else err;
    if e.gone then SetFlow(s, f, e.(pc := Exited))
    else if e.state == FlowHeld then SetFlow(s, f, e.(pc := Holding))
    else if !s.stopped && cause == EOF && now - e.openedAt < REOPEN_HOLD then
      SetState(SetFlow(s, f, e.(pc := Holding)), f, FlowHeld)
    else
      var s1 := Remove(SetFlow(s, f, e.(pc := Exited)), f);
      s1.(units := s1.units - 1)
  }

  /** The region of `hold`, after its timer, an eviction or the stop. */
  function HoldEnd(s: State, f: nat): State
    requires f < |s.flows|
  {
    var e := s.flows[f];
    Remove(SetFlow(s, f, e.(pc := Exited, todo := if e.gone then [] else [Release])), f)
  }

  // ---- steps and runs ----

  function Perform(s: State, a: Action): State {
    match a
    case Count(k, n) => s.(counts := s.counts.Add(k, n))
    case Release => s.(units := s.units - 1)
    case CloseDone(v) =>
      if v < |s.flows| then SetFlow(s, v, s.flows[v].(doneCloses := s.flows[v].doneCloses + 1)) else s
  }

  datatype Step =
    | Receive(src: Addr, size: nat, at: int)         // the socket delivers a datagram
    | EnterLock(now: int, sample: seq<nat>, v: Option<nat>)  // datagram's region (admit's included)
    | WriteReturns(w: Write, now: int)               // an open flow's WriteTo
    | ReplaceLock(now: int)
    | ReaderReturns
    | ReaderActs
    | DialReturns(f: nat, now: int, ok: bool, rode: bool, maxPayload: nat, peerClosed: bool)
    | MoveFirstLock(f: nat)
    | FlushLock(f: nat)
    | FlushWrites(f: nat, now: int, w: Write)
    | SessionEnds(f: nat, err: EndErr)
    | OpenFailedLock(f: nat)
    | EndLock(f: nat, now: int)
    | HoldLock(f: nat)
    | FlowActs(f: nat)
    | Promotes(f: nat)                               // flowClass.note, either mover
    | Replies(f: nat, now: int)                      // pump: e.last
    | Halt
    | Shutdown
    | OtherUnit(take: bool)                          // another ServeUDP of this PortForward
    | OtherOpening(take: bool)

  /** One step; a step that is not enabled changes nothing. */
  function Do(s: State, step: Step): State {
    match step
    case Receive(src, size, at) =>
      if s.reader == Idle && s.todo == [] && !s.stopped then
        s.(reader := Entering(Dgram(s.received, src, size, at), false), received := s.received + 1)
      else s
    case EnterLock(now, sample, v) =>
      if s.reader.Entering? && s.todo == [] then
        var r := s.reader;
        if r.d.src in s.table then
          if s.table[r.d.src] < |s.flows| then Known(s, s.table[r.d.src], r.d, now, r.again) else s
        else if SampleOk(s, sample) && VictimOk(s, sample, now, v) && (v.Some? ==> v.value < |s.flows|) then
          Admit(s, r.d, now, v)
        else s
      else s
    case WriteReturns(w, now) =>
      if s.reader.Writing? && s.todo == [] && s.reader.f < |s.flows| then
        WriteDone(s, s.reader.f, s.reader.d, w, now, s.reader.again)
      else s
    case ReplaceLock(now) =>
      if s.reader.Replacing? && s.todo == [] && s.reader.f < |s.flows| then
        Replace(s, s.reader.f, s.reader.d, s.reader.err, now, s.reader.again)
      else s
    case ReaderReturns =>
      if s.reader == Idle && s.todo == [] && s.cancelled then s.(reader := Returned) else s
    case ReaderActs =>
      if s.todo != [] then Perform(s.(todo := s.todo[1..]), s.todo[0]) else s
    case Halt => s.(cancelled := true)
    case Shutdown => if s.reader == Returned then s.(stopped := true, cancelled := true) else s
    case OtherUnit(take) =>
      if take then if s.units < s.max then s.(units := s.units + 1, otherUnits := s.otherUnits + 1) else s
      else if s.otherUnits > 0 then s.(units := s.units - 1, otherUnits := s.otherUnits - 1) else s
    case OtherOpening(take) =>
      if take then
        if s.opening < OPENING_MAX then s.(opening := s.opening + 1, otherOpening := s.otherOpening + 1) else s
      else if s.otherOpening > 0 then s.(opening := s.opening - 1, otherOpening := s.otherOpening - 1) else s
    case FlowActs(f) =>
      if f < |s.flows| && s.flows[f].todo != [] then
        var e := s.flows[f];
        Perform(SetFlow(s, f, e.(todo := e.todo[1..])), e.todo[0])
      else s
    case Promotes(f) =>
      if f < |s.flows| then SetFlow(s, f, s.flows[f].(stream := true)) else s
    case _ =>
      if step.f < |s.flows| && s.flows[step.f].todo == [] then DoFlow(s, step) else s
  }

  /** The goroutine steps that need the flow's deferred actions done. */
  function DoFlow(s: State, step: Step): State
    requires step.DialReturns? || step.MoveFirstLock? || step.FlushLock? || step.FlushWrites?
             || step.SessionEnds? || step.OpenFailedLock? || step.EndLock? || step.HoldLock? || step.Replies?
    requires step.f < |s.flows|
  {
    var f := step.f;
    var e := s.flows[f];
    match step
    case DialReturns(_, now, ok, rode, mp, peerClosed) =>
      if !e.pc.Dialing? then s
      else if ok then SetFlow(s, f, DialOk(e, rode, mp, now))
      else
        var halted := s.cancelled || peerClosed;
        SetFlow(s, f, e.(pc := DialFailed(halted))).(cancelled := halted)
    case MoveFirstLock(_) =>
      if e.pc.MoveFirst? && e.first.Some? then SetFlow(s, f, MovedFirst(e)) else s
    case FlushLock(_) =>
      if e.pc.Flushing? && e.batch == [] then FlushTake(s, f) else s
    case FlushWrites(_, now, w) =>
      if e.pc.Flushing? && e.batch != [] then SetFlow(s, f, FlushOne(e, now, w)) else s
    case SessionEnds(_, err) =>
      if e.pc.Pumping? then SetFlow(s, f, e.(pc := Ending(err))) else s
    case OpenFailedLock(_) =>
      if e.pc.DialFailed? then OpenFailed(s, f, e.pc.stopping) else s
    case EndLock(_, now) =>
      if e.pc.Ending? then End(s, f, e.pc.err, now) else s
    case HoldLock(_) =>
      if e.pc.Holding? then HoldEnd(s, f) else s
    case Replies(_, now) =>
      if e.pc.Pumping? then SetFlow(s, f, e.(last := now)) else s
  }

  /** Every interleaving: the state after any list of steps. */
  function Exec(s: State, steps: seq<Step>): State
    decreases |steps|
  {
    if steps == [] then s else Do(Exec(s, steps[..|steps| - 1]), steps[|steps| - 1])
  }
}
