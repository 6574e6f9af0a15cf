/** l4/forward.go: one Forward call. Two pumps, the session's end, the join
    timer and the context's end race to one end record; a failure must never
    reach either far end as a clean end. */
module Forwarder {

  import opened Bytes

  const MAX_EMPTY_READS := 100   // maxEmptyReads

  // ---- writeFull ----

  /** One answer of a Write: how much it says it took, and whether it erred. */
  datatype WriteAnswer = WriteAnswer(k: int, err: bool)

  datatype WriteEnd = WroteAll | WriteErr

  /** The bytes the first n answers took. */
  function Took(answers: seq<WriteAnswer>, n: nat): int
    requires n <= |answers|
  {
    if n == 0 then 0 else Took(answers, n - 1) + answers[n - 1].k
  }

  /** writeFull against any writer: answers are what its Writes return. The count is what the used answers
      took, all of p exactly when none of them failed, and it stops at the first that fails, makes no
      progress or claims an impossible count. */
  method WriteFull(p: seq<Byte>, answers: seq<WriteAnswer>) returns (written: nat, r: WriteEnd, used: nat)
    requires |answers| >= |p|
    ensures written <= |p| && used <= |answers|
    ensures r == WroteAll <==> written == |p| && forall i :: 0 <= i < used ==> !answers[i].err
    ensures r == WroteAll ==> forall i :: 0 <= i < used ==> 0 < answers[i].k
    ensures written == Took(answers, used) && forall i :: 0 <= i < used - 1 ==> !answers[i].err && 0 < answers[i].k
    ensures r == WriteErr ==> (used > 0 && (answers[used - 1].err || answers[used - 1].k == 0))
                              || (used < |answers| && !(0 <= answers[used].k <= |p| - written))
  {
    written, used := 0, 0;
    var rest := p;
    while |rest| > 0
      invariant written + |rest| == |p| && used <= written && rest == p[written..]
      invariant forall i :: 0 <= i < used ==> !answers[i].err && 0 < answers[i].k
      invariant used <= |answers| && written == Took(answers, used)
      decreases |rest|
    {
      var a := answers[used];
      if a.k < 0 || a.k > |rest| { return written, WriteErr, used; }
      written := written + a.k;
      rest := rest[a.k..];
      used := used + 1;
      if a.err { return written, WriteErr, used; }
      if a.k == 0 { return written, WriteErr, used; }
    }
    return written, WroteAll, used;
  }

  // ---- the protocol ----

  datatype Side = Local | Session

  /** What a Read ended with, and what is then to do. */
  datatype Then = More | Fin | Broken

  datatype Pc =
    | Reading
    | Writing(data: seq<Byte>, after: Then)
    | After(after: Then)
    | Failing(cause: Side)      // fail
    | Aborting                  // then Abort
    | Resetting                 // then closeLocal(true)
    | Signalling
    | Over

  /** A pump: what it read and what the other side took, in order; fin: it passed the FIN on. */
  datatype Pump = Pump(pc: Pc, read: seq<Byte>, given: seq<Byte>, empty: nat, sawFin: bool, eof: bool)

  datatype Reaper =
    | Waiting
    | Recording(cause: Side, abort: bool)   // fail, from the session's end, the join timer or ctx
    | AbortingCtx                           // ctx: Abort
    | ResettingLocal
    | Deciding
    | LastAbort
    | ClosingSession(clean: bool)
    | ClosingLocal(clean: bool)
    | Returned

  /** a moves local -> session, b session -> local. signals: done tokens not yet
      received; pending: those the reaper still waits for. abortedFirst is
      history: whether an Abort came before the session's Close. */
  datatype State = State(
    a: Pump, b: Pump, failed: bool, cause: Side, localDone: bool, closes: nat, reset: bool,
    aborted: bool, sessionCloses: nat, abortedFirst: bool, signals: nat, pending: nat, reaper: Reaper,
    endSeen: bool, joinArmed: bool, cancelSeen: bool)

  function Init(none: seq<Byte>): State
    requires none == []
  {
    var p := Pump(Reading, none, none, 0, false, false);
    State(p, p, false, Local, false, 0, false, false, 0, false, 0, 2, Waiting, false, false, false)
  }

  function Fail(s: State, cause: Side): State {
    if s.failed then s else s.(failed := true, cause := cause)
  }

  function CloseLocal(s: State, reset: bool): State {
    if s.localDone then s else s.(localDone := true, closes := s.closes + 1, reset := reset)
  }

  /** The side a pump reads from, and the one it writes to. */
  function Source(isA: bool): Side { if isA then Local else Session }
  function Sink(isA: bool): Side { if isA then Session else Local }

  datatype Step =
    | Read(isA: bool, data: seq<Byte>, r: Then, bad: bool)  // bad: a count outside [0, len(p)]
    | Write(isA: bool, w: nat, ok: bool)
    | Finish(isA: bool, ok: bool)            // CloseWrite (local without one: ok)
    | Next(isA: bool)                        // the failure path and the signal
    | ReapSignal
    | SessionEnds(clean: bool)
    | JoinTimer
    | ContextEnds
    | ReaperNext

  function Get(s: State, isA: bool): Pump { if isA then s.a else s.b }
  function Put(s: State, isA: bool, p: Pump): State { if isA then s.(a := p) else s.(b := p) }

  /** The pump after a Read: only local's counts are checked, and only local may not idle. */
  function AfterRead(p: Pump, isA: bool, data: seq<Byte>, r: Then, bad: bool): Pump {
    if isA && bad then p.(pc := Failing(Local))
    else if data == [] && r == More then
      if !isA then p
      else if p.empty + 1 >= MAX_EMPTY_READS then p.(pc := Failing(Local), empty := p.empty + 1)
      else p.(empty := p.empty + 1)
    else
      p.(read := p.read + data, empty := 0, sawFin := r == Fin, pc := if data == [] then After(r) else Writing(data, r))
  }

  /** The pump after its Write took the first w bytes. */
  function AfterWrite(p: Pump, isA: bool, w: nat, ok: bool): Pump
    requires p.pc.Writing? && w <= |p.pc.data|
  {
    p.(given := p.given + p.pc.data[..w],
       pc := if ok && w == |p.pc.data| then After(p.pc.after) else Failing(Sink(isA)))
  }

  function PumpNext(s: State, isA: bool): State {
    var p := Get(s, isA);
    match p.pc
    case After(More) => Put(s, isA, p.(pc := Reading))
    case After(Broken) => Put(s, isA, p.(pc := Failing(Source(isA))))
    case Failing(cause) => Put(Fail(s, cause), isA, p.(pc := Aborting))
    case Aborting => Put(s, isA, p.(pc := Resetting)).(aborted := true)
    case Resetting => Put(CloseLocal(s, true), isA, p.(pc := Signalling))
    case Signalling => Put(s, isA, p.(pc := Over)).(signals := s.signals + 1)
    case _ => s
  }

  function ReaperStep(s: State): State {
    match s.reaper
    case Waiting => if s.pending == 0 then s.(reaper := Deciding) else s
    case Recording(cause, abort) => Fail(s, cause).(reaper := if abort then AbortingCtx else ResettingLocal)
    case AbortingCtx => s.(aborted := true, reaper := ResettingLocal)
    case ResettingLocal => CloseLocal(s, true).(reaper := Waiting)
    case Deciding =>
      if !s.failed && s.a.eof && s.b.eof then s.(reaper := ClosingSession(true)) else s.(reaper := LastAbort)
    case LastAbort => s.(aborted := true, reaper := ClosingSession(false))
    case ClosingSession(clean) =>
      s.(sessionCloses := s.sessionCloses + 1, abortedFirst := s.aborted, reaper := ClosingLocal(clean))
    case ClosingLocal(clean) => CloseLocal(s, !clean).(reaper := Returned)
    case Returned => s
  }

  function Do(s: State, step: Step): State {
    match step
    case Read(isA, data, r, bad) =>
      var p := Get(s, isA);
      if p.pc == Reading then Put(s, isA, AfterRead(p, isA, data, r, bad)) else s
    case Write(isA, w, ok) =>
      var p := Get(s, isA);
      if p.pc.Writing? && w <= |p.pc.data| then Put(s, isA, AfterWrite(p, isA, w, ok)) else s
    case Finish(isA, ok) =>
      var p := Get(s, isA);
      if p.pc != After(Fin) then s
      else Put(s, isA, if ok then p.(eof := true, pc := Signalling) else p.(pc := Failing(Sink(isA))))
    case Next(isA) => PumpNext(s, isA)
    case ReapSignal =>
      if s.reaper == Waiting && s.signals > 0 && s.pending > 0 then
        s.(signals := s.signals - 1, pending := s.pending - 1)
      else s
    case SessionEnds(clean) =>
      if s.reaper != Waiting || s.pending == 0 || s.endSeen then s
      else
        var left := if s.signals <= s.pending then s.pending - s.signals else 0;
        var s1 := s.(endSeen := true, pending := left, signals := 0);
        if s1.pending == 0 then s1
        else if clean then s1.(joinArmed := true)
        else s1.(reaper := Recording(Session, false))
    case JoinTimer =>
      if s.reaper == Waiting && s.pending > 0 && s.joinArmed then
        s.(joinArmed := false, reaper := Recording(Local, false))
      else s
    case ContextEnds =>
      if s.reaper == Waiting && s.pending > 0 && !s.cancelSeen then
        s.(cancelSeen := true, reaper := Recording(Session, true))
      else s
    case ReaperNext => ReaperStep(s)
  }

  function Exec(s: State, steps: seq<Step>): State
    decreases |steps|
  {
    if steps == [] then s else Do(Exec(s, steps[..|steps| - 1]), steps[|steps| - 1])
  }

  /** result: what Forward returns. */
  predicate Clean(s: State) { !s.failed && s.a.eof && s.b.eof }

  // ---- the invariant ----

  function Ind(b: bool): nat { if b then 1 else 0 }

  /** Bytes cross in order: what was given is a prefix of what was read, missing
      only what the pump holds; after the FIN nothing is missing. */
  predicate PumpInv(p: Pump) {
    && p.given <= p.read
    && (p.pc.Writing? ==> p.read == p.given + p.pc.data && (p.pc.after == Fin <==> p.sawFin))
    && (p.pc == Reading || p.pc.After? ==> p.read == p.given)
    && (p.pc == Reading ==> !p.sawFin)
    && (p.pc.After? ==> (p.pc.after == Fin <==> p.sawFin))
    && (p.eof ==> p.read == p.given && p.sawFin && (p.pc == Signalling || p.pc == Over))
  }

  /** A pump that failed has the failure recorded before it aborts or resets. */
  predicate Recorded(p: Pump, failed: bool) {
    && (p.pc == Aborting || p.pc == Resetting ==> failed)
    && (p.pc == Signalling || p.pc == Over ==> p.eof || failed)
  }

  predicate ReaperInv(s: State) {
    && s.pending == Ind(s.a.pc != Over) + Ind(s.b.pc != Over) + s.signals
    && (s.reaper == AbortingCtx || s.reaper == ResettingLocal ==> s.failed)
    && (s.reaper == Deciding || s.reaper == LastAbort || s.reaper.ClosingSession? || s.reaper.ClosingLocal?
        || s.reaper == Returned
        ==> s.pending == 0)
    && (s.reaper == LastAbort ==> !Clean(s))
    && (s.reaper.ClosingSession? ==> s.reaper.clean == Clean(s) && (s.reaper.clean || s.aborted))
    && (s.reaper.ClosingLocal? ==> s.reaper.clean == Clean(s))
    && s.sessionCloses == Ind(s.reaper.ClosingLocal? || s.reaper == Returned)
    && (s.sessionCloses > 0 ==> Clean(s) || s.abortedFirst)
  }

  predicate LocalInv(s: State) {
    && s.closes == Ind(s.localDone) && (s.reset ==> s.localDone)
    && (s.localDone && s.reaper != Returned ==> s.reset && s.failed)
    && (s.reaper == Returned ==> s.localDone && (s.reset <==> !Clean(s)))
    && (s.aborted ==> s.failed)
  }

  predicate Inv(s: State) {
    PumpInv(s.a) && PumpInv(s.b) && Recorded(s.a, s.failed) && Recorded(s.b, s.failed) && ReaperInv(s) && LocalInv(s)
  }

  lemma ReadInv(p: Pump, isA: bool, data: seq<Byte>, r: Then, bad: bool)
    requires PumpInv(p) && p.pc == Reading
    ensures PumpInv(AfterRead(p, isA, data, r, bad)) && AfterRead(p, isA, data, r, bad).eof == p.eof
    ensures var q := AfterRead(p, isA, data, r, bad); q.pc == Reading || q.pc.Writing? || q.pc.After? || q.pc.Failing?
  {
    assert p.given + [] == p.given;
  }

  lemma WriteInv(p: Pump, isA: bool, w: nat, ok: bool)
    requires PumpInv(p) && p.pc.Writing? && w <= |p.pc.data|
    ensures PumpInv(AfterWrite(p, isA, w, ok)) && AfterWrite(p, isA, w, ok).eof == p.eof
    ensures var q := AfterWrite(p, isA, w, ok); q.pc.After? || q.pc.Failing?
  {
    var d := p.pc.data;
    assert d == d[..w] + d[w..];
    assert p.read == p.given + d[..w] + d[w..];
    if w == |d| { assert d[..w] == d; }
  }

  /** A pump between Reads changes alone: nothing else moves. */
  lemma BusyInv(s: State, isA: bool, p: Pump)
    requires Inv(s) && PumpInv(p) && p.eof == Get(s, isA).eof
    requires p.pc == Reading || p.pc.Writing? || p.pc.After? || p.pc.Failing?
    requires var o := Get(s, isA).pc; o == Reading || o.Writing? || o.After?
    ensures Inv(Put(s, isA, p))
  {
    hide PumpInv;
    StillRunning(s, isA);
  }

  /** A pump that has not signalled keeps the reaper waiting. */
  lemma StillRunning(s: State, isA: bool)
    requires Inv(s) && Get(s, isA).pc != Over
    ensures s.pending > 0
            && (s.reaper == Waiting || s.reaper.Recording? || s.reaper == AbortingCtx || s.reaper == ResettingLocal)
    ensures s.sessionCloses == 0
  {
    hide PumpInv, LocalInv;
  }

  lemma FinishInv(s: State, isA: bool, ok: bool)
    requires Inv(s)
    ensures Inv(Do(s, Finish(isA, ok)))
  {
    hide PumpInv;
    var p := Get(s, isA);
    if p.pc == After(Fin) {
      StillRunning(s, isA);
      FinPump(p, isA);
    }
  }

  lemma FinPump(p: Pump, isA: bool)
    requires PumpInv(p) && p.pc == After(Fin)
    ensures PumpInv(p.(eof := true, pc := Signalling)) && PumpInv(p.(pc := Failing(Sink(isA))))
  {
  }

  lemma MovedPump(p: Pump, pc: Pc)
    requires PumpInv(p) && !p.pc.Writing? && p.pc != Reading
    requires pc == Aborting || pc == Resetting || pc == Signalling || pc == Over || pc.Failing?
             || (pc == Reading && p.pc == After(More))
    requires p.eof ==> pc == Signalling || pc == Over
    ensures PumpInv(p.(pc := pc))
  {
  }

  lemma FailInv(s: State, isA: bool)
    requires Inv(s) && Get(s, isA).pc.Failing?
    ensures Inv(PumpNext(s, isA))
  {
    hide PumpInv;
    var p := Get(s, isA);
    StillRunning(s, isA);
    EofPc(p);
    MovedPump(p, Aborting);
  }

  lemma AbortInv(s: State, isA: bool)
    requires Inv(s) && Get(s, isA).pc == Aborting
    ensures Inv(PumpNext(s, isA))
  {
    hide PumpInv;
    var p := Get(s, isA);
    StillRunning(s, isA);
    EofPc(p);
    MovedPump(p, Resetting);
  }

  lemma ResetInv(s: State, isA: bool)
    requires Inv(s) && Get(s, isA).pc == Resetting
    ensures Inv(PumpNext(s, isA))
  {
    hide PumpInv;
    var p := Get(s, isA);
    StillRunning(s, isA);
    EofPc(p);
    MovedPump(p, Signalling);
  }

  lemma SignalInv(s: State, isA: bool)
    requires Inv(s) && Get(s, isA).pc == Signalling
    ensures Inv(PumpNext(s, isA))
  {
    hide PumpInv;
    var p := Get(s, isA);
    StillRunning(s, isA);
    MovedPump(p, Over);
  }

  lemma NextInv(s: State, isA: bool)
    requires Inv(s)
    ensures Inv(PumpNext(s, isA))
  {
    hide Inv, PumpInv;
    var p := Get(s, isA);
    PumpOf(s, isA);
    match p.pc
    case After(after) =>
      if after != Fin {
        EofPc(p);
        var pc := if after == More then Reading else Failing(Source(isA));
        MovedPump(p, pc);
        BusyInv(s, isA, p.(pc := pc));
      }
    case Failing(_) => FailInv(s, isA);
    case Aborting => AbortInv(s, isA);
    case Resetting => ResetInv(s, isA);
    case Signalling => SignalInv(s, isA);
    case _ =>
  }

  lemma PumpOf(s: State, isA: bool)
    requires Inv(s)
    ensures PumpInv(Get(s, isA))
  {
    hide ReaperInv, LocalInv, PumpInv;
  }

  lemma EofPc(p: Pump)
    requires PumpInv(p)
    ensures p.eof ==> p.pc == Signalling || p.pc == Over
  {
  }

  /** Both pumps over: clean or failed. */
  lemma Settled(s: State)
    requires Inv(s) && s.pending == 0
    ensures s.a.pc == Over && s.b.pc == Over && s.signals == 0 && (s.failed <==> !Clean(s))
  {
    hide PumpInv, LocalInv;
  }

  /** The reaper records a cause, aborts and resets local. */
  lemma ReaperFailsInv(s: State)
    requires Inv(s) && (s.reaper.Recording? || s.reaper == AbortingCtx || s.reaper == ResettingLocal)
    ensures Inv(ReaperStep(s))
  {
    hide PumpInv;
  }

  /** The reaper's last steps, both pumps over. */
  lemma ReaperEndsInv(s: State)
    requires Inv(s) && !(s.reaper.Recording? || s.reaper == AbortingCtx || s.reaper == ResettingLocal)
    ensures Inv(ReaperStep(s))
  {
    hide PumpInv, ReaperStep;
    if s.reaper == Waiting || s.reaper == Deciding || s.reaper == LastAbort { DecidesInv(s); } else { ClosesInv(s); }
  }

  lemma DecidesInv(s: State)
    requires Inv(s) && (s.reaper == Waiting || s.reaper == Deciding || s.reaper == LastAbort)
    ensures Inv(ReaperStep(s))
  {
    hide PumpInv;
    if s.pending == 0 { Settled(s); }
  }

  lemma ClosesInv(s: State)
    requires Inv(s) && (s.reaper.ClosingSession? || s.reaper.ClosingLocal? || s.reaper == Returned)
    ensures Inv(ReaperStep(s))
  {
    hide PumpInv;
    if s.pending == 0 { Settled(s); }
  }

  lemma StepInv(s: State, step: Step)
    requires Inv(s)
    ensures Inv(Do(s, step))
  {
    hide PumpInv, AfterRead, AfterWrite, Inv, PumpNext, ReaperStep;
    match step
    case Read(isA, data, r, bad) =>
      var p := Get(s, isA);
      PumpOf(s, isA);
      if p.pc == Reading {
        ReadInv(p, isA, data, r, bad);
        BusyInv(s, isA, AfterRead(p, isA, data, r, bad));
      }
    case Write(isA, w, ok) =>
      var p := Get(s, isA);
      PumpOf(s, isA);
      if p.pc.Writing? && w <= |p.pc.data| {
        WriteInv(p, isA, w, ok);
        BusyInv(s, isA, AfterWrite(p, isA, w, ok));
      }
    case Finish(isA, ok) => FinishInv(s, isA, ok);
    case Next(isA) => NextInv(s, isA);
    case ReaperNext =>
      if s.reaper.Recording? || s.reaper == AbortingCtx || s.reaper == ResettingLocal {
        ReaperFailsInv(s);
      } else {
        ReaperEndsInv(s);
      }
    case ReapSignal => WaitInv(s, step);
    case SessionEnds(clean) => EndsInv(s, clean);
    case _ => WaitInv(s, step);
  }

  lemma WaitInv(s: State, step: Step)
    requires Inv(s) && (step.ReapSignal? || step.JoinTimer? || step.ContextEnds?)
    ensures Inv(Do(s, step))
  {
    hide PumpInv, AfterRead, AfterWrite, PumpNext, ReaperStep;
  }

  lemma EndsInv(s: State, clean: bool)
    requires Inv(s)
    ensures Inv(Do(s, SessionEnds(clean)))
  {
    hide PumpInv, AfterRead, AfterWrite, PumpNext, ReaperStep;
  }

  lemma {:induction false} RunInv(none: seq<Byte>, steps: seq<Step>)
    requires none == []
    ensures Inv(Exec(Init(none), steps))
    decreases |steps|
  {
    hide Inv, Do;
    if steps == [] {
      InitInv(none);
    } else {
      RunInv(none, steps[..|steps| - 1]);
      StepInv(Exec(Init(none), steps[..|steps| - 1]), steps[|steps| - 1]);
    }
  }

  lemma InitInv(none: seq<Byte>)
    requires none == []
    ensures Inv(Init(none))
  {
  }

  // ---- what every run shows ----

  /** s is the state after some interleaving. */
  ghost predicate Reachable(s: State) {
    exists steps: seq<Step> :: s == Exec(Init([]), steps)
  }

  /** At every instant each side was given a prefix of what was read from the
      other, and all of it once the FIN was passed on; a FIN is passed on only
      after the source's own FIN with every byte accepted. */
  lemma BytesCross(s: State)
    requires Reachable(s)
    ensures
            && s.a.given <= s.a.read && s.b.given <= s.b.read
            && (s.a.eof ==> s.a.sawFin && s.a.given == s.a.read) && (s.b.eof ==> s.b.sawFin && s.b.given == s.b.read)
            && (s.a.pc == After(Fin) ==> s.a.sawFin && s.a.given == s.a.read)
            && (s.b.pc == After(Fin) ==> s.b.sawFin && s.b.given == s.b.read)
  {
    hide Exec;
    var steps :| s == Exec(Init([]), steps);
    RunInv([], steps);
  }

  /** Local is closed at most once, exactly once when Forward returns, and reset
      exactly when the result is not clean; the session is closed once, and after
      an unclean end only behind an Abort; a clean result saw both FINs, every
      byte delivered, and no Abort. */
  lemma ForwarderEnds(s: State)
    requires Reachable(s)
    ensures
            && s.closes <= 1 && s.sessionCloses <= 1
            && (s.sessionCloses == 1 ==> Clean(s) || s.abortedFirst)
            && (s.reaper == Returned ==> s.closes == 1 && s.sessionCloses == 1 && (s.reset <==> !Clean(s)))
            && (s.reaper == Returned && Clean(s) ==>
                  s.a.sawFin && s.b.sawFin && s.a.given == s.a.read && s.b.given == s.b.read && !s.aborted)
            && (s.reset ==> s.failed)
  {
    hide Exec;
    var steps :| s == Exec(Init([]), steps);
    RunInv([], steps);
    if s.pending == 0 { Settled(s); }
  }

  /** An end is clean or has a recorded cause: when Forward returns without one, both FINs crossed. */
  lemma UncleanHasCause(s: State)
    requires Reachable(s)
    requires s.reaper == Returned
    ensures s.failed <==> !Clean(s)
  {
    hide Exec;
    var steps :| s == Exec(Init([]), steps);
    RunInv([], steps);
  }
}
