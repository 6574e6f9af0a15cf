/** quic/datagram.go, send side: WriteTo, the sender goroutine and Close as
    steps over the egress queue, and what becomes of every accepted datagram. */
module QuicSend {
  import opened QuicRings
  import opened Bytes
  import Rx = QuicRx

  datatype Err = NoErr | TooLargeErr | FatalErr

  datatype Pc =
    | Top                     // at the lock: give back, wait, pop
    | Popped(s: Slot)         // the age check, outside the lock
    | Sending(s: Slot)        // inside SendDatagram
    | Exiting                 // returned: discard is still to run
    | Exited

  /** A datagram that left the queue for the sender: the no-th that WriteTo accepted, its age checked then. */
  datatype Emitted = Emitted(no: nat, b: seq<Byte>, checked: int)

  /** egress, the sender and the counters. wire is history: the numbers of the
      datagrams quic-go accepted; lost: the datagram in hand when quic-go failed.
      History too: book, all datagrams WriteTo accepted; out, those sent; aged, those
      the sender dropped for their age; hand and checked, which one the sender has
      and when it looked at its age. */
  datatype State = State(
    max: nat, limit: nat, q: seq<Slot>, err: Err, closed: bool, pc: Pc,
    num: nat, wire: seq<nat>, accepted: nat, sent: nat, drops: nat, owed: nat, lost: nat,
    book: seq<Slot>, out: seq<Emitted>, aged: seq<Emitted>, hand: nat, checked: int)

  function Init(max: nat, limit: nat): State {
    State(max, limit, [], NoErr, false, Top, 0, [], 0, 0, 0, 0, 0, [], [], [], 0, 0)
  }

  function SetErr(s: State, e: Err): State {
    if s.err == FatalErr then s else s.(err := e)
  }

  datatype Sent = Accepted | TooLarge(limit: nat) | Broken

  datatype Step =
    | Write(b: seq<Byte>, cap: nat, now: int, late: bool)  // late: the write deadline passed
    | Take(done: bool)                                     // the sender at the lock; done: the connection ended
    | CheckAge(now: int)
    | SendReturns(r: Sent)
    | Discard                                              // at the sender's exit, or Close's own
    | Close
    | CountDrops                                           // the atomic additions after a region

  function Do(s: State, step: Step): State {
    match step
    case Write(b, cap, now, late) =>
      if late then s
      else if s.err != NoErr then if s.err == FatalErr then s else s.(err := NoErr)
      else if |b| > s.limit || cap < |b| then s
      else
        var k := Stale(s.q, cap, s.max, now);
        var x := Slot(b, cap, now);
        s.(q := s.q[k..] + [x], accepted := s.accepted + 1, owed := s.owed + k, book := s.book + [x])
    case Take(done) =>
      if s.pc != Top then s
      else if s.closed then s.(pc := Exiting)
      else if s.q != [] then
        s.(pc := Popped(s.q[0]), q := s.q[1..], hand := if |s.q| <= |s.book| then |s.book| - |s.q| else 0)
      else if done then SetErr(s, FatalErr).(pc := Exiting)
      else s
    case CheckAge(now) =>
      if !s.pc.Popped? then s
      else if now - s.pc.s.at > EGRESS_AGE then
        s.(pc := Top, owed := s.owed + 1, aged := s.aged + [Emitted(s.hand, s.pc.s.b, now)])
      else s.(pc := Sending(s.pc.s), checked := now)
    case SendReturns(r) =>
      if !s.pc.Sending? then s
      else
        (match r
         case Accepted =>
           s.(pc := Top, num := Rx.Inc(s.num), wire := s.wire + [s.num], sent := s.sent + 1,
              out := s.out + [Emitted(s.hand, s.pc.s.b, s.checked)])
         case TooLarge(m) =>
           SetErr(s.(limit := if m < s.limit then m else s.limit), TooLargeErr).(pc := Top, owed := s.owed + 1)
         case Broken => SetErr(s, FatalErr).(pc := Exiting, lost := s.lost + 1))
    case Discard =>
      if s.pc == Exiting || s.pc == Exited then s.(pc := Exited, q := [], owed := s.owed + |s.q|) else s
    case Close => s.(closed := true, err := FatalErr)
    case CountDrops => s.(drops := s.drops + s.owed, owed := 0)
  }

  function Exec(s: State, steps: seq<Step>): State
    decreases |steps|
  {
    if steps == [] then s else Do(Exec(s, steps[..|steps| - 1]), steps[|steps| - 1])
  }

  function InHand(pc: Pc): nat { if pc.Popped? || pc.Sending? then 1 else 0 }

  predicate Inv(s: State) {
    && s.accepted == s.sent + s.drops + s.owed + |s.q| + InHand(s.pc) + s.lost
    && (s.pc == Exiting || s.pc == Exited ==> s.err == FatalErr)
    && (s.pc == Exited ==> s.q == [])
    && s.lost <= 1 && (s.lost == 1 ==> s.pc == Exiting || s.pc == Exited)
    && (s.closed ==> s.err == FatalErr)
    && |s.wire| == s.sent && s.num == Rx.Wire(s.sent)
    && (forall i :: 0 <= i < |s.wire| ==> s.wire[i] == Rx.Wire(i))
    && |s.q| <= EGRESS_MAX && (Caps(s.q) <= s.max || |s.q| <= 1)
  }

  lemma WriteInv(s: State, step: Step)
    requires Inv(s) && step.Write?
    ensures Inv(Do(s, step))
  {
    hide Rx.Wire;
    var r := Do(s, step);
    if r.accepted != s.accepted {
      var k := Stale(s.q, step.cap, s.max, step.now);
      CapsAppend(s.q[k..], Slot(step.b, step.cap, step.now));
      if k == 0 { assert s.q[0..] == s.q; }
    }
  }

  lemma StepInv(s: State, step: Step)
    requires Inv(s)
    ensures Inv(Do(s, step))
  {
    hide Rx.Wire, Rx.Inc, Stale;
    if step.Write? {
      WriteInv(s, step);
    } else {
      Rx.ModNext(s.sent);
    }
  }

  lemma StepMax(s: State, step: Step)
    ensures Do(s, step).max == s.max
  {
    hide Rx.Inc, Stale;
  }

  lemma {:induction false} RunInv(max: nat, limit: nat, steps: seq<Step>)
    ensures Inv(Exec(Init(max, limit), steps)) && Exec(Init(max, limit), steps).max == max
    decreases |steps|
  {
    hide Do, Rx.Wire, Rx.Inc;
    if steps == [] {
      Rx.ModNext(0);
    } else {
      RunInv(max, limit, steps[..|steps| - 1]);
      StepInv(Exec(Init(max, limit), steps[..|steps| - 1]), steps[|steps| - 1]);
      StepMax(Exec(Init(max, limit), steps[..|steps| - 1]), steps[|steps| - 1]);
    }
  }

  /** s is the state after some interleaving. */
  ghost predicate Reachable(max: nat, limit: nat, s: State) {
    exists steps: seq<Step> :: s == Exec(Init(max, limit), steps)
  }

  /** Every accepted datagram was sent, is counted or about to be counted in
      EgressDrops, is queued, or is the one in the sender's hand; and once the
      sender has gone, all of them are sent or counted but the one quic-go broke on. */
  lemma AcceptedAccounted(max: nat, limit: nat, s: State)
    requires Reachable(max, limit, s)
    ensures
            && s.accepted == s.sent + s.drops + s.owed + |s.q| + InHand(s.pc) + s.lost && InHand(s.pc) + s.lost <= 1
            && (s.pc == Exited && s.owed == 0 ==> s.accepted == s.sent + s.drops + s.lost)
  {
    hide Exec;
    var steps :| s == Exec(Init(max, limit), steps);
    RunInv(max, limit, steps);
  }

  /** The numbers given to sent datagrams are 0, 1, 2, ... modulo 2^32, in order and without a hole. */
  lemma SentNumbers(max: nat, limit: nat, s: State, i: nat)
    requires Reachable(max, limit, s)
    requires i < |s.wire|
    ensures s.wire[i] == i % WRAP && |s.wire| == s.sent && s.num == s.sent % WRAP
  {
    hide Exec;
    var steps :| s == Exec(Init(max, limit), steps);
    RunInv(max, limit, steps);
  }

  /** The queue's bounds: at most EGRESS_MAX datagrams, and no more bytes of
      buffers than allowed unless a single datagram exceeds them. */
  lemma QueueBounded(max: nat, limit: nat, s: State)
    requires Reachable(max, limit, s)
    ensures |s.q| <= EGRESS_MAX && (Caps(s.q) <= max || |s.q| <= 1)
  {
    hide Exec;
    var steps :| s == Exec(Init(max, limit), steps);
    RunInv(max, limit, steps);
  }

  /** Once the sender returned, nothing is accepted any more. */
  lemma NoWriteAfterExit(s: State, step: Step)
    requires Inv(s) && (s.pc == Exiting || s.pc == Exited)
    ensures Do(s, step).accepted == s.accepted && (s.pc == Exited ==> Do(s, step).q == [])
  {
    hide Stale, Rx.Wire;
  }

  // ---- which datagrams are sent ----

  /** The queue is the end of the book, and what was sent lies before it and before what is in hand. */
  predicate Traced(s: State) {
    && |s.book| == s.accepted && |s.q| <= |s.book| && s.q == s.book[|s.book| - |s.q|..]
    && (InHand(s.pc) == 1 ==>
          s.hand < |s.book| - |s.q| && s.book[s.hand] == s.pc.s
          && forall i :: 0 <= i < |s.out| ==> s.out[i].no < s.hand)
    && (s.pc.Sending? ==> s.checked - s.pc.s.at <= EGRESS_AGE)
    && |s.out| == s.sent && (forall i :: 0 <= i < |s.out| ==> s.out[i].no < |s.book| - |s.q| && Sound(s.book, s.out[i]))
    && (forall i, j :: 0 <= i < j < |s.out| ==> s.out[i].no < s.out[j].no)
    && (forall i :: 0 <= i < |s.aged| ==> Old(s.book, s.aged[i]))
  }

  /** It is an accepted datagram, unchanged, and was young enough. */
  predicate Sound(book: seq<Slot>, x: Emitted) {
    x.no < |book| && x.b == book[x.no].b && x.checked - book[x.no].at <= EGRESS_AGE
  }

  /** It is an accepted datagram, and was too old. */
  predicate Old(book: seq<Slot>, x: Emitted) {
    x.no < |book| && x.b == book[x.no].b && x.checked - book[x.no].at > EGRESS_AGE
  }

  lemma WriteTraced(s: State, step: Step)
    requires Traced(s) && step.Write?
    ensures Traced(Do(s, step))
  {
    hide Traced, Stale;
    SameTraced(s, s.(err := NoErr));
    var k, x := Stale(s.q, step.cap, s.max, step.now), Slot(step.b, step.cap, step.now);
    var queued := s.(q := s.q[k..] + [x], accepted := s.accepted + 1, owed := s.owed + k, book := s.book + [x]);
    QueuedTraced(s, k, x, queued);
  }

  lemma SameTraced(s: State, r: State)
    requires Traced(s) && r == s.(err := r.err)
    ensures Traced(r)
  {
  }

  lemma QueuedTraced(s: State, k: nat, x: Slot, r: State)
    requires Traced(s) && k <= |s.q|
    requires r == s.(q := s.q[k..] + [x], accepted := s.accepted + 1, owed := r.owed, book := s.book + [x])
    ensures Traced(r)
  {
    hide Sound, Old;
    WriteQueue(s, k, x);
    forall i | 0 <= i < |s.out| ensures Sound(r.book, r.out[i]) { SoundLater(s.book, x, s.out[i]); }
    forall i | 0 <= i < |s.aged| ensures Old(r.book, r.aged[i]) { SoundLater(s.book, x, s.aged[i]); }
  }

  lemma SoundLater(book: seq<Slot>, y: Slot, x: Emitted)
    ensures Sound(book, x) ==> Sound(book + [y], x)
    ensures Old(book, x) ==> Old(book + [y], x)
  {
  }

  lemma WriteQueue(s: State, k: nat, x: Slot)
    requires |s.q| <= |s.book| && s.q == s.book[|s.book| - |s.q|..] && k <= |s.q|
    ensures var b, q := s.book + [x], s.q[k..] + [x]; |q| <= |b| && q == b[|b| - |q|..]
  {
  }

  lemma TakeTraced(s: State, step: Step)
    requires Traced(s) && step.Take?
    ensures Traced(Do(s, step))
  {
    hide Sound, Old;
    if s.pc == Top && !s.closed && s.q != [] {
      assert s.book[|s.book| - |s.q|..][1..] == s.book[|s.book| - |s.q| + 1..];
    }
  }

  lemma SendTraced(s: State, step: Step)
    requires Traced(s) && step.SendReturns?
    ensures Traced(Do(s, step))
  {
    hide Rx.Inc, Traced;
    if s.pc.Sending? {
      if step.r.Accepted? { SentTraced(s, Do(s, step)); } else { LetGoTraced(s, Do(s, step)); }
    }
  }

  /** The sender lets its datagram go. */
  lemma LetGoTraced(s: State, r: State)
    requires Traced(s) && (r.pc == Top || r.pc == Exiting)
    requires r == s.(pc := r.pc, err := r.err, limit := r.limit, owed := r.owed, lost := r.lost)
    ensures Traced(r)
  {
    hide Sound, Old;
  }

  lemma SentTraced(s: State, r: State)
    requires Traced(s) && s.pc.Sending? && r.pc == Top
    requires r == s.(pc := r.pc, num := r.num, wire := r.wire, sent := s.sent + 1,
                     out := s.out + [Emitted(s.hand, s.pc.s.b, s.checked)])
    ensures Traced(r)
  {
    hide Sound, Old;
    EmitTraced(s, Emitted(s.hand, s.pc.s.b, s.checked));
  }

  lemma EmitTraced(s: State, x: Emitted)
    requires Traced(s) && s.pc.Sending? && x == Emitted(s.hand, s.pc.s.b, s.checked)
    ensures Sound(s.book, x) && forall i :: 0 <= i < |s.out| ==> s.out[i].no < x.no
  {
  }

  lemma OtherTraced(s: State, step: Step)
    requires Traced(s) && !step.Write? && !step.Take? && !step.SendReturns?
    ensures Traced(Do(s, step))
  {
    hide Sound;
  }

  lemma StepTraced(s: State, step: Step)
    requires Traced(s)
    ensures Traced(Do(s, step))
  {
    hide Do, Traced;
    match step
    case Write(_, _, _, _) => WriteTraced(s, step);
    case Take(_) => TakeTraced(s, step);
    case SendReturns(_) => SendTraced(s, step);
    case _ => OtherTraced(s, step);
  }

  lemma {:induction false} RunTraced(max: nat, limit: nat, steps: seq<Step>)
    ensures Traced(Exec(Init(max, limit), steps))
    decreases |steps|
  {
    hide Do;
    if steps != [] {
      RunTraced(max, limit, steps[..|steps| - 1]);
      StepTraced(Exec(Init(max, limit), steps[..|steps| - 1]), steps[|steps| - 1]);
    }
  }

  /** The datagrams sent are, in order and each at most once, datagrams that WriteTo accepted, unchanged, none older
      than EGRESS_AGE when the sender looked, and those it dropped for their age were older; those waiting are the
      last accepted, in order. */
  lemma SentInOrder(max: nat, limit: nat, s: State)
    requires Reachable(max, limit, s)
    ensures |s.book| == s.accepted && |s.out| == s.sent && |s.q| <= |s.book| && s.q == s.book[|s.book| - |s.q|..]
    ensures forall i :: 0 <= i < |s.out| ==>
              && s.out[i].no < |s.book| - |s.q| && s.out[i].b == s.book[s.out[i].no].b
              && s.out[i].checked - s.book[s.out[i].no].at <= EGRESS_AGE
    ensures forall i :: 0 <= i < |s.aged| ==>
              s.aged[i].no < |s.book| && s.aged[i].checked - s.book[s.aged[i].no].at > EGRESS_AGE
    ensures forall i, j :: 0 <= i < j < |s.out| ==> s.out[i].no < s.out[j].no
  {
    hide Exec;
    var steps :| s == Exec(Init(max, limit), steps);
    RunTraced(max, limit, steps);
    forall i | 0 <= i < |s.out| ensures Sound(s.book, s.out[i]) {}
    forall i | 0 <= i < |s.aged| ensures Old(s.book, s.aged[i]) {}
  }
}
