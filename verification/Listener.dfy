/** listener.go: the pending queue of one session kind. Accept calls, the
    admission's reserve, bind and enqueue, sessions that leave, cancellations
    and Close interleave at their lock regions and at each use of the one-place
    wake token. */
module Listener {

  /** Where an Accept call stands. */
  datatype Accept =
    | Top                    // next's loop: about to look at its context
    | AtLock
    | ToSignal(t: nat)       // took ticket t and saw more: about to wake another
    | Took(t: nat)           // about to look at the session's state
    | Selecting              // waiting for the token, its context or the close
    | Passing                // its context ended: about to look for waiting sessions
    | ToPass                 // about to hand the wakeup on
    | Returned(t: nat)       // with the session of ticket t
    | ReturnedNone           // with an error

  /** A session's ticket is its place in the order of enqueues; order is that
      history. signals: enqueues that unlocked and still owe their wakeup.
      tried: sessions whose enqueue ran; refused: those that were refused. */
  datatype State = State(
    backlog: nat, closed: bool, n: int, reserved: nat, pending: set<nat>,
    queue: seq<nat>, token: bool, signals: nat, accepts: seq<Accept>,
    order: seq<nat>, taken: seq<nat>, tried: set<nat>, refused: set<nat>)

  function Init(backlog: nat): State {
    State(backlog, false, 0, 0, {}, [], false, 0, [], [], [], {}, {})
  }

  // ---- the lock regions ----

  datatype Reserved = ReserveOK | ReserveClosed | ReserveFull

  function Reserve(s: State): (State, Reserved) {
    if s.closed then (s, ReserveClosed)
    else if s.n + s.reserved >= s.backlog then (s, ReserveFull)
    else (s.(reserved := s.reserved + 1), ReserveOK)
  }

  function Bind(s: State, x: nat): State
    requires s.reserved > 0
  {
    s.(reserved := s.reserved - 1, n := s.n + 1, pending := s.pending + {x})
  }

  function Enqueue(s: State, x: nat): State {
    var s1 := s.(tried := s.tried + {x});
    if x !in s.pending then s1
    else if s.closed then s1.(refused := s.refused + {x})
    else s1.(queue := s.queue + [|s.order|], order := s.order + [x], signals := s.signals + 1)
  }

  /** The queue without the tickets of session x. */
  function Without(order: seq<nat>, q: seq<nat>, x: nat): seq<nat> {
    if q == [] then []
    else (if q[0] < |order| && order[q[0]] == x then [] else [q[0]]) + Without(order, q[1..], x)
  }

  function LeavePending(s: State, x: nat): State {
    if x !in s.pending then s
    else s.(pending := s.pending - {x}, n := s.n - 1, queue := Without(s.order, s.queue, x))
  }

  function Shut(s: State): State {
    if s.closed then s else s.(closed := true, refused := s.refused + s.pending)
  }

  // ---- steps ----

  datatype Step =
    | ReserveSlot | Unreserve | BindSession(x: nat) | EnqueueSession(x: nat)
    | Signal                              // an enqueue's signal
    | Leave(x: nat)
    | Close
    | NewAccept
    | Look(i: nat, cancelled: bool)       // ctx.Err
    | Lock(i: nat)
    | Wake(i: nat)                        // next's signal after it saw more
    | Decide(i: nat, stillPending: bool)  // the session's state
    | Receive(i: nat)                     // the token
    | Cancel(i: nat)                      // ctx.Done while waiting
    | SeeClosed(i: nat)                   // ln.done while waiting
    | PassLock(i: nat)
    | PassSignal(i: nat)

  function Set(s: State, i: nat, a: Accept): State
    requires i < |s.accepts|
  {
    s.(accepts := s.accepts[i := a])
  }

  function Do(s: State, step: Step): State {
    match step
    case ReserveSlot => Reserve(s).0
    case Unreserve => if s.reserved > 0 then s.(reserved := s.reserved - 1) else s
    case BindSession(x) => if s.reserved > 0 && x !in s.pending && x !in s.tried then Bind(s, x) else s
    case EnqueueSession(x) => if x !in s.tried then Enqueue(s, x) else s
    case Signal => if s.signals > 0 then s.(signals := s.signals - 1, token := true) else s
    case Leave(x) => LeavePending(s, x)
    case Close => Shut(s)
    case NewAccept => s.(accepts := s.accepts + [Top])
    case _ => if step.i < |s.accepts| then Advance(s, step, s.accepts[step.i]) else s
  }

  function Advance(s: State, step: Step, a: Accept): State
    requires step.Look? || step.Lock? || step.Wake? || step.Decide? || step.Receive? || step.Cancel? || step.SeeClosed?
             || step.PassLock? || step.PassSignal?
    requires step.i < |s.accepts|
  {
    var i := step.i;
    match step
    case Look(_, cancelled) => if a == Top then Set(s, i, if cancelled then Passing else AtLock) else s
    case Lock(_) =>
      if a != AtLock then s
      else if s.closed then Set(s, i, ReturnedNone)
      else if s.queue == [] then Set(s, i, Selecting)
      else
        Set(s, i, if |s.queue| > 1 then ToSignal(s.queue[0]) else Took(s.queue[0]))
          .(queue := s.queue[1..], taken := s.taken + [s.queue[0]])
    case Wake(_) => if a.ToSignal? then Set(s, i, Took(a.t)).(token := true) else s
    case Decide(_, still) => if a.Took? then Set(s, i, if still then Returned(a.t) else Top) else s
    case Receive(_) => if a == Selecting && s.token then Set(s, i, Top).(token := false) else s
    case Cancel(_) => if a == Selecting then Set(s, i, Passing) else s
    case SeeClosed(_) => if a == Selecting && s.closed then Set(s, i, ReturnedNone) else s
    case PassLock(_) => if a == Passing then Set(s, i, if s.queue != [] then ToPass else ReturnedNone) else s
    case PassSignal(_) => if a == ToPass then Set(s, i, ReturnedNone).(token := true) else s
  }

  function Exec(s: State, steps: seq<Step>): State
    decreases |steps|
  {
    if steps == [] then s else Do(Exec(s, steps[..|steps| - 1]), steps[|steps| - 1])
  }

  // ---- the invariant ----

  /** An Accept that will still look at the queue, or set the token. */
  predicate Obliged(a: Accept) { a == Top || a == AtLock || a.ToSignal? || a == Passing || a == ToPass }

  /** A waiting session of an open Listener has a wakeup, or somebody owes one. */
  ghost predicate Awake(s: State) {
    !s.closed && s.queue != [] ==>
      s.token || s.signals > 0 || exists i :: 0 <= i < |s.accepts| && Obliged(s.accepts[i])
  }

  predicate Increasing(q: seq<nat>) { forall i, j :: 0 <= i < j < |q| ==> q[i] < q[j] }

  ghost predicate Ordered(s: State) {
    && Increasing(s.taken + s.queue)
    && (forall i :: 0 <= i < |s.taken + s.queue| ==> (s.taken + s.queue)[i] < |s.order|)
    && (forall i, j :: 0 <= i < j < |s.order| ==> s.order[i] != s.order[j])
    && (forall i :: 0 <= i < |s.order| ==> s.order[i] in s.tried)
    && (forall i :: 0 <= i < |s.queue| ==> s.queue[i] < |s.order| && s.order[s.queue[i]] in s.pending)
  }

  ghost predicate Slots(s: State) {
    s.n == |s.pending| && s.n + s.reserved <= s.backlog
  }

  /** Ticket t is the one an Accept holds or returned. */
  predicate Has(a: Accept, t: nat) { a == ToSignal(t) || a == Took(t) || a == Returned(t) }

  /** Each ticket is in at most one Accept's hands, and only once taken. */
  ghost predicate Owned(s: State) {
    && (forall i, t :: 0 <= i < |s.accepts| && Has(s.accepts[i], t) ==> t in s.taken)
    && (forall i, j, t :: 0 <= i < j < |s.accepts| && Has(s.accepts[i], t) ==> !Has(s.accepts[j], t))
  }

  /** Close leaves no pending session without an answer. */
  ghost predicate Answered(s: State) {
    s.closed ==> forall x :: x in s.pending && x in s.tried ==> x in s.refused
  }

  ghost predicate Inv(s: State) { Awake(s) && Ordered(s) && Slots(s) && Owned(s) && Answered(s) }

  // ---- leaving the queue ----

  lemma {:induction false} WithoutOf(order: seq<nat>, q: seq<nat>, x: nat)
    ensures |Without(order, q, x)| <= |q|
    ensures forall t :: t in Without(order, q, x) <==> t in q && !(t < |order| && order[t] == x)
    ensures Increasing(q) ==> Increasing(Without(order, q, x))
  {
    if q != [] {
      WithoutOf(order, q[1..], x);
      assert q == [q[0]] + q[1..];
      var w := Without(order, q[1..], x);
      if Increasing(q) {
        forall i | 0 <= i < |w| ensures q[0] < w[i] {
          assert w[i] in q[1..];
        }
      }
    }
  }

  lemma Joined(a: seq<nat>, b: seq<nat>, c: seq<nat>)
    requires Increasing(a + b) && Increasing(c) && forall x :: x in c ==> x in b
    ensures Increasing(a + c)
  {
    forall i, j | 0 <= i < j < |a + c| ensures (a + c)[i] < (a + c)[j] {
      if i < |a| <= j {
        assert c[j - |a|] in b;
        var k :| 0 <= k < |b| && b[k] == c[j - |a|];
        assert (a + b)[i] < (a + b)[|a| + k];
      } else if j < |a| {
        assert (a + b)[i] < (a + b)[j];
      }
    }
  }

  lemma TailIncreasing(a: seq<nat>, b: seq<nat>)
    requires Increasing(a + b)
    ensures Increasing(b)
  {
    forall i, j | 0 <= i < j < |b| ensures b[i] < b[j] {
      assert (a + b)[|a| + i] < (a + b)[|a| + j];
    }
  }

  lemma LeaveInv(s: State, x: nat)
    requires Inv(s)
    ensures Inv(LeavePending(s, x))
  {
    hide Without, Owned;
    if x in s.pending {
      var r := LeavePending(s, x);
      WithoutOf(s.order, s.queue, x);
      TailIncreasing(s.taken, s.queue);
      Joined(s.taken, s.queue, r.queue);
      forall i | 0 <= i < |r.taken + r.queue| ensures (r.taken + r.queue)[i] < |r.order| {
        if i >= |r.taken| {
          assert r.queue[i - |r.taken|] in s.queue;
          InQueue(s, r.queue[i - |r.taken|]);
        } else {
          assert (s.taken + s.queue)[i] == s.taken[i];
        }
      }
      forall i | 0 <= i < |r.queue| ensures r.queue[i] < |r.order| && r.order[r.queue[i]] in r.pending {
        assert r.queue[i] in s.queue;
        InQueue(s, r.queue[i]);
      }
      OwnedKept(s, r);
    }
  }

  lemma InQueue(s: State, t: nat)
    requires Ordered(s) && t in s.queue
    ensures t < |s.order| && s.order[t] in s.pending
  {
    var k :| 0 <= k < |s.queue| && s.queue[k] == t;
    assert (s.taken + s.queue)[|s.taken| + k] == t;
  }

  lemma OwnedKept(s: State, r: State)
    requires Owned(s) && r.accepts == s.accepts && r.taken == s.taken
    ensures Owned(r)
  {
  }

  // ---- the other steps ----

  lemma EnqueueInv(s: State, x: nat)
    requires Inv(s) && x !in s.tried
    ensures Inv(Enqueue(s, x))
  {
    hide Owned;
    var r := Enqueue(s, x);
    OwnedKept(s, r);
    if r.queue != s.queue {
      assert r.taken + r.queue == (s.taken + s.queue) + [|s.order|];
      assert Ordered(r);
      assert Awake(r);
      assert Slots(r);
      assert Answered(r);
    } else if r.order == s.order {
      assert r.taken + r.queue == s.taken + s.queue;
    }
  }

  lemma BindInv(s: State, x: nat)
    requires Inv(s) && s.reserved > 0 && x !in s.pending && x !in s.tried
    ensures Inv(Bind(s, x))
  {
    hide Owned;
    OwnedKept(s, Bind(s, x));
  }

  lemma ShutInv(s: State)
    requires Inv(s)
    ensures Inv(Shut(s))
  {
    hide Owned;
    OwnedKept(s, Shut(s));
  }

  /** Small changes that touch neither the queue nor the Accepts. */
  lemma PlainInv(s: State, step: Step)
    requires Inv(s) && (step.ReserveSlot? || step.Unreserve? || step.Signal? || step.NewAccept?)
    ensures Inv(Do(s, step))
  {
    var r := Do(s, step);
    if step.NewAccept? {
      assert forall i :: 0 <= i < |s.accepts| ==> r.accepts[i] == s.accepts[i];
      if !r.closed && r.queue != [] { assert Obliged(r.accepts[|s.accepts|]); }
    }
  }

  lemma AdvanceAwake(s: State, step: Step)
    requires Awake(s) && (step.Look? || step.Lock? || step.Wake? || step.Decide? || step.Receive? || step.Cancel?
                          || step.SeeClosed? || step.PassLock? || step.PassSignal?)
    requires step.i < |s.accepts|
    ensures Awake(Advance(s, step, s.accepts[step.i]))
  {
    var i := step.i;
    var r := Advance(s, step, s.accepts[i]);
    if !r.closed && r.queue != [] && !r.token && r.signals == 0 && !Obliged(r.accepts[i]) {
      if s.token || s.signals > 0 {
      } else {
        var j :| 0 <= j < |s.accepts| && Obliged(s.accepts[j]);
        assert j != i ==> Obliged(r.accepts[j]);
      }
    }
  }

  lemma AdvanceOrdered(s: State, step: Step)
    requires Ordered(s) && Slots(s) && Answered(s)
    requires step.Look? || step.Lock? || step.Wake? || step.Decide? || step.Receive? || step.Cancel?
             || step.SeeClosed? || step.PassLock? || step.PassSignal?
    requires step.i < |s.accepts|
    ensures var r := Advance(s, step, s.accepts[step.i]); Ordered(r) && Slots(r) && Answered(r)
  {
    hide Ordered;
    var r := Advance(s, step, s.accepts[step.i]);
    assert r.taken + r.queue == s.taken + s.queue;
    SameOrder(s, r);
  }

  /** A step that keeps the order, the pending sessions and the two lists as one, taking only from the queue. */
  lemma SameOrder(s: State, r: State)
    requires Ordered(s) && r.taken + r.queue == s.taken + s.queue && |r.queue| <= |s.queue|
    requires r.order == s.order && r.tried == s.tried && s.pending == r.pending
    ensures Ordered(r)
  {
    hide Increasing;
    var d := |s.queue| - |r.queue|;
    forall i | 0 <= i < |r.queue| ensures r.queue[i] < |r.order| && r.order[r.queue[i]] in r.pending {
      assert (r.taken + r.queue)[|r.taken| + i] == (s.taken + s.queue)[|s.taken| + i + d];
      assert r.queue[i] == s.queue[i + d];
    }
  }

  lemma AdvanceOwned(s: State, step: Step)
    requires Ordered(s) && Owned(s)
    requires step.Look? || step.Lock? || step.Wake? || step.Decide? || step.Receive? || step.Cancel?
             || step.SeeClosed? || step.PassLock? || step.PassSignal?
    requires step.i < |s.accepts|
    ensures Owned(Advance(s, step, s.accepts[step.i]))
  {
    hide Owned, Ordered;
    var i, a := step.i, s.accepts[step.i];
    var r := Advance(s, step, a);
    if step.Lock? && a == AtLock && !s.closed && s.queue != [] {
      Untaken(s);
      OwnedTakes(s, r, i, s.queue[0]);
    } else {
      OwnedStays(s, r, i);
    }
  }

  /** Accept i gets the ticket at the queue's head. */
  lemma OwnedTakes(s: State, r: State, i: nat, t: nat)
    requires Owned(s) && i < |s.accepts| && t !in s.taken && r.taken == s.taken + [t]
    requires |r.accepts| == |s.accepts| && r.accepts == s.accepts[i := r.accepts[i]]
    requires forall x :: Has(r.accepts[i], x) ==> x == t
    ensures Owned(r)
  {
    assert r.taken[|s.taken|] == t;
    assert forall x :: x in s.taken ==> x in r.taken;
  }

  /** Accept i gets no ticket. */
  lemma OwnedStays(s: State, r: State, i: nat)
    requires Owned(s) && i < |s.accepts| && r.taken == s.taken
    requires |r.accepts| == |s.accepts| && r.accepts == s.accepts[i := r.accepts[i]]
    requires forall x :: Has(r.accepts[i], x) ==> Has(s.accepts[i], x)
    ensures Owned(r)
  {
  }

  /** The queue's head was not taken before. */
  lemma Untaken(s: State)
    requires Ordered(s) && s.queue != []
    ensures s.queue[0] !in s.taken
  {
    forall k | 0 <= k < |s.taken| ensures s.taken[k] != s.queue[0] {
      assert (s.taken + s.queue)[k] < (s.taken + s.queue)[|s.taken|];
    }
  }

  lemma StepInv(s: State, step: Step)
    requires Inv(s)
    ensures Inv(Do(s, step))
  {
    hide Awake, Ordered, Slots, Owned, Answered, Advance, Enqueue, Bind, LeavePending, Shut;
    match step
    case ReserveSlot => PlainInv(s, step);
    case Unreserve => PlainInv(s, step);
    case Signal => PlainInv(s, step);
    case NewAccept => PlainInv(s, step);
    case BindSession(x) => if s.reserved > 0 && x !in s.pending && x !in s.tried { BindInv(s, x); }
    case EnqueueSession(x) => if x !in s.tried { EnqueueInv(s, x); }
    case Leave(x) => LeaveInv(s, x);
    case Close => ShutInv(s);
    case _ =>
      if step.i < |s.accepts| {
        AdvanceAwake(s, step);
        AdvanceOrdered(s, step);
        AdvanceOwned(s, step);
      }
  }

  lemma StepBacklog(s: State, step: Step)
    ensures Do(s, step).backlog == s.backlog
  {
    hide Without;
  }

  lemma {:induction false} RunInv(backlog: nat, steps: seq<Step>)
    ensures Inv(Exec(Init(backlog), steps)) && Exec(Init(backlog), steps).backlog == backlog
    decreases |steps|
  {
    hide Inv, Do;
    if steps == [] {
      InitInv(backlog);
    } else {
      RunInv(backlog, steps[..|steps| - 1]);
      StepInv(Exec(Init(backlog), steps[..|steps| - 1]), steps[|steps| - 1]);
      StepBacklog(Exec(Init(backlog), steps[..|steps| - 1]), steps[|steps| - 1]);
    }
  }

  lemma InitInv(backlog: nat)
    ensures Inv(Init(backlog))
  {
  }

  // ---- what every run shows ----

  /** No lost wakeup: when a session waits on an open Listener and every Accept is
      at rest - waiting, returned, or holding a session - with no enqueue in
      progress, the wake token is there for the Accepts that wait. */
  lemma NoLostWakeup(backlog: nat, steps: seq<Step>)
    requires var s := Exec(Init(backlog), steps);
             !s.closed && s.queue != [] && s.signals == 0 && forall i :: 0 <= i < |s.accepts| ==> !Obliged(s.accepts[i])
    ensures Exec(Init(backlog), steps).token
  {
    hide Exec;
    RunInv(backlog, steps);
  }

  /** Sessions leave the queue for Accepts in enqueue order, each for one. */
  lemma FirstInFirstAccepted(backlog: nat, steps: seq<Step>)
    ensures var s := Exec(Init(backlog), steps);
            && (forall i, j :: 0 <= i < j < |s.taken| ==> s.taken[i] < s.taken[j] < |s.order|)
            && (forall i, j, t :: 0 <= i < j < |s.accepts| && Has(s.accepts[i], t) ==> !Has(s.accepts[j], t))
            && (forall i, j :: 0 <= i < j < |s.order| ==> s.order[i] != s.order[j])
  {
    hide Exec;
    RunInv(backlog, steps);
    var s := Exec(Init(backlog), steps);
    forall i, j | 0 <= i < j < |s.taken| ensures s.taken[i] < s.taken[j] < |s.order| {
      assert (s.taken + s.queue)[i] == s.taken[i] && (s.taken + s.queue)[j] == s.taken[j];
    }
  }

  /** The backlog: slots in use are the pending sessions, and with the reservations never above AcceptBacklog. */
  lemma BacklogBounded(backlog: nat, steps: seq<Step>)
    ensures var s := Exec(Init(backlog), steps);
            s.n == |s.pending| && s.n + s.reserved <= backlog && |s.queue| <= |s.pending|
  {
    hide Exec;
    RunInv(backlog, steps);
    QueueFits(Exec(Init(backlog), steps));
  }

  lemma QueueFits(s: State)
    requires Inv(s)
    ensures |s.queue| <= |s.pending|
  {
    TailIncreasing(s.taken, s.queue);
    forall i | 0 <= i < |s.queue| ensures s.queue[i] < |s.order| {
      assert (s.taken + s.queue)[|s.taken| + i] == s.queue[i];
    }
    Pigeon(s.order, s.queue, s.pending);
  }

  lemma {:induction false} Pigeon(order: seq<nat>, q: seq<nat>, p: set<nat>)
    requires Increasing(q) && forall i :: 0 <= i < |q| ==> q[i] < |order| && order[q[i]] in p
    requires forall i, j :: 0 <= i < j < |order| ==> order[i] != order[j]
    ensures |q| <= |p|
  {
    if q != [] {
      var n := |q| - 1;
      Pigeon(order, q[..n], p - {order[q[n]]});
    }
  }

  /** After Close every pending session whose enqueue ran was refused, whether
      Close or its own enqueue came first. */
  lemma CloseAnswersAll(backlog: nat, steps: seq<Step>, x: nat)
    requires var s := Exec(Init(backlog), steps); s.closed && x in s.pending && x in s.tried
    ensures x in Exec(Init(backlog), steps).refused
  {
    hide Exec;
    RunInv(backlog, steps);
  }

  // ---- the regions as they are written ----

  /** The admission side of a Listener, under its mutex. */
  class Backlog {
    const backlog: nat
    var closed: bool
    var n: int
    var reserved: nat
    var pending: set<nat>
    var queue: seq<nat>            // sessions
    var token: bool
    ghost var tickets: seq<nat>    // of the queued sessions
    ghost var signals: nat
    ghost var accepts: seq<Accept>
    ghost var order: seq<nat>
    ghost var taken: seq<nat>
    ghost var tried: set<nat>
    ghost var refused: set<nat>

    ghost function Snap(): State
      reads this
    {
      State(backlog, closed, n, reserved, pending, tickets, token, signals, accepts, order, taken, tried, refused)
    }

    /** The queue holds the sessions of its tickets. */
    ghost predicate Valid()
      reads this
    {
      Names(order, tickets, queue)
    }

    constructor (backlog: nat)
      ensures Valid() && Snap() == Init(backlog)
    {
      this.backlog := backlog;
      closed, n, reserved, pending, queue, token := false, 0, 0, {}, [], false;
      tickets, signals, accepts, order, taken, tried, refused := [], 0, [], [], [], {}, {};
    }

    method ReserveSlot() returns (r: Reserved)
      requires Valid()
      modifies this`reserved
      ensures Valid() && (Snap(), r) == Reserve(old(Snap()))
    {
      if closed { return ReserveClosed; }
      if n + reserved >= backlog { return ReserveFull; }
      reserved := reserved + 1;
      return ReserveOK;
    }

    method BindSession(x: nat)
      requires Valid() && reserved > 0
      modifies this`reserved, this`n, this`pending
      ensures Valid() && Snap() == Bind(old(Snap()), x)
    {
      reserved := reserved - 1;
      n := n + 1;
      pending := pending + {x};
    }

    /** refuse: the session is answered instead of queued. */
    method EnqueueSession(x: nat) returns (refuse: bool)
      requires Valid()
      modifies this
      ensures Valid() && Snap() == Enqueue(old(Snap()), x)
      ensures refuse <==> x in old(pending) && old(closed)
    {
      tried := tried + {x};
      if x !in pending { return false; }
      if closed {
        refused := refused + {x};
        return true;
      }
      queue := queue + [x];
      tickets, order := tickets + [|order|], order + [x];
      signals := signals + 1;
      return false;
    }

    /** leavePending: unlinks the session where it is queued. */
    method LeaveSession(x: nat)
      requires Valid()
      modifies this
      ensures Valid() && Snap() == LeavePending(old(Snap()), x)
    {
      if x !in pending { return; }
      pending := pending - {x};
      n := n - 1;
      var rest: seq<nat> := [];
      ghost var left: seq<nat> := [];
      var i := |queue|;
      assert tickets[|tickets|..] == [];
      while i > 0
        invariant 0 <= i <= |queue| && left == Without(order, tickets[i..], x) && Names(order, left, rest)
      {
        i := i - 1;
        assert tickets[i..][1..] == tickets[i + 1..];
        if queue[i] != x {
          rest := [queue[i]] + rest;
          left := [tickets[i]] + left;
        } else {
          assert left == [] + left;
        }
      }
      assert tickets[0..] == tickets;
      queue, tickets := rest, left;
    }

    /** shut: what the caller has to refuse. */
    method ShutListener() returns (refuse: set<nat>)
      requires Valid()
      modifies this`closed, this`refused
      ensures Valid() && Snap() == Shut(old(Snap())) && refuse == if old(closed) then {} else old(pending)
    {
      if closed { return {}; }
      closed := true;
      refuse := pending;
      refused := refused + pending;
    }
  }

  /** q are the sessions of these tickets. */
  ghost predicate Names(order: seq<nat>, tickets: seq<nat>, q: seq<nat>) {
    |q| == |tickets| && forall i :: 0 <= i < |q| ==> tickets[i] < |order| && order[tickets[i]] == q[i]
  }
}
