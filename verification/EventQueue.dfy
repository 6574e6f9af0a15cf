/** events.go: the bounded event ring, and the hand-off of an abandoned worker
    between a join that timed out (claim, Adopt, mark) and the worker's exit. */
module EventQueue {
  import opened RingWindow

  /** An event; only its Seq matters here. 0 is the empty slot. */
  type Event = nat

  /** The ring under evMu. dropped counts the events a full ring refused. */
  class Ring {
    var ring: array<Event>
    var head: nat
    var n: nat
    var last: nat        // seq: the Seq given last
    var dropped: nat
    var closed: bool

    ghost predicate Valid()
      reads this, ring
    {
      ring.Length > 0 && head < ring.Length && n <= ring.Length
    }

    ghost function Queue(): seq<Event>
      reads this, ring
      requires Valid()
    {
      Window(ring[..], head, n)
    }

    constructor (size: nat)
      ensures Valid() && Queue() == [] && last == 0 && dropped == 0 && !closed && fresh(ring)
      ensures ring.Length == if size == 0 then 1 else size
    {
      ring := new Event[if size == 0 then 1 else size](_ => 0);
      head, n, last, dropped, closed := 0, 0, 0, 0, false;
    }

    /** Emit: a Seq for every event before the close; a full ring drops and counts it. */
    method Emit()
      requires Valid()
      modifies this, ring
      ensures Valid() && ring == old(ring) && closed == old(closed)
      ensures closed ==> Queue() == old(Queue()) && last == old(last) && dropped == old(dropped)
      ensures !closed ==> last == old(last) + 1
      ensures !closed && |old(Queue())| == ring.Length ==> Queue() == old(Queue()) && dropped == old(dropped) + 1
      ensures !closed && |old(Queue())| < ring.Length ==> Queue() == old(Queue()) + [last] && dropped == old(dropped)
    {
      if closed { return; }
      last := last + 1;
      if n == ring.Length {
        dropped := dropped + 1;
      } else {
        ghost var before := ring[..];
        WindowPush(before, head, n, last);
        PlaceIsMod(head, n, ring.Length);
        ring[(head + n) % ring.Length] := last;
        assert ring[..] == before[Place(head, n, ring.Length) := last];
        n := n + 1;
      }
    }

    /** The worker takes the oldest. */
    method Take() returns (e: Event)
      requires Valid() && Queue() != []
      modifies this, ring
      ensures Valid() && ring == old(ring) && old(Queue()) == [e] + Queue()
      ensures last == old(last) && dropped == old(dropped) && closed == old(closed)
    {
      ghost var before, q := ring[..], Queue();
      WindowPop(before, head, n, 0);
      e := ring[head];
      ring[head] := 0;
      assert ring[..] == before[head := 0];
      assert q == [e] + q[1..];
      head, n := (head + 1) % ring.Length, n - 1;
    }
  }

  // ---- worker and joins ----

  datatype Worker =
    | Looping                 // at the lock
    | Parked                  // found nothing: waits for the signal
    | InCall                  // in the callback
    | Closing(leave: bool)    // exited under the lock: closes done, then leaves the pool if it owes that
    | LeavingPool
    | Gone

  datatype Join =
    | Waiting                 // for done or its timer
    | Adopting                // claimed: about to call Adopt
    | Marking                 // adopted: about to mark it
    | Leaving                 // the worker exited meanwhile: about to call Leave
    | Finished(ok: bool)

  /** token: the one-place signal holds a wake-up; signals: calls that released the lock and have still to send one. */
  datatype State = State(
    token: bool, signals: nat, size: nat, queue: seq<Event>, last: nat, dropped: nat, delivered: seq<Event>,
    closed: bool,
    exited: bool, claimed: bool, adopted: bool, worker: Worker, joins: seq<Join>,
    adopts: nat, leaves: nat, doneCloses: nat)

  function Init(size: nat): State {
    State(false, 0, if size == 0 then 1 else size, [], 0, 0, [], false, false, false, false, Looping, [], 0, 0, 0)
  }

  datatype Step =
    | Emit
    | Close
    | Signal                      // Emit or close, after the lock: the token, unless it is there
    | WorkerLocks
    | Wake                        // the worker takes the token
    | CallReturns                 // also after a panic, or a Goexit's replacement
    | WorkerCloses
    | WorkerLeaves
    | Join                        // a join begins: it closes the queue
    | SeesDone(i: nat)
    | TimesOut(i: nat, pool: bool)
    | Adopts(i: nat)
    | Marks(i: nat)
    | Leaves(i: nat)

  function Do(s: State, step: Step): State {
    match step
    case Emit =>
      if s.closed then s
      else if |s.queue| == s.size then s.(last := s.last + 1, dropped := s.dropped + 1, signals := s.signals + 1)
      else s.(last := s.last + 1, queue := s.queue + [s.last + 1], signals := s.signals + 1)
    case Close => s.(closed := true, signals := s.signals + 1)
    case Signal => if s.signals > 0 then s.(signals := s.signals - 1, token := true) else s
    case WorkerLocks =>
      if s.worker != Looping then s
      else if s.queue != [] then s.(queue := s.queue[1..], delivered := s.delivered + [s.queue[0]], worker := InCall)
      else if s.closed then s.(exited := true, worker := Closing(s.adopted && !s.exited))
      else s.(worker := Parked)
    case Wake => if s.worker == Parked && s.token then s.(token := false, worker := Looping) else s
    case CallReturns => if s.worker == InCall then s.(worker := Looping) else s
    case WorkerCloses =>
      if !s.worker.Closing? then s
      else s.(doneCloses := s.doneCloses + 1, worker := if s.worker.leave then LeavingPool else Gone)
    case WorkerLeaves => if s.worker == LeavingPool then s.(leaves := s.leaves + 1, worker := Gone) else s
    case Join => s.(closed := true, signals := s.signals + 1, joins := s.joins + [Waiting])
    case _ => if step.i < |s.joins| then DoJoin(s, step, s.joins[step.i]) else s
  }

  /** The steps of one join. */
  function DoJoin(s: State, step: Step, j: Join): State
    requires step.SeesDone? || step.TimesOut? || step.Adopts? || step.Marks? || step.Leaves?
    requires step.i < |s.joins|
  {
    var i := step.i;
    match step
    case SeesDone(_) => if j == Waiting && s.doneCloses > 0 then s.(joins := s.joins[i := Finished(true)]) else s
    case TimesOut(_, pool) =>
      if j != Waiting then s
      else if s.exited then s.(joins := s.joins[i := Finished(true)])
      else if s.claimed || !pool then s.(joins := s.joins[i := Finished(false)])
      else s.(claimed := true, joins := s.joins[i := Adopting])
    case Adopts(_) => if j == Adopting then s.(adopts := s.adopts + 1, joins := s.joins[i := Marking]) else s
    case Marks(_) =>
      if j != Marking then s
      else s.(adopted := !s.exited, joins := s.joins[i := if s.exited then Leaving else Finished(false)])
    case Leaves(_) => if j == Leaving then s.(leaves := s.leaves + 1, joins := s.joins[i := Finished(true)]) else s
  }

  function Exec(s: State, steps: seq<Step>): State
    decreases |steps|
  {
    if steps == [] then s else Do(Exec(s, steps[..|steps| - 1]), steps[|steps| - 1])
  }

  // ---- counting joins ----

  function Ind(b: bool): nat { if b then 1 else 0 }

  function In(js: seq<Join>, j: Join): nat {
    if js == [] then 0 else In(js[..|js| - 1], j) + Ind(js[|js| - 1] == j)
  }

  lemma {:induction false} InUpdate(js: seq<Join>, i: nat, x: Join, j: Join)
    requires i < |js|
    ensures In(js[i := x], j) == In(js, j) - Ind(js[i] == j) + Ind(x == j)
    ensures js[i] == j ==> In(js, j) > 0
  {
    var n := |js| - 1;
    if i == n {
      assert js[i := x][..n] == js[..n];
    } else {
      InUpdate(js[..n], i, x, j);
      assert js[i := x][..n] == js[..n][i := x];
    }
  }

  lemma InAppend(js: seq<Join>, x: Join, j: Join)
    ensures In(js + [x], j) == In(js, j) + Ind(x == j)
  {
    assert (js + [x])[..|js|] == js;
  }

  // ---- the invariant ----

  predicate Increasing(s: seq<Event>) { forall i, j :: 0 <= i < j < |s| ==> s[i] < s[j] }

  predicate Sequenced(s: State) {
    && s.last == |s.delivered| + |s.queue| + s.dropped
    && Increasing(s.delivered + s.queue)
    && (forall i :: 0 <= i < |s.delivered + s.queue| ==> 0 < (s.delivered + s.queue)[i] <= s.last)
    && |s.queue| <= s.size
  }

  /** The worker has exited under the lock. */
  predicate HasExited(w: Worker) { w.Closing? || w == LeavingPool || w == Gone }

  /** One claim, one Adopt, and one Leave owed by exactly one side once the worker exited. */
  predicate HandedOff(s: State) {
    var a, m, l := In(s.joins, Adopting), In(s.joins, Marking), In(s.joins, Leaving);
    && (s.exited <==> HasExited(s.worker)) && (s.exited ==> s.closed && s.queue == [])
    && a + m + l <= Ind(s.claimed)
    && s.adopts == Ind(s.claimed) - a
    && (s.adopted ==> s.claimed && a + m + l == 0)
    && (s.claimed && !s.adopted && a + m == 0 ==> s.exited)
    && (l > 0 ==> s.exited)
    && s.leaves + l + Ind(s.worker == Closing(true) || s.worker == LeavingPool)
       == Ind(s.claimed && a + m == 0 && s.exited)
    && (s.worker == Closing(true) || s.worker == LeavingPool ==> s.adopted)
    && s.doneCloses == Ind(s.worker == LeavingPool || s.worker == Gone)
  }

  /** A parked worker with something to do has a wake-up, or one is on its way. */
  predicate Awake(s: State) { s.worker == Parked && (s.queue != [] || s.closed) ==> s.token || s.signals > 0 }

  ghost predicate Inv(s: State) { Sequenced(s) && HandedOff(s) && Awake(s) }

  /** A step that keeps the numbers and the two lists as one. */
  lemma SameSequence(s: State, r: State)
    requires Sequenced(s) && r.delivered + r.queue == s.delivered + s.queue && |r.queue| <= |s.queue|
    requires r.last == s.last && r.dropped == s.dropped && r.size == s.size
    ensures Sequenced(r)
  {
    hide Increasing;
    assert |r.delivered + r.queue| == |s.delivered + s.queue|;
  }

  lemma IncreasingAppend(q: seq<Event>, x: Event)
    requires Increasing(q) && forall i :: 0 <= i < |q| ==> 0 < q[i] < x
    requires 0 < x
    ensures Increasing(q + [x]) && forall i :: 0 <= i < |q + [x]| ==> 0 < (q + [x])[i] <= x
  {
  }

  /** A step that numbers one more event, queued or dropped. */
  lemma NextSequence(s: State, r: State)
    requires Sequenced(s) && r.last == s.last + 1 && r.size == s.size && r.delivered == s.delivered
    requires (r.queue == s.queue && r.dropped == s.dropped + 1)
             || (r.queue == s.queue + [r.last] && r.dropped == s.dropped && |s.queue| < s.size)
    ensures Sequenced(r)
  {
    hide Increasing;
    var q := s.delivered + s.queue;
    if r.queue != s.queue {
      IncreasingAppend(q, r.last);
      assert r.delivered + r.queue == q + [r.last];
    }
  }

  /** A join's steps touch no event and no wake-up. */
  lemma JoinFrame(s: State, step: Step, j: Join)
    requires step.SeesDone? || step.TimesOut? || step.Adopts? || step.Marks? || step.Leaves?
    requires step.i < |s.joins|
    ensures var r := DoJoin(s, step, j);
            && r.size == s.size && r.delivered == s.delivered && r.queue == s.queue && r.last == s.last
            && r.dropped == s.dropped && r.worker == s.worker && r.closed == s.closed && r.token == s.token
            && r.signals == s.signals
  {
  }

  predicate JoinStep(step: Step) { step.SeesDone? || step.TimesOut? || step.Adopts? || step.Marks? || step.Leaves? }

  lemma SequencedStep(s: State, step: Step)
    requires Inv(s)
    ensures Sequenced(Do(s, step))
  {
    hide HandedOff, In, Increasing, Sequenced, Do;
    var r := Do(s, step);
    if step.Emit? {
      EmitSequence(s);
    } else if step.WorkerLocks? {
      LockSequence(s);
    } else {
      EventsFrame(s, step);
      SameSequence(s, r);
    }
  }

  lemma EmitSequence(s: State)
    requires Sequenced(s)
    ensures Sequenced(Do(s, Emit))
  {
    hide Increasing, Sequenced;
    SequencedSize(s);
    if !s.closed { NextSequence(s, Do(s, Emit)); }
  }

  lemma LockSequence(s: State)
    requires Sequenced(s)
    ensures Sequenced(Do(s, WorkerLocks))
  {
    hide Increasing, Sequenced;
    var r := Do(s, WorkerLocks);
    if s.worker == Looping && s.queue != [] {
      assert r.delivered + r.queue == s.delivered + s.queue;
    }
    SameSequence(s, r);
  }

  /** The other steps touch no event. */
  lemma EventsFrame(s: State, step: Step)
    requires !step.Emit? && !step.WorkerLocks?
    ensures var r := Do(s, step);
            r.size == s.size && r.delivered == s.delivered && r.queue == s.queue && r.last == s.last
            && r.dropped == s.dropped
  {
    hide DoJoin;
    if JoinStep(step) && step.i < |s.joins| { JoinFrame(s, step, s.joins[step.i]); }
  }

  lemma SequencedSize(s: State)
    requires Sequenced(s)
    ensures |s.queue| <= s.size
  {
  }

  lemma JoinCounts(s: State, i: nat, x: Join)
    requires i < |s.joins|
    ensures var js := s.joins[i := x];
            && In(js, Adopting) == In(s.joins, Adopting) - Ind(s.joins[i] == Adopting) + Ind(x == Adopting)
            && In(js, Marking) == In(s.joins, Marking) - Ind(s.joins[i] == Marking) + Ind(x == Marking)
            && In(js, Leaving) == In(s.joins, Leaving) - Ind(s.joins[i] == Leaving) + Ind(x == Leaving)
    ensures (s.joins[i] == Adopting ==> In(s.joins, Adopting) > 0)
            && (s.joins[i] == Marking ==> In(s.joins, Marking) > 0)
            && (s.joins[i] == Leaving ==> In(s.joins, Leaving) > 0)
  {
    InUpdate(s.joins, i, x, Adopting);
    InUpdate(s.joins, i, x, Marking);
    InUpdate(s.joins, i, x, Leaving);
  }

  lemma HandOffStep(s: State, step: Step)
    requires Inv(s)
    ensures HandedOff(Do(s, step))
  {
    hide In, Sequenced, DoJoin;
    if JoinStep(step) {
      if step.i < |s.joins| { JoinerStep(s, step); }
    } else if step.Join? {
      InAppend(s.joins, Waiting, Adopting);
      InAppend(s.joins, Waiting, Marking);
      InAppend(s.joins, Waiting, Leaving);
    }
  }

  lemma JoinerStep(s: State, step: Step)
    requires HandedOff(s) && JoinStep(step) && step.i < |s.joins|
    ensures HandedOff(DoJoin(s, step, s.joins[step.i]))
  {
    hide In;
    JoinCounts(s, step.i, DoJoin(s, step, s.joins[step.i]).joins[step.i]);
  }

  lemma AwakeStep(s: State, step: Step)
    requires Awake(s)
    ensures Awake(Do(s, step))
  {
    hide DoJoin;
    if JoinStep(step) && step.i < |s.joins| { JoinFrame(s, step, s.joins[step.i]); }
  }

  lemma {:induction false} RunInv(size: nat, steps: seq<Step>)
    ensures Inv(Exec(Init(size), steps))
    decreases |steps|
  {
    hide Do, Sequenced, HandedOff;
    if steps == [] {
      InitInv(size);
    } else {
      var s := Exec(Init(size), steps[..|steps| - 1]);
      RunInv(size, steps[..|steps| - 1]);
      SequencedStep(s, steps[|steps| - 1]);
      HandOffStep(s, steps[|steps| - 1]);
      AwakeStep(s, steps[|steps| - 1]);
    }
  }

  lemma InitInv(size: nat)
    ensures Inv(Init(size))
  {
  }

  /** s is the state after some interleaving. */
  ghost predicate Reachable(size: nat, s: State) {
    exists steps: seq<Step> :: s == Exec(Init(size), steps)
  }

  /** The Seqs the callback sees strictly increase, and every Seq given was
      delivered, is queued or was dropped. */
  lemma SeqsDelivered(size: nat, s: State)
    requires Reachable(size, s)
    ensures
            && s.last == |s.delivered| + |s.queue| + s.dropped
            && forall i, j :: 0 <= i < j < |s.delivered| ==> s.delivered[i] < s.delivered[j] <= s.last
  {
    hide Exec, HandedOff;
    var steps :| s == Exec(Init(size), steps);
    RunInv(size, steps);
    forall i, j | 0 <= i < j < |s.delivered| ensures s.delivered[i] < s.delivered[j] <= s.last {
      assert (s.delivered + s.queue)[i] == s.delivered[i] && (s.delivered + s.queue)[j] == s.delivered[j];
    }
  }

  /** At most one Adopt, a Leave never before it and never twice; done closes at
      most once; and once the worker is gone and no join is under way, the Adopt
      has been taken back. */
  lemma AdoptThenLeave(size: nat, s: State)
    requires Reachable(size, s)
    ensures
            && s.leaves <= s.adopts <= 1 && s.doneCloses <= 1
            && (s.worker == Gone && In(s.joins, Adopting) + In(s.joins, Marking) + In(s.joins, Leaving) == 0
                ==> s.leaves == s.adopts && s.doneCloses == 1)
  {
    hide Exec, Sequenced, In;
    var steps :| s == Exec(Init(size), steps);
    RunInv(size, steps);
  }

  /** The worker exits only when everything queued was delivered. */
  lemma ExitAfterDrain(size: nat, s: State)
    requires Reachable(size, s)
    ensures s.exited ==> s.closed && s.queue == [] && s.last == |s.delivered| + s.dropped
  {
    hide Exec, In;
    var steps :| s == Exec(Init(size), steps);
    RunInv(size, steps);
  }

  /** No lost wakeup: while an event is queued, or the queue is closed, the worker is not parked for good. When it
      waits and no Emit or close still has its signal to send, the token is there for it. */
  lemma WorkerWakes(size: nat, s: State)
    requires Reachable(size, s)
    requires s.worker == Parked && s.signals == 0 && (s.queue != [] || s.closed)
    ensures s.token
  {
    hide Exec, In;
    var steps :| s == Exec(Init(size), steps);
    RunInv(size, steps);
  }
}
