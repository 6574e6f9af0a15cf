/** runtime.go: group, the bounded join of goroutines, and goWatched, whose
    timer and call race for one membership. pool is this group's net
    contribution to the abandoned-call pool: Adopts less Leaves. */
module JoinGroup {

  /** Who settled a watched call's membership. */
  datatype Cas = Undecided | ByCall | ByWatch

  datatype Timer = Armed | Adopting | AtDone | TLeaving | TOver
  datatype Call = InCall | Returned | CLeaving | AtLeave | COver
  datatype Plain = Running | PLeaving | POver

  /** As history, a watched member keeps what its watch adopted and what its call left because of that. */
  datatype Member = PlainMember(p: Plain) | Watched(cas: Cas, timer: Timer, call: Call, adopted: nat, left: nat)

  const WATCHED := Watched(Undecided, Armed, InCall, 0, 0)

  /** waitAdopts and doneLeaves are history: the Adopts of all waits, and the Leaves that done owed. */
  datatype State = State(n: int, owed: int, idle: bool, pool: int, ms: seq<Member>, waitAdopts: int, doneLeaves: int)

  function Init(ms: seq<Member>): State
    requires ms == []
  {
    State(0, 0, true, 0, ms, 0, 0)
  }

  // ---- the three regions of group ----

  function Add(s: State): State { s.(n := s.n + 1, idle := false) }

  /** done: an owed member leaves the pool once the lock is released. */
  function Done(s: State): (State, bool) {
    (s.(n := s.n - 1, owed := if s.owed > 0 then s.owed - 1 else s.owed, idle := s.idle || s.n == 1), s.owed > 0)
  }

  /** wait's last region: every member not yet counted is adopted. */
  function GiveUp(s: State): State {
    if s.n == 0 then s
    else s.(pool := s.pool + (s.n - s.owed), owed := s.n, waitAdopts := s.waitAdopts + (s.n - s.owed))
  }

  /** group as it is written; pool counts what it adopted and left. */
  class Group {
    var n: int
    var owed: int
    var idle: bool
    var pool: int
    ghost var waitAdopts: int

    ghost function Value(ms: seq<Member>, leaves: int): State
      reads this
    {
      State(n, owed, idle, pool, ms, waitAdopts, leaves)
    }

    constructor ()
      ensures Value([], 0) == Init([])
    {
      n, owed, idle, pool, waitAdopts := 0, 0, true, 0, 0;
    }

    method AddMember(ghost ms: seq<Member>, ghost leaves: int)
      requires idle <==> n == 0
      modifies this
      ensures Value(ms, leaves) == Add(old(Value(ms, leaves)))
    {
      if n == 0 { idle := false; }
      n := n + 1;
    }

    method DoneMember(ghost ms: seq<Member>, ghost leaves: int) returns (leave: bool)
      modifies this
      ensures (Value(ms, leaves), leave) == Done(old(Value(ms, leaves)))
    {
      n := n - 1;
      leave := owed > 0;
      if leave { owed := owed - 1; }
      if n == 0 { idle := true; }
    }

    /** wait after its deadline, with a pool. */
    method WaitGivesUp(ghost ms: seq<Member>, ghost leaves: int) returns (all: bool)
      requires 0 <= owed <= n
      modifies this
      ensures Value(ms, leaves) == GiveUp(old(Value(ms, leaves))) && (all <==> n == 0)
    {
      if n == 0 { return true; }
      var k := 0;
      while k < n - owed
        invariant 0 <= k <= n - owed && pool == old(pool) + k && waitAdopts == old(waitAdopts) + k
        invariant n == old(n) && owed == old(owed) && idle == old(idle)
      {
        pool := pool + 1;
        waitAdopts := waitAdopts + 1;
        k := k + 1;
      }
      owed := n;
      return false;
    }
  }

  // ---- steps ----

  datatype Step =
    | AddPlain | AddWatched
    | PlainDone(i: nat)        // a plain member exits
    | PlainLeaves(i: nat)
    | TimerFires(i: nat)       // the watch's compare-and-swap
    | TimerAdopts(i: nat)
    | TimerDone(i: nat)
    | TimerLeaves(i: nat)
    | CallReturns(i: nat)      // the call's compare-and-swap
    | CallDone(i: nat)
    | CallLeaves(i: nat)       // after done, or because the watch counted it
    | Wait                     // a wait that reached its deadline

  function Set(s: State, i: nat, m: Member): State
    requires i < |s.ms|
  {
    s.(ms := s.ms[i := m])
  }

  function Do(s: State, step: Step): State {
    match step
    case AddPlain => Add(s).(ms := s.ms + [PlainMember(Running)])
    case AddWatched => Add(s).(ms := s.ms + [WATCHED])
    case Wait => GiveUp(s)
    case _ => if step.i < |s.ms| then Move(s, step, s.ms[step.i]) else s
  }

  function Move(s: State, step: Step, m: Member): State
    requires !step.AddPlain? && !step.AddWatched? && !step.Wait? && step.i < |s.ms|
  {
    var i := step.i;
    match step
    case PlainDone(_) =>
      if m != PlainMember(Running) then s
      else var (s1, leave) := Done(s); Set(s1, i, PlainMember(if leave then PLeaving else POver))
    case PlainLeaves(_) =>
      if m != PlainMember(PLeaving) then s
      else Set(s, i, PlainMember(POver)).(pool := s.pool - 1, doneLeaves := s.doneLeaves + 1)
    case TimerFires(_) =>
      if !m.Watched? || m.timer != Armed then s
      else if m.cas == Undecided then Set(s, i, m.(cas := ByWatch, timer := Adopting))
      else Set(s, i, m.(timer := TOver))
    case TimerAdopts(_) =>
      if !m.Watched? || m.timer != Adopting then s
      else Set(s, i, m.(timer := AtDone, adopted := m.adopted + 1)).(pool := s.pool + 1)
    case TimerDone(_) =>
      if !m.Watched? || m.timer != AtDone then s
      else var (s1, leave) := Done(s); Set(s1, i, m.(timer := if leave then TLeaving else TOver))
    case TimerLeaves(_) =>
      if !m.Watched? || m.timer != TLeaving then s
      else Set(s, i, m.(timer := TOver)).(pool := s.pool - 1, doneLeaves := s.doneLeaves + 1)
    case CallReturns(_) =>
      if !m.Watched? || m.call != InCall then s
      else if m.cas == Undecided then Set(s, i, m.(cas := ByCall, call := Returned))
      else Set(s, i, m.(call := AtLeave))
    case CallDone(_) =>
      if !m.Watched? || m.call != Returned then s
      else var (s1, leave) := Done(s); Set(s1, i, m.(call := if leave then CLeaving else COver))
    case CallLeaves(_) =>
      if !m.Watched? then s
      else if m.call == CLeaving then Set(s, i, m.(call := COver)).(pool := s.pool - 1, doneLeaves := s.doneLeaves + 1)
      else if m.call == AtLeave then Set(s, i, m.(call := COver, left := m.left + 1)).(pool := s.pool - 1)
      else s
  }

  function Exec(s: State, steps: seq<Step>): State
    decreases |steps|
  {
    if steps == [] then s else Do(Exec(s, steps[..|steps| - 1]), steps[|steps| - 1])
  }

  // ---- what each member stands for ----

  function Ind(b: bool): int { if b then 1 else 0 }

  /** Its membership has not ended. */
  predicate Counts(m: Member) {
    match m
    case PlainMember(p) => p == Running
    case Watched(cas, timer, call, _, _) =>
      cas == Undecided || (cas == ByCall && call == Returned)
      || (cas == ByWatch && (timer == Adopting || timer == AtDone))
  }

  /** Left the group as an owed member; its Leave is still to come. */
  predicate Owes(m: Member) {
    m == PlainMember(PLeaving) || (m.Watched? && (m.timer == TLeaving || m.call == CLeaving))
  }

  /** What the watch added to the pool, less what its call took back. */
  function ByTimer(m: Member): int { if m.Watched? then m.adopted - m.left else 0 }

  /** Its call left the pool before its watch adopted it. */
  predicate LeftFirst(m: Member) { m.Watched? && m.cas == ByWatch && m.timer == Adopting && m.call == COver }

  /** Timer and call agree with who decided, and the history with both. */
  predicate Sound(m: Member) {
    m.Watched? ==>
      && m.adopted == Ind(m.cas == ByWatch && m.timer != Adopting) && m.left == Ind(m.cas == ByWatch && m.call == COver)
      && match m.cas
      case Undecided => m.timer == Armed && m.call == InCall
      case ByCall =>
        (m.timer == Armed || m.timer == TOver) && (m.call == Returned || m.call == CLeaving || m.call == COver)
      case ByWatch => m.timer != Armed && (m.call == InCall || m.call == AtLeave || m.call == COver)
  }

  predicate Over(m: Member) {
    match m
    case PlainMember(p) => p == POver
    case Watched(_, timer, call, _, _) => (timer == Armed || timer == TOver) && call == COver
  }

  /** Members still counted, owing their Leave, and past both; what the watches added; and who left first. */
  datatype Sums = Sums(counts: int, owes: int, past: int, watched: int, leftFirst: int)
  {
    function Plus(m: Member): Sums {
      Sums(counts + Ind(Counts(m)), owes + Ind(Owes(m)), past + Ind(!Counts(m) && !Owes(m)), watched + ByTimer(m),
           leftFirst + Ind(LeftFirst(m)))
    }

    function Minus(m: Member): Sums {
      Sums(counts - Ind(Counts(m)), owes - Ind(Owes(m)), past - Ind(!Counts(m) && !Owes(m)), watched - ByTimer(m),
           leftFirst - Ind(LeftFirst(m)))
    }
  }

  function Total(ms: seq<Member>): Sums {
    if ms == [] then Sums(0, 0, 0, 0, 0) else Total(ms[..|ms| - 1]).Plus(ms[|ms| - 1])
  }

  lemma {:induction false} TotalUpdate(ms: seq<Member>, i: nat, m: Member)
    requires i < |ms|
    ensures Total(ms[i := m]) == Total(ms).Minus(ms[i]).Plus(m)
  {
    hide Counts, Owes, ByTimer, LeftFirst;
    var n := |ms| - 1;
    if i == n {
      assert ms[i := m][..n] == ms[..n];
    } else {
      TotalUpdate(ms[..n], i, m);
      assert ms[i := m][..n] == ms[..n][i := m];
    }
  }

  lemma TotalAppend(ms: seq<Member>, m: Member)
    ensures Total(ms + [m]) == Total(ms).Plus(m)
  {
    assert (ms + [m])[..|ms|] == ms;
  }

  lemma {:induction false} TotalBounds(ms: seq<Member>)
    ensures Total(ms).counts >= 0 && Total(ms).owes >= 0 && Total(ms).past >= 0 && Total(ms).leftFirst >= 0
    ensures Total(ms).counts > 0 || forall i :: 0 <= i < |ms| ==> !Counts(ms[i])
    ensures forall i :: 0 <= i < |ms| && Counts(ms[i]) ==> Total(ms).counts > 0
  {
    hide Counts, Owes, ByTimer, LeftFirst;
    if ms != [] { TotalBounds(ms[..|ms| - 1]); }
  }

  /** Each member is counted, owing or past; and only one that left first takes from the pool. */
  lemma {:induction false} TotalShares(ms: seq<Member>)
    requires forall i :: 0 <= i < |ms| ==> Sound(ms[i])
    ensures Total(ms).counts + Total(ms).owes + Total(ms).past == |ms| && Total(ms).watched >= -Total(ms).leftFirst
  {
    hide Counts, Owes, ByTimer, LeftFirst, Sound;
    if ms != [] {
      TotalShares(ms[..|ms| - 1]);
      OneShare(ms[|ms| - 1]);
    }
  }

  lemma OneShare(m: Member)
    requires Sound(m)
    ensures Ind(Counts(m)) + Ind(Owes(m)) + Ind(!Counts(m) && !Owes(m)) == 1 && ByTimer(m) >= -Ind(LeftFirst(m))
  {
  }

  lemma {:induction false} AllOver(ms: seq<Member>)
    requires forall i :: 0 <= i < |ms| ==> Over(ms[i]) && Sound(ms[i])
    ensures Total(ms) == Sums(0, 0, |ms|, 0, 0)
  {
    if ms != [] {
      AllOver(ms[..|ms| - 1]);
      assert Over(ms[|ms| - 1]) && Sound(ms[|ms| - 1]);
    }
  }

  // ---- the invariant ----

  ghost predicate Inv(s: State) {
    && s.n == Total(s.ms).counts
    && 0 <= s.owed <= s.n
    && (s.idle <==> s.n == 0)
    && s.pool == s.owed + Total(s.ms).owes + Total(s.ms).watched
    && s.waitAdopts == s.owed + Total(s.ms).owes + s.doneLeaves && 0 <= s.doneLeaves <= Total(s.ms).past
    && forall i :: 0 <= i < |s.ms| ==> Sound(s.ms[i])
  }

  lemma MoveInv(s: State, step: Step)
    requires Inv(s) && !step.AddPlain? && !step.AddWatched? && !step.Wait? && step.i < |s.ms|
    ensures Inv(Move(s, step, s.ms[step.i]))
  {
    hide Total;
    var i, m := step.i, s.ms[step.i];
    var r := Move(s, step, m);
    TotalBounds(s.ms);
    TotalUpdate(s.ms, i, r.ms[i]);
    assert Sound(m);
    assert Sound(r.ms[i]);
  }

  lemma StepInv(s: State, step: Step)
    requires Inv(s)
    ensures Inv(Do(s, step))
  {
    hide Total, Move;
    TotalAppend(s.ms, PlainMember(Running));
    TotalAppend(s.ms, WATCHED);
    if !step.AddPlain? && !step.AddWatched? && !step.Wait? && step.i < |s.ms| { MoveInv(s, step); }
  }

  lemma {:induction false} RunInv(ms: seq<Member>, steps: seq<Step>)
    requires ms == []
    ensures Inv(Exec(Init(ms), steps))
    decreases |steps|
  {
    hide Do;
    if steps == [] {
      AllOver(ms);
    } else {
      RunInv(ms, steps[..|steps| - 1]);
      StepInv(Exec(Init(ms), steps[..|steps| - 1]), steps[|steps| - 1]);
    }
  }

  /** s is the state after some interleaving. */
  ghost predicate Reachable(s: State) {
    exists steps: seq<Step> :: s == Exec(Init([]), steps)
  }

  /** Join-group accounting, for every race of waits, timers and calls: owed
      never exceeds the members; idle is closed exactly while there is none; the
      pool holds owed, the Leaves still to come and what the watches counted. */
  lemma PoolAccounting(s: State)
    requires Reachable(s)
    ensures
            && 0 <= s.owed <= s.n == Total(s.ms).counts && (s.idle <==> s.n == 0)
            && s.pool == s.owed + Total(s.ms).owes + Total(s.ms).watched
  {
    hide Exec, Total;
    var steps :| s == Exec(Init([]), steps);
    RunInv([], steps);
  }

  /** Once every member has exited, the group has taken back all it added. */
  lemma PoolReturns(s: State)
    requires Reachable(s)
    requires forall i :: 0 <= i < |s.ms| ==> Over(s.ms[i])
    ensures s.n == 0 && s.owed == 0 && s.pool == 0 && s.idle
  {
    hide Exec, Total;
    var steps :| s == Exec(Init([]), steps);
    RunInv([], steps);
    AllOver(s.ms);
  }

  /** No member is counted twice by waits, for every race of waits, timers and returns: each Adopt of a wait stands
      for a member still running and owed, for one whose Leave is on its way, or for one that has left; so there are
      never more of them than members, and a member's done leaves the pool only for an Adopt that came before. */
  lemma WaitsCountOnce(s: State)
    requires Reachable(s)
    ensures s.waitAdopts == s.owed + Total(s.ms).owes + s.doneLeaves
    ensures s.doneLeaves <= s.waitAdopts <= |s.ms|
  {
    hide Exec, Total;
    var steps :| s == Exec(Init([]), steps);
    RunInv([], steps);
    TotalBounds(s.ms);
    TotalShares(s.ms);
  }

  /** A watch and its call need not come in that order: here the call leaves the pool before the watch, which won
      the race, adopts it, and the pool is short of one. */
  lemma CallLeavesFirst(none: seq<Member>)
    requires none == []
    ensures Exec(Init(none), [AddWatched, TimerFires(0), CallReturns(0), CallLeaves(0)]).pool == -1
  {
    var steps := [AddWatched, TimerFires(0), CallReturns(0), CallLeaves(0)];
    assert steps[..3] == [AddWatched, TimerFires(0), CallReturns(0)] && steps[..2] == [AddWatched, TimerFires(0)];
    assert steps[..3][..2] == steps[..2] && steps[..2][..1] == [AddWatched] && [AddWatched][..0] == [];
    var s1 := Exec(Init(none), [AddWatched]);
    assert s1 == Do(Init(none), AddWatched);
    var s2 := Exec(Init(none), steps[..2]);
    assert s2 == Do(s1, TimerFires(0));
    var s3 := Exec(Init(none), steps[..3]);
    assert s3 == Do(s2, CallReturns(0));
    assert Exec(Init(none), steps) == Do(s3, CallLeaves(0));
  }

  /** Exactly then: a member's Leave is ahead of its Adopt if and only if its watch won the race, has not adopted it
      yet, and its call is over. The pool is short by no more than those members, never when there is none. */
  lemma LeaveBeforeAdopt(s: State)
    requires Reachable(s)
    ensures forall i :: 0 <= i < |s.ms| && s.ms[i].Watched? ==> (s.ms[i].left > s.ms[i].adopted <==> LeftFirst(s.ms[i]))
    ensures s.pool >= -Total(s.ms).leftFirst
  {
    hide Exec, Total;
    var steps :| s == Exec(Init([]), steps);
    RunInv([], steps);
    TotalBounds(s.ms);
    TotalShares(s.ms);
    forall i | 0 <= i < |s.ms| && s.ms[i].Watched? ensures s.ms[i].left > s.ms[i].adopted <==> LeftFirst(s.ms[i]) {
      assert Sound(s.ms[i]);
    }
  }
}
