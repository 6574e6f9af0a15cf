/** The fate of every datagram of the UDP ingress. A history kept beside the
    ingress gives a datagram its fate when it leaves its last place: the counter
    named by the thread that takes it out. Over every run each datagram is in
    exactly one place or has exactly one fate, each counter is the number of its
    fates, and each fate has its reason. */
module IngressFates {
  import opened Ingress
  import opened IngressSafety
  import opened IngressSteps
  import opened IngressRuns
  import opened IngressPlaces
  import opened IngressCounters

  // ---- the history ----

  /** The ingress, the fate of each datagram that left it and the calls that ended. */
  datatype History = History(s: State, fate: map<nat, Counter>, outs: seq<Out>)

  /** The datagrams that a step takes out of their place. */
  function Leaving(s: State, r: State): set<nat> {
    set id: nat | id < s.received && Places(r, id) < Places(s, id)
  }

  function Decided(fate: map<nat, Counter>, ids: set<nat>, k: Counter): map<nat, Counter> {
    map id | id in fate.Keys + ids :: if id in ids then k else fate[id]
  }

  function Next(h: History, step: Step): History {
    var r := Do(h.s, step);
    History(r,
            if Decision(r, step).Some? then Decided(h.fate, Leaving(h.s, r), Decision(r, step).value) else h.fate,
            if NewCall(h.s, r, step).Some? then h.outs + [NewCall(h.s, r, step).value] else h.outs)
  }

  function Run(s: State, steps: seq<Step>): History
    decreases |steps|
  {
    if steps == [] then History(s, map[], []) else Next(Run(s, steps[..|steps| - 1]), steps[|steps| - 1])
  }

  lemma {:induction false} RunExec(s: State, steps: seq<Step>)
    ensures Run(s, steps).s == Exec(s, steps)
    decreases |steps|
  {
    hide Do;
    if steps != [] { RunExec(s, steps[..|steps| - 1]); }
  }

  // ---- one place or one fate ----

  /** Datagram id is in one place or has a fate, once it came; written is a fate by itself. */
  ghost predicate Once(h: History, id: nat) {
    && Places(h.s, id) + If(id in h.fate) == If(id < h.s.received)
    && ((id in h.fate && h.fate[id] == ToSession) <==> Out(id, Wrote) in h.outs)
  }

  /** A datagram enters when the reader takes it, and only then. */
  lemma Arrival(s: State, step: Step)
    ensures var r := Do(s, step);
            || r.received == s.received
            || (step.Receive? && r.received == s.received + 1 && Places(r, s.received) == Places(s, s.received) + 1)
  {
    hide In;
    if !step.Receive? { NotReceived(s, step); }
  }

  lemma NotReceived(s: State, step: Step)
    requires !step.Receive?
    ensures Do(s, step).received == s.received
  {
    hide Do;
    StepMax(s, step);
  }

  lemma OnceStep(h: History, step: Step, id: nat)
    requires Inv(h.s) && Once(h, id)
    ensures Once(Next(h, step), id)
  {
    hide Inv, Do, Places, Decision, NewCall, Reason;
    StepFair(h.s, step, id);
    Arrival(h.s, step);
    ReasonWritten(h.s, step, id);
  }

  lemma ReasonWritten(s: State, step: Step, id: nat)
    ensures Reason(s, step, id, ToSession) ==> NewCall(s, Do(s, step), step) == Some(Out(id, Wrote))
  {
    hide Do, NewCall;
  }

  lemma {:induction false} OnceRun(max: nat, bare: nat, active: bool, steps: seq<Step>, id: nat)
    ensures Once(Run(Init(max, bare, active), steps), id)
    decreases |steps|
  {
    hide Next, Places, Exec;
    var s := Init(max, bare, active);
    if steps == [] {
      NoPlaces(max, bare, active, id);
    } else {
      var before := steps[..|steps| - 1];
      OnceRun(max, bare, active, before, id);
      RunInv(max, bare, active, before);
      RunExec(s, before);
      OnceStep(Run(s, before), steps[|steps| - 1], id);
    }
  }

  lemma NoPlaces(max: nat, bare: nat, active: bool, id: nat)
    ensures Places(Init(max, bare, active), id) == 0
  {
  }

  // ---- each counter is the number of its fates ----

  /** How many of the first n datagrams have fate k. */
  function Number(fate: map<nat, Counter>, k: Counter, n: nat): nat {
    if n == 0 then 0 else Number(fate, k, n - 1) + If(n - 1 in fate && fate[n - 1] == k)
  }

  /** How many of the first n datagrams have a fate. */
  function All(fate: map<nat, Counter>, n: nat): nat {
    if n == 0 then 0 else All(fate, n - 1) + If(n - 1 in fate)
  }

  /** The places of the first n datagrams. */
  function Taken(s: State, n: nat): nat {
    if n == 0 then 0 else Taken(s, n - 1) + Places(s, n - 1)
  }

  function Sevenfold(f: Counter -> nat): nat {
    f(ToSession) + f(TooLarge) + f(DropFull) + f(DropOpening) + f(DropOpenQueue) + f(DropOpenAge) + f(DropHeld)
  }

  lemma {:induction false} AllNumbers(fate: map<nat, Counter>, n: nat)
    ensures All(fate, n) == Sevenfold(k => Number(fate, k, n))
  {
    if n > 0 { AllNumbers(fate, n - 1); }
  }

  lemma {:induction false} PendingSum(todo: seq<Action>)
    ensures PendingCounts(todo) == Sevenfold(k => Pending(todo, k))
  {
    if todo != [] { PendingSum(todo[1..]); }
  }

  lemma {:induction false} OwingSum(fs: seq<Flow>)
    ensures Sum(fs).dgrams == In(fs, Held) + Sevenfold(k => In(fs, Owing(k)))
  {
    if fs != [] {
      OwingSum(fs[..|fs| - 1]);
      PendingSum(fs[|fs| - 1].todo);
    }
  }

  lemma CountsSum(c: Counts)
    ensures c.Total() == Sevenfold(k => Of(c, k))
  {
  }

  /** All that came is with the seven counters or still somewhere. */
  lemma LedgerTotal(s: State)
    requires Inv(s)
    ensures s.received == Sevenfold(k => Ledger(s, k)) + In(s.flows, Held) + InHand(s.reader)
  {
    hide Inv, Sum, In, Pending, Of, Counts.Total, PendingCounts, FlowsInv;
    TotalsOf(s);
    CountsSum(s.counts);
    PendingSum(s.todo);
    OwingSum(s.flows);
  }

  // Every datagram held is one of those that came.

  function OccBelow(q: seq<Dgram>, n: nat): nat {
    if n == 0 then 0 else OccBelow(q, n - 1) + Occ(q, n - 1)
  }

  function WeightBelow(e: Flow, n: nat): nat {
    if n == 0 then 0 else WeightBelow(e, n - 1) + Weight(e, Id(n - 1))
  }

  function InBelow(fs: seq<Flow>, n: nat): nat {
    if n == 0 then 0 else InBelow(fs, n - 1) + In(fs, Id(n - 1))
  }

  function ReaderBelow(r: Reader, n: nat): nat {
    if n == 0 then 0 else ReaderBelow(r, n - 1) + InReader(r, n - 1)
  }

  lemma {:induction false} OccFirst(q: seq<Dgram>, n: nat)
    requires q != []
    ensures OccBelow(q, n) == OccBelow(q[1..], n) + If(q[0].id < n)
  {
    if n > 0 { OccFirst(q, n - 1); }
  }

  lemma {:induction false} OccNone(n: nat)
    ensures OccBelow([], n) == 0
  {
    if n > 0 { OccNone(n - 1); }
  }

  lemma {:induction false} OccAll(q: seq<Dgram>, n: nat)
    requires forall j :: 0 <= j < |q| ==> q[j].id < n
    ensures OccBelow(q, n) == |q|
  {
    if q == [] {
      OccNone(n);
    } else {
      OccAll(q[1..], n);
      OccFirst(q, n);
    }
  }

  lemma {:induction false} WeightSplit(e: Flow, n: nat)
    ensures WeightBelow(e, n)
         == OccBelow(OptSeq(e.first), n) + OccBelow(OptSeq(e.firstQ), n) + OccBelow(e.q, n) + OccBelow(e.batch, n)
  {
    hide Occ, OptSeq;
    if n > 0 { WeightSplit(e, n - 1); }
  }

  lemma WeightAll(e: Flow, n: nat)
    requires AllBelow(Chain(e), n)
    ensures WeightBelow(e, n) == Weight(e, Held)
  {
    hide OccBelow, Chain;
    WeightSplit(e, n);
    ChainIds(e, n);
    OccAll(OptSeq(e.first), n);
    OccAll(OptSeq(e.firstQ), n);
    OccAll(e.q, n);
    OccAll(e.batch, n);
  }

  lemma ChainIds(e: Flow, n: nat)
    requires AllBelow(Chain(e), n)
    ensures forall j :: 0 <= j < |OptSeq(e.first)| ==> OptSeq(e.first)[j].id < n
    ensures forall j :: 0 <= j < |OptSeq(e.firstQ)| ==> OptSeq(e.firstQ)[j].id < n
    ensures forall j :: 0 <= j < |e.q| ==> e.q[j].id < n
    ensures forall j :: 0 <= j < |e.batch| ==> e.batch[j].id < n
  {
    hide OptSeq;
    var c, b, f, p := |e.calls|, |e.batch|, |OptSeq(e.first)|, |OptSeq(e.firstQ)|;
    forall j | 0 <= j < b ensures e.batch[j].id < n { assert Chain(e)[c + j] == e.batch[j].id; }
    forall j | 0 <= j < f ensures OptSeq(e.first)[j].id < n { assert Chain(e)[c + b + j] == OptSeq(e.first)[j].id; }
    forall j | 0 <= j < p ensures OptSeq(e.firstQ)[j].id < n {
      assert Waiting(e)[j] == OptSeq(e.firstQ)[j];
      assert Chain(e)[c + b + f + j] == Waiting(e)[j].id;
    }
    forall j | 0 <= j < |e.q| ensures e.q[j].id < n {
      assert Waiting(e)[p + j] == e.q[j];
      assert Chain(e)[c + b + f + p + j] == Waiting(e)[p + j].id;
    }
  }

  lemma {:induction false} InSplit(fs: seq<Flow>, n: nat)
    requires fs != []
    ensures InBelow(fs, n) == InBelow(fs[..|fs| - 1], n) + WeightBelow(fs[|fs| - 1], n)
  {
    hide Weight;
    if n > 0 { InSplit(fs, n - 1); }
  }

  lemma {:induction false} InNone(n: nat)
    ensures InBelow([], n) == 0
  {
    if n > 0 { InNone(n - 1); }
  }

  lemma {:induction false} InAll(fs: seq<Flow>, n: nat)
    requires FlowsInv(fs, n)
    ensures InBelow(fs, n) == In(fs, Held)
  {
    hide Weight, FlowInv, WeightBelow, Chain;
    if fs == [] {
      InNone(n);
    } else {
      var m := |fs| - 1;
      InAll(fs[..m], n);
      InSplit(fs, n);
      WeightAll(fs[m], n);
    }
  }

  lemma {:induction false} ReaderAll(r: Reader, n: nat)
    ensures ReaderBelow(r, n) == If(InHand(r) == 1 && r.d.id < n)
  {
    if n > 0 { ReaderAll(r, n - 1); }
  }

  lemma {:induction false} TakenSplit(s: State, n: nat)
    ensures Taken(s, n) == InBelow(s.flows, n) + ReaderBelow(s.reader, n)
  {
    hide In, InReader;
    if n > 0 { TakenSplit(s, n - 1); }
  }

  lemma TakenAll(s: State)
    requires Inv(s)
    ensures Taken(s, s.received) == In(s.flows, Held) + InHand(s.reader)
  {
    hide Inv, In, Taken, FlowsInv;
    TotalsOf(s);
    ReaderOf(s);
    TakenSplit(s, s.received);
    InAll(s.flows, s.received);
    ReaderAll(s.reader, s.received);
  }

  lemma {:induction false} OnceTotal(h: History, n: nat)
    requires n <= h.s.received && forall id: nat :: id < n ==> Once(h, id)
    ensures All(h.fate, n) + Taken(h.s, n) == n
  {
    hide Places;
    if n > 0 {
      OnceTotal(h, n - 1);
      assert Once(h, n - 1);
    }
  }

  lemma {:induction false} SameNumber(a: map<nat, Counter>, b: map<nat, Counter>, k: Counter, n: nat)
    requires forall id: nat :: id < n ==> ((id in a && a[id] == k) <==> (id in b && b[id] == k))
    ensures Number(a, k, n) == Number(b, k, n)
  {
    if n > 0 { SameNumber(a, b, k, n - 1); }
  }

  /** What the counters show, or are about to, is what the fates number. */
  ghost predicate Counted(h: History) { forall k :: Number(h.fate, k, h.s.received) == Ledger(h.s, k) }

  /** A counter that the step does not name keeps its fates. */
  lemma OtherNumbers(h: History, step: Step, k: Counter)
    requires Inv(h.s) && (forall id: nat :: Once(h, id)) && Decision(Do(h.s, step), step) != Some(k)
    ensures Number(Next(h, step).fate, k, Next(h, step).s.received) == Number(h.fate, k, h.s.received)
  {
    hide Inv, Do, Places, Decision, NewCall;
    var r := Next(h, step);
    forall id: nat | id < h.s.received
      ensures (id in h.fate && h.fate[id] == k) <==> (id in r.fate && r.fate[id] == k)
    {
      assert Once(h, id);
    }
    SameNumber(h.fate, r.fate, k, h.s.received);
    Arrival(h.s, step);
    assert Once(h, h.s.received);
  }

  /** Two ways to share the same total between the counters that agree on six agree on the seventh. */
  lemma Seventh(f: Counter -> nat, g: Counter -> nat, k: Counter)
    requires Sevenfold(f) == Sevenfold(g) && forall j :: j != k ==> f(j) == g(j)
    ensures f(k) == g(k)
  {
    var all := {ToSession, TooLarge, DropFull, DropOpening, DropOpenQueue, DropOpenAge, DropHeld};
    assert forall j :: j in all && j != k ==> f(j) == g(j);
  }

  lemma BothTotals(h: History)
    requires Inv(h.s) && forall id: nat :: Once(h, id)
    ensures Sevenfold(k => Number(h.fate, k, h.s.received)) == Sevenfold(k => Ledger(h.s, k))
  {
    hide Inv, Number, Ledger, Taken, Once, In, Sevenfold;
    OnceTotal(h, h.s.received);
    AllNumbers(h.fate, h.s.received);
    TakenAll(h.s);
    LedgerTotal(h.s);
  }

  lemma CountedStep(h: History, step: Step)
    requires Inv(h.s) && (forall id: nat :: Once(h, id)) && Counted(h)
    ensures Counted(Next(h, step))
  {
    hide Inv, Do, Next, Once, Number, Ledger, Sevenfold, Decision;
    var r := Next(h, step);
    NextState(h, step);
    StepInv(h.s, step);
    forall id: nat ensures Once(r, id) { OnceStep(h, step, id); }
    BothTotals(r);
    var f: Counter -> nat := k => Number(r.fate, k, r.s.received);
    var g: Counter -> nat := k => Ledger(r.s, k);
    forall k | Decision(Do(h.s, step), step) != Some(k) ensures f(k) == g(k) {
      OtherNumbers(h, step, k);
      StepKind(h.s, step, k);
    }
    forall k ensures Number(r.fate, k, r.s.received) == Ledger(r.s, k) {
      if Decision(Do(h.s, step), step) == Some(k) { Seventh(f, g, k); }
      assert f(k) == g(k);
    }
  }

  lemma NextState(h: History, step: Step)
    ensures Next(h, step).s == Do(h.s, step)
  {
    hide Do, Places, Decision, NewCall;
  }

  lemma InitCounted(max: nat, bare: nat, active: bool)
    ensures Counted(History(Init(max, bare, active), map[], []))
  {
  }

  lemma {:induction false} CountedRun(max: nat, bare: nat, active: bool, steps: seq<Step>)
    ensures Counted(Run(Init(max, bare, active), steps))
    decreases |steps|
  {
    hide Next, Exec, Counted, Once;
    var s := Init(max, bare, active);
    if steps == [] {
      InitCounted(max, bare, active);
    } else {
      var before := steps[..|steps| - 1];
      CountedRun(max, bare, active, before);
      RunInv(max, bare, active, before);
      RunExec(s, before);
      forall id: nat ensures Once(Run(s, before), id) { OnceRun(max, bare, active, before, id); }
      CountedStep(Run(s, before), steps[|steps| - 1]);
    }
  }

  // ---- each fate has its reason ----

  /** At some step of the run datagram id was in its place, and left it for counter k with its reason. */
  ghost predicate Explained(s: State, steps: seq<Step>, id: nat, k: Counter) {
    exists m :: 0 <= m < |steps| && LeftFor(Exec(s, steps[..m]), steps[m], id, k)
  }

  ghost predicate LeftFor(s: State, step: Step, id: nat, k: Counter) {
    Places(s, id) == 1 && Places(Do(s, step), id) == 0 && Reason(s, step, id, k)
  }

  lemma ExplainedLater(s: State, steps: seq<Step>, id: nat, k: Counter)
    requires steps != [] && Explained(s, steps[..|steps| - 1], id, k)
    ensures Explained(s, steps, id, k)
  {
    hide Exec, LeftFor;
    var before := steps[..|steps| - 1];
    var m :| 0 <= m < |before| && LeftFor(Exec(s, before[..m]), before[m], id, k);
    assert before[..m] == steps[..m] && before[m] == steps[m];
  }

  lemma ExplainedNow(h: History, step: Step, id: nat)
    requires Inv(h.s) && Once(h, id) && id !in h.fate && id in Next(h, step).fate
    ensures LeftFor(h.s, step, id, Next(h, step).fate[id])
  {
    hide Inv, Do, Places, Decision, NewCall, Reason;
    StepFair(h.s, step, id);
  }

  /** Every fate has its reason: at some step of the run the datagram was in its
      place and left it for this counter, and the state at that step shows why. */
  lemma {:induction false} FatesExplained(max: nat, bare: nat, active: bool, steps: seq<Step>, id: nat)
    ensures var h := Run(Init(max, bare, active), steps);
            id in h.fate ==> Explained(Init(max, bare, active), steps, id, h.fate[id])
    decreases |steps|
  {
    hide Explained, Exec, Once, Inv, Next;
    var s := Init(max, bare, active);
    if steps != [] {
      var before := steps[..|steps| - 1];
      var h, step := Run(s, before), steps[|steps| - 1];
      FatesExplained(max, bare, active, before, id);
      OnceRun(max, bare, active, before, id);
      RunInv(max, bare, active, before);
      RunExec(s, before);
      if id in h.fate {
        FateKept(h, step, id);
        ExplainedLater(s, steps, id, h.fate[id]);
      } else if id in Next(h, step).fate {
        ExplainedNow(h, step, id);
        ExplainedLast(s, steps, id, Next(h, step).fate[id]);
      }
    }
  }

  lemma FateKept(h: History, step: Step, id: nat)
    requires Once(h, id) && id in h.fate
    ensures id in Next(h, step).fate && Next(h, step).fate[id] == h.fate[id]
  {
    hide Do, Places, Decision, NewCall;
  }

  lemma ExplainedLast(s: State, steps: seq<Step>, id: nat, k: Counter)
    requires steps != [] && LeftFor(Exec(s, steps[..|steps| - 1]), steps[|steps| - 1], id, k)
    ensures Explained(s, steps, id, k)
  {
    hide Exec, LeftFor;
    var m := |steps| - 1;
    assert 0 <= m < |steps| && LeftFor(Exec(s, steps[..m]), steps[m], id, k);
  }

  // ---- the promise ----

  function Fated(fate: map<nat, Counter>, k: Counter): set<nat> { set id | id in fate && fate[id] == k }

  /** The datagrams with fate k among the first n. */
  function FatedBelow(fate: map<nat, Counter>, k: Counter, n: nat): (r: set<nat>)
    ensures forall id :: id in r <==> id < n && id in fate && fate[id] == k
    ensures |r| == Number(fate, k, n)
  {
    if n == 0 then {}
    else if n - 1 in fate && fate[n - 1] == k then FatedBelow(fate, k, n - 1) + {n - 1}
    else FatedBelow(fate, k, n - 1)
  }

  /** Whatever the interleaving, a datagram that came is in exactly one place or
      has exactly one fate, one that did not has neither, and it was given to
      its session, in a WriteTo that succeeded or with the OPEN, if and only if
      its fate is ToSession. */
  lemma OneFate(max: nat, bare: nat, active: bool, steps: seq<Step>, id: nat)
    ensures var h := Run(Init(max, bare, active), steps);
            && h.s == Exec(Init(max, bare, active), steps)
            && Places(h.s, id) + If(id in h.fate) == If(id < h.s.received)
            && ((id in h.fate && h.fate[id] == ToSession) <==> Out(id, Wrote) in h.outs)
  {
    hide Places, Exec, Run;
    RunExec(Init(max, bare, active), steps);
    OnceRun(max, bare, active, steps, id);
  }

  /** Each of the seven counters, with the updates still to come, is the number
      of datagrams with that fate; once nothing runs, the counters are these
      numbers and every datagram has a fate. */
  lemma FatesCounted(max: nat, bare: nat, active: bool, steps: seq<Step>, k: Counter)
    ensures var h := Run(Init(max, bare, active), steps);
            && |Fated(h.fate, k)| == Ledger(h.s, k)
            && (Quiet(h.s) ==> |Fated(h.fate, k)| == Of(h.s.counts, k)
                               && forall id: nat :: id < h.s.received ==> id in h.fate)
  {
    hide Exec, Run, Number, Ledger, Inv, Places, Of;
    var h := Run(Init(max, bare, active), steps);
    RunExec(Init(max, bare, active), steps);
    RunInv(max, bare, active, steps);
    CountedRun(max, bare, active, steps);
    forall id: nat ensures Once(h, id) { OnceRun(max, bare, active, steps, id); }
    forall id: nat | id in h.fate ensures id < h.s.received { assert Once(h, id); }
    assert Fated(h.fate, k) == FatedBelow(h.fate, k, h.s.received);
    if Quiet(h.s) {
      QuietLedger(h.s, k);
      forall id: nat | id < h.s.received ensures id in h.fate {
        assert Once(h, id);
        QuietPlaces(h.s, id);
      }
    }
  }

  lemma QuietLedger(s: State, k: Counter)
    requires Quiet(s)
    ensures Ledger(s, k) == Of(s.counts, k)
  {
    hide In;
    NothingOwed(s.flows, k);
  }

  lemma {:induction false} NothingOwed(fs: seq<Flow>, k: Counter)
    requires forall f :: 0 <= f < |fs| ==> fs[f].todo == []
    ensures In(fs, Owing(k)) == 0
  {
    if fs != [] { NothingOwed(fs[..|fs| - 1], k); }
  }

  lemma QuietPlaces(s: State, id: nat)
    requires Inv(s) && Quiet(s)
    ensures Places(s, id) == 0
  {
    hide Inv, In, FlowsInv;
    TotalsOf(s);
    NothingHeld(s.flows, s.received, id);
  }

  lemma {:induction false} NothingHeld(fs: seq<Flow>, received: nat, id: nat)
    requires FlowsInv(fs, received) && forall f :: 0 <= f < |fs| ==> fs[f].pc.Exited?
    ensures In(fs, Id(id)) == 0
  {
    if fs != [] {
      NothingHeld(fs[..|fs| - 1], received, id);
      assert FlowInv(fs[|fs| - 1]);
    }
  }
}
