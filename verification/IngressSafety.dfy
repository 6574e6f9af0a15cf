/** What every interleaving of the UDP ingress keeps: table, units, gauges,
    datagram conservation and the order of each session's calls. */
module IngressSafety {
  import opened Ingress

  // ---- sums over the entries ----

  function PendingCounts(todo: seq<Action>): nat {
    if todo == [] then 0
    else (if todo[0].Count? then todo[0].n else 0) + PendingCounts(todo[1..])
  }

  function PendingReleases(todo: seq<Action>): nat {
    if todo == [] then 0
    else (if todo[0].Release? then 1 else 0) + PendingReleases(todo[1..])
  }

  function PendingCloses(todo: seq<Action>, v: nat): nat {
    if todo == [] then 0
    else (if todo[0] == CloseDone(v) then 1 else 0) + PendingCloses(todo[1..], v)
  }

  function Ind(b: bool): int { if b then 1 else 0 }

  /** What one entry adds to the totals; dgrams: the datagrams it still answers for. */
  datatype Tally = Tally(live: int, opening: int, open: int, held: int, dgrams: int, releases: int)
  {
    function Plus(t: Tally): Tally {
      Tally(live + t.live, opening + t.opening, open + t.open, held + t.held, dgrams + t.dgrams, releases + t.releases)
    }

    function Minus(t: Tally): Tally {
      Tally(live - t.live, opening - t.opening, open - t.open, held - t.held, dgrams - t.dgrams, releases - t.releases)
    }
  }

  function One(e: Flow): Tally {
    Tally(Ind(!e.gone), Ind(e.state == FlowOpening), Ind(e.state == FlowOpen), Ind(e.state == FlowHeld),
          |OptSeq(e.first)| + |Waiting(e)| + |e.batch| + PendingCounts(e.todo), PendingReleases(e.todo))
  }

  function Sum(fs: seq<Flow>): Tally {
    if fs == [] then Tally(0, 0, 0, 0, 0, 0) else Sum(fs[..|fs| - 1]).Plus(One(fs[|fs| - 1]))
  }

  lemma {:induction false} SumUpdate(fs: seq<Flow>, i: nat, e: Flow)
    requires i < |fs|
    ensures Sum(fs[i := e]) == Sum(fs).Minus(One(fs[i])).Plus(One(e))
  {
    hide One;
    var n := |fs| - 1;
    if i == n {
      assert fs[i := e][..n] == fs[..n];
    } else {
      SumUpdate(fs[..n], i, e);
      assert fs[i := e][..n] == fs[..n][i := e];
    }
  }

  lemma SumAppend(fs: seq<Flow>, e: Flow)
    ensures Sum(fs + [e]) == Sum(fs).Plus(One(e))
  {
    assert (fs + [e])[..|fs|] == fs;
  }

  lemma {:induction false} SumBounds(fs: seq<Flow>)
    ensures Sum(fs).live >= 0 && Sum(fs).opening >= 0 && Sum(fs).open >= 0 && Sum(fs).held >= 0
    ensures Sum(fs).dgrams >= 0 && Sum(fs).releases >= 0
  {
    if fs != [] { SumBounds(fs[..|fs| - 1]); }
  }

  // ---- the invariant ----

  /** Map, dense array and idx hold the same entries: exactly those not gone. */
  ghost predicate TableInv(table: map<Addr, nat>, all: seq<nat>, flows: seq<Flow>) {
    && (forall i :: 0 <= i < |all| ==> all[i] < |flows| && !flows[all[i]].gone && flows[all[i]].idx == i)
    && (forall f :: 0 <= f < |flows| && !flows[f].gone ==>
          flows[f].idx < |all| && all[flows[f].idx] == f && flows[f].client in table && table[flows[f].client] == f)
    && (forall a :: a in table ==> table[a] < |flows| && !flows[table[a]].gone && flows[table[a]].client == a)
    && |all| == Sum(flows).live
  }

  function Ids(q: seq<Dgram>): seq<nat> { seq(|q|, i requires 0 <= i < |q| => q[i].id) }

  /** The datagrams of one flow, in the order its session was or will be given them. */
  function Chain(e: Flow): seq<nat> {
    Ids(e.calls) + Ids(e.batch) + Ids(OptSeq(e.first)) + Ids(Waiting(e))
  }

  ghost predicate Increasing(s: seq<nat>) { forall i, j :: 0 <= i < j < |s| ==> s[i] < s[j] }

  ghost predicate AllBelow(s: seq<nat>, n: nat) { forall i :: 0 <= i < |s| ==> s[i] < n }

  /** e1 holds no datagram newer than those of e. */
  ghost predicate NoNewer(e: Flow, e1: Flow) { forall n :: AllBelow(Chain(e), n) ==> AllBelow(Chain(e1), n) }

  /** Every datagram of the flow came from its client. */
  ghost predicate Owned(e: Flow) {
    From(e.calls, e.client) && From(e.batch, e.client) && From(e.q, e.client)
    && From(OptSeq(e.first), e.client) && From(OptSeq(e.firstQ), e.client)
  }

  ghost predicate From(q: seq<Dgram>, src: Addr) { forall i :: 0 <= i < |q| ==> q[i].src == src }

  ghost predicate Early(pc: Pc) { pc.Dialing? || pc.DialFailed? || pc.MoveFirst? || pc.Flushing? }

  ghost predicate FlowInv(e: Flow) {
    && (e.gone <==> e.state == FlowGone)
    && (Early(e.pc) ==> e.state == FlowOpening)
    && (e.state == FlowOpening ==> Early(e.pc) || e.pc == Ending(ErrClosed))
    && (e.state == FlowOpen ==> (e.pc.Pumping? || e.pc.Ending?) && e.session)
    && (e.state == FlowHeld ==> e.pc.Pumping? || e.pc.Ending? || e.pc.Holding?)
    && (e.pc.Exited? ==> e.gone)
    && (!Early(e.pc) ==> e.first.None? && e.firstQ.None? && e.q == [] && e.batch == [])
    && (e.pc.MoveFirst? ==> e.first.Some?)
    && (e.pc.Flushing? ==> e.first.None?)
    && (e.first.Some? ==> e.firstQ.None?)
    && (e.batch != [] ==> e.pc.Flushing? && e.firstQ.None?)
    && e.qBytes == Bytes(e.q) && e.qBytes <= QUEUE_BYTES && |e.q| <= QUEUE_LEN
    && Increasing(Chain(e)) && Owned(e)
    && (forall i :: 0 <= i < |e.todo| ==> !e.todo[i].CloseDone?)
  }

  ghost predicate ReaderInv(s: State) {
    && (s.reader.Entering? || s.reader.Writing? || s.reader.Replacing? ==>
          s.todo == [] && s.reader.d.id + 1 == s.received)
    && (s.reader.Entering? ==>
          forall g :: 0 <= g < |s.flows| && !s.flows[g].gone ==> AllBelow(Chain(s.flows[g]), s.reader.d.id))
    && (s.reader.Entering? && s.reader.again ==> s.reader.d.src !in s.table)
    && (s.reader.Writing? || s.reader.Replacing? ==>
          s.reader.f < |s.flows| && !s.reader.again && s.reader.d.src == s.flows[s.reader.f].client
          && !Early(s.flows[s.reader.f].pc)
          && s.flows[s.reader.f].state != FlowOpening
          && (s.flows[s.reader.f].gone ==> s.flows[s.reader.f].client !in s.table))
    && (s.reader.Writing? ==> AllBelow(Chain(s.flows[s.reader.f]), s.reader.d.id))
    && (s.reader.Writing? || s.reader.Replacing? ==>
          forall g :: 0 <= g < |s.flows| && !s.flows[g].gone && g != s.reader.f ==>
                        AllBelow(Chain(s.flows[g]), s.reader.d.id))
    && (s.reader.Replacing? ==> AllBelow(Chain(s.flows[s.reader.f]), s.received))
    && (s.stopped ==> s.reader == Returned)
    && (!s.stopped ==> forall g :: 0 <= g < |s.flows| && s.flows[g].state == FlowOpening ==> Early(s.flows[g].pc))
    && (s.reader == Returned ==> s.todo == [])
  }

  ghost predicate DoneInv(s: State) {
    && (forall v :: 0 <= v < |s.flows| ==>
          s.flows[v].doneCloses + PendingCloses(s.todo, v) <= 1
          && (s.flows[v].doneCloses + PendingCloses(s.todo, v) > 0 ==> s.flows[v].gone))
    && (forall i :: 0 <= i < |s.todo| && s.todo[i].CloseDone? ==> s.todo[i].v < |s.flows|)
  }

  function InHand(r: Reader): nat { if r.Entering? || r.Writing? || r.Replacing? then 1 else 0 }

  ghost predicate Totals(s: State) {
    var t := Sum(s.flows);
    && s.units == t.live + t.releases + PendingReleases(s.todo) + s.otherUnits
    && s.units <= s.max
    && s.opening == t.opening + s.otherOpening && s.opening <= OPENING_MAX
    && s.open == t.open && s.held == t.held
    && s.received == s.counts.Total() + t.dgrams + PendingCounts(s.todo) + InHand(s.reader)
  }

  ghost predicate FlowsInv(flows: seq<Flow>, received: nat) {
    forall f :: 0 <= f < |flows| ==> FlowInv(flows[f]) && AllBelow(Chain(flows[f]), received)
  }

  ghost predicate Inv(s: State) {
    && TableInv(s.table, s.all, s.flows) && FlowsInv(s.flows, s.received)
    && ReaderInv(s) && DoneInv(s) && Totals(s)
  }

  lemma InitInv(max: nat, bare: nat, active: bool)
    ensures Inv(Init(max, bare, active))
  {
  }

  // ---- one entry changes ----

  lemma TableUpdate(table: map<Addr, nat>, all: seq<nat>, flows: seq<Flow>, f: nat, e: Flow)
    requires TableInv(table, all, flows) && f < |flows|
    requires e.gone == flows[f].gone && e.idx == flows[f].idx && e.client == flows[f].client
    ensures TableInv(table, all, flows[f := e])
  {
    hide One, Sum;
    GoneTally(e);
    GoneTally(flows[f]);
    SumUpdate(flows, f, e);
  }

  lemma FlowsUpdate(flows: seq<Flow>, received: nat, f: nat, e: Flow)
    requires FlowsInv(flows, received) && f < |flows| && FlowInv(e) && AllBelow(Chain(e), received)
    ensures FlowsInv(flows[f := e], received)
  {
  }

  lemma ReaderUpdate(s: State, f: nat, e: Flow)
    requires ReaderInv(s) && f < |s.flows|
    requires e.client == s.flows[f].client && (s.flows[f].gone ==> e.gone)
             && (e.gone && !s.flows[f].gone ==> e.client !in s.table)
    requires Early(e.pc) ==> Early(s.flows[f].pc)
    requires e.state == FlowOpening ==> s.flows[f].state == FlowOpening && (Early(e.pc) || s.stopped)
    requires NoNewer(s.flows[f], e)
    ensures ReaderInv(SetFlow(s, f, e))
  {
  }

  /** An entry changes in place: the shared counters move as its tally does. */
  ghost predicate InPlace(s: State, f: nat, e: Flow, r: State) {
    && f < |s.flows| && r == s.(flows := s.flows[f := e], opening := r.opening, open := r.open, held := r.held,
                               counts := r.counts, units := r.units, cancelled := r.cancelled)
    && e.gone == s.flows[f].gone && e.idx == s.flows[f].idx && e.client == s.flows[f].client
    && e.doneCloses == s.flows[f].doneCloses
    && (Early(e.pc) ==> Early(s.flows[f].pc))
    && (e.state == FlowOpening ==> s.flows[f].state == FlowOpening && (Early(e.pc) || s.stopped))
    && Balanced(s, One(s.flows[f]), One(e), r)
  }

  /** The shared counters of r are those of s after an entry's tally went from a to b. */
  ghost predicate Balanced(s: State, a: Tally, b: Tally, r: State) {
    && r.opening - s.opening == b.opening - a.opening && r.opening <= OPENING_MAX
    && r.open - s.open == b.open - a.open && r.held - s.held == b.held - a.held
    && r.units - s.units == b.live + b.releases - a.live - a.releases && r.units <= s.max
    && r.counts.Total() - s.counts.Total() == a.dgrams - b.dgrams
  }

  lemma ChangeStep(s: State, f: nat, e: Flow, r: State)
    requires Inv(s) && InPlace(s, f, e, r) && FlowInv(e)
    requires NoNewer(s.flows[f], e)
    ensures Inv(r)
  {
    hide FlowInv, TableInv, ReaderInv, Chain, One, AllBelow, Early, Counts.Total;
    SumUpdate(s.flows, f, e);
    TableUpdate(s.table, s.all, s.flows, f, e);
    FlowsUpdate(s.flows, s.received, f, e);
    ReaderUpdate(s, f, e);
    SameReader(SetFlow(s, f, e), r);
  }

  lemma SameReader(s: State, r: State)
    requires ReaderInv(s)
    requires r.flows == s.flows && r.reader == s.reader && r.todo == s.todo && r.table == s.table
    requires r.received == s.received && r.stopped == s.stopped
    ensures ReaderInv(r)
  {
  }

  // ---- an entry leaves ----

  /** What `del` leaves behind once entry f became e. */
  function Swapped(all: seq<nat>, flows: seq<Flow>, f: nat, e: Flow): seq<Flow>
    requires f < |flows| && e.idx < |all| && all[|all| - 1] < |flows|
  {
    var last := all[|all| - 1];
    var fs := flows[f := e];
    if e.idx == |all| - 1 then fs else fs[last := fs[last].(idx := e.idx)]
  }

  lemma SameTally(e: Flow, i: nat)
    ensures One(e.(idx := i)) == One(e)
  {
  }

  lemma DelSum(all: seq<nat>, flows: seq<Flow>, f: nat, e: Flow)
    requires f < |flows| && e.idx < |all| && all[|all| - 1] < |flows|
    ensures Sum(Swapped(all, flows, f, e)) == Sum(flows).Minus(One(flows[f])).Plus(One(e))
  {
    hide One, Sum;
    var last, fs := all[|all| - 1], flows[f := e];
    SumUpdate(flows, f, e);
    SameTally(fs[last], e.idx);
    SumUpdate(fs, last, fs[last].(idx := e.idx));
  }

  /** The dense array's half of `del`: the entry that had the last place has e's. */
  lemma DelIndex(table: map<Addr, nat>, all: seq<nat>, flows: seq<Flow>, f: nat, e: Flow, g: nat)
    requires TableInv(table, all, flows) && f < |flows| && !flows[f].gone && g < |flows|
    requires e.gone && e.idx == flows[f].idx && e.client == flows[f].client
    ensures var g' := Swapped(all, flows, f, e)[g];
            g'.client == (if g == f then e else flows[g]).client && g'.gone == (if g == f then e else flows[g]).gone
            && (!g'.gone ==> g != f && g'.idx < |all| - 1 && all[e.idx := all[|all| - 1]][g'.idx] == g)
  {
    hide Sum;
    if g != f && !flows[g].gone {
      assert all[flows[g].idx] == g && all[flows[f].idx] == f;
    }
  }

  lemma DelPlaces(table: map<Addr, nat>, all: seq<nat>, flows: seq<Flow>, f: nat, e: Flow, i: nat)
    requires TableInv(table, all, flows) && f < |flows| && !flows[f].gone && i < |all| - 1
    requires e.gone && e.idx == flows[f].idx && e.client == flows[f].client
    ensures var g := all[e.idx := all[|all| - 1]][i];
            g < |flows| && g != f && !Swapped(all, flows, f, e)[g].gone && Swapped(all, flows, f, e)[g].idx == i
  {
    hide Sum;
    assert all[flows[f].idx] == f;
  }

  lemma DelTable(table: map<Addr, nat>, all: seq<nat>, flows: seq<Flow>, f: nat, e: Flow)
    requires TableInv(table, all, flows) && f < |flows| && !flows[f].gone
    requires e.gone && e.idx == flows[f].idx && e.client == flows[f].client
    ensures TableInv(table - {e.client}, all[e.idx := all[|all| - 1]][..|all| - 1], Swapped(all, flows, f, e))
  {
    hide One, Sum;
    DelSum(all, flows, f, e);
    assert One(flows[f]).live == 1 && One(e).live == 0 by { GoneTally(flows[f]); GoneTally(e); }
    var all', flows' := all[e.idx := all[|all| - 1]][..|all| - 1], Swapped(all, flows, f, e);
    assert table[e.client] == f;
    assert |flows'| == |flows|;
    forall g | 0 <= g < |flows| { DelIndex(table, all, flows, f, e, g); }
    forall i | 0 <= i < |all'|
      ensures all'[i] < |flows'| && !flows'[all'[i]].gone && flows'[all'[i]].idx == i
    {
      DelPlaces(table, all, flows, f, e, i);
    }
    hide Swapped;
    forall a | a in table - {e.client}
      ensures table[a] < |flows'| && !flows'[table[a]].gone && flows'[table[a]].client == a
    {
      assert table[a] != f;
    }
  }

  lemma GoneTally(e: Flow)
    ensures One(e).live == Ind(!e.gone)
  {
  }

  /** Removing entry f, which became e on the way out. */
  ghost predicate TakenOut(s: State, f: nat, e: Flow, r: State) {
    && f < |s.flows| && !s.flows[f].gone && e.gone && e.idx == s.flows[f].idx && e.client == s.flows[f].client
    && e.idx < |s.all| && s.all[|s.all| - 1] < |s.flows|
    && e.doneCloses == s.flows[f].doneCloses
    && r == s.(flows := Swapped(s.all, s.flows, f, e), table := s.table - {e.client},
               all := s.all[e.idx := s.all[|s.all| - 1]][..|s.all| - 1],
               opening := r.opening, open := r.open, held := r.held, units := r.units, counts := r.counts)
    && !Early(e.pc)
    && Balanced(s, One(s.flows[f]), One(e), r)
  }

  lemma SwappedFlows(all: seq<nat>, flows: seq<Flow>, received: nat, f: nat, e: Flow)
    requires FlowsInv(flows, received) && f < |flows| && FlowInv(e) && AllBelow(Chain(e), received)
    requires e.idx < |all| && all[|all| - 1] < |flows|
    ensures FlowsInv(Swapped(all, flows, f, e), received)
  {
    FlowsUpdate(flows, received, f, e);
    var last, fs := all[|all| - 1], flows[f := e];
    assert Chain(fs[last].(idx := e.idx)) == Chain(fs[last]);
    FlowsUpdate(fs, received, last, fs[last].(idx := e.idx));
  }

  lemma SwappedReader(s: State, f: nat, e: Flow, r: State)
    requires ReaderInv(s) && TakenOut(s, f, e, r)
    requires e.state == FlowGone
    requires NoNewer(s.flows[f], e)
    ensures ReaderInv(r)
  {
    hide Balanced, Increasing;
    var s1 := s.(table := s.table - {e.client});
    assert ReaderInv(s1);
    ReaderUpdate(s1, f, e);
    var s2, last := SetFlow(s1, f, e), s.all[|s.all| - 1];
    assert Chain(s2.flows[last].(idx := e.idx)) == Chain(s2.flows[last]);
    ReaderUpdate(s2, last, s2.flows[last].(idx := e.idx));
    SameReader(if e.idx == |s.all| - 1 then s2 else SetFlow(s2, last, s2.flows[last].(idx := e.idx)), r);
  }

  lemma SwappedDone(s: State, f: nat, e: Flow, r: State)
    requires DoneInv(s) && TakenOut(s, f, e, r)
    ensures DoneInv(r)
  {
    hide Balanced, Early;
  }

  lemma RemoveStep(s: State, f: nat, e: Flow, r: State)
    requires Inv(s) && TakenOut(s, f, e, r) && FlowInv(e)
    requires NoNewer(s.flows[f], e)
    ensures Inv(r)
  {
    assert e.state == FlowGone;
    assert AllBelow(Chain(e), s.received);
    RemoveParts(s, f, e, r);
  }

  lemma RemoveParts(s: State, f: nat, e: Flow, r: State)
    requires Inv(s) && TakenOut(s, f, e, r) && FlowInv(e) && e.state == FlowGone && AllBelow(Chain(e), s.received)
    requires NoNewer(s.flows[f], e)
    ensures Inv(r)
  {
    hide FlowInv, TableInv, ReaderInv, FlowsInv, DoneInv, Chain, One, AllBelow, Early, Counts.Total;
    DelSum(s.all, s.flows, f, e);
    DelTable(s.table, s.all, s.flows, f, e);
    SwappedFlows(s.all, s.flows, s.received, f, e);
    SwappedReader(s, f, e, r);
    SwappedDone(s, f, e, r);
  }

  // ---- an entry comes ----

  lemma PutTable(table: map<Addr, nat>, all: seq<nat>, flows: seq<Flow>, e: Flow)
    requires TableInv(table, all, flows) && e.client !in table && !e.gone && e.idx == |all|
    ensures TableInv(table[e.client := |flows|], all + [|flows|], flows + [e])
  {
    hide One, Sum;
    SumAppend(flows, e);
    GoneTally(e);
  }

  /** The reader puts its datagram into a new entry. */
  ghost predicate PutIn(s: State, e: Flow, r: State) {
    && !e.gone && e.idx == |s.all| && e.client !in s.table && e.doneCloses == 0
    && InHand(s.reader) == 1 && s.todo == [] && One(e).dgrams == 1 && One(e).releases == 0
    && r == s.(flows := s.flows + [e], table := s.table[e.client := |s.flows|], all := s.all + [|s.flows|],
               opening := r.opening, units := r.units, reader := Idle)
    && r.opening == s.opening + 1 <= OPENING_MAX && e.state == FlowOpening && Early(e.pc)
    && r.units == s.units + 1 <= s.max
  }

  lemma PutStep(s: State, e: Flow, r: State)
    requires Inv(s) && PutIn(s, e, r) && FlowInv(e) && AllBelow(Chain(e), s.received)
    ensures Inv(r)
  {
    hide FlowInv, TableInv, Chain, One, AllBelow, Early, Counts.Total;
    SumAppend(s.flows, e);
    StateTally(e);
    PutTable(s.table, s.all, s.flows, e);
  }

  lemma StateTally(e: Flow)
    ensures One(e).opening == Ind(e.state == FlowOpening) && One(e).open == Ind(e.state == FlowOpen)
            && One(e).held == Ind(e.state == FlowHeld) && One(e).live == Ind(!e.gone)
            && One(e).releases == PendingReleases(e.todo)
  {
  }
}
