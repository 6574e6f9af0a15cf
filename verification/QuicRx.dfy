/** quic/datagram.go, receive side: how rxSeq infers from wrapping sequence
    numbers what quic-go's silent 128-slot queue dropped. The product of
    sender, lossy and reordering network, tail-drop queue, pump and ingress queue. */
module QuicRx {
  import opened Bytes

  const RCV_QUEUE := 128                  // quicRcvQueue
  const HALF := 0x8000_0000               // 2^31
  const SEQ_LEN := 4                      // seqLen

  // ---- the wire: a 4-byte big-endian number, then the datagram ----

  /** A datagram the sender framed is read back by the receiver, number and payload. */
  lemma FrameRoundTrip(x: nat, p: seq<Byte>)
    requires x < WRAP
    ensures Uint32(PutUint32(x) + p) == x && (PutUint32(x) + p)[SEQ_LEN..] == p
  {
    GetPut32(x);
    var b := PutUint32(x);
    assert (b + p)[0] == b[0] && (b + p)[1] == b[1] && (b + p)[2] == b[2] && (b + p)[3] == b[3];
  }

  // ---- rxSeq ----

  datatype Rx = Rx(next: nat, run: nat, lag: bool)

  /** The number of the n-th datagram on the wire. */
  function Wire(n: nat): nat { n % WRAP }

  /** num++ on a 32-bit number. */
  function Inc(num: nat): nat { (num + 1) % WRAP }

  /** int32(num - next) on 32-bit numbers. */
  function Gap(num: nat, next: nat): int {
    var u := (num - next) % WRAP;
    if u < HALF then u else u - WRAP
  }

  function Empty(rx: Rx): Rx { rx.(run := 0) }

  function Take(rx: Rx, num: nat): (r: (Rx, nat)) {
    var run := rx.run + 1;
    var gap := Gap(num, rx.next);
    if gap >= 0 then (Rx(Inc(num), run, run >= RCV_QUEUE), if rx.lag then gap else 0)
    else (rx.(run := run, lag := rx.lag || run >= RCV_QUEUE), 0)
  }

  /** rxSeq as the pump keeps it. */
  class RxSeq {
    var next: nat
    var run: nat
    var lag: bool

    ghost function Value(): Rx
      reads this
    {
      Rx(next, run, lag)
    }

    constructor ()
      ensures Value() == Rx(0, 0, false)
    {
      next, run, lag := 0, 0, false;
    }

    method FoundEmpty()
      modifies this
      ensures Value() == Empty(old(Value()))
    {
      run := 0;
    }

    method TakeSeq(num: nat) returns (n: nat)
      modifies this
      ensures (Value(), n) == Take(old(Value()), num)
    {
      run := run + 1;
      var gap := Gap(num, next);
      n := 0;
      if gap >= 0 {
        if lag { n := gap; }
        next := Inc(num);
        lag := run >= RCV_QUEUE;
        return;
      }
      lag := lag || run >= RCV_QUEUE;
    }
  }

  lemma ModShift(a: nat, b: nat)
    ensures (b % WRAP - a % WRAP) % WRAP == (b - a) % WRAP
  {
    var x, y := b / WRAP, a / WRAP;
    assert b == x * WRAP + b % WRAP && a == y * WRAP + a % WRAP;
    var d := b % WRAP - a % WRAP;
    assert d == (b - a) + (y - x) * WRAP;
    ModMul(b - a, y - x);
  }

  lemma {:induction false} ModMul(g: int, k: int)
    ensures (g + k * WRAP) % WRAP == g % WRAP
    decreases if k < 0 then -k else k
  {
    if k > 0 {
      ModMul(g, k - 1);
      assert g + k * WRAP == (g + (k - 1) * WRAP) + WRAP;
    } else if k < 0 {
      ModMul(g, k + 1);
      assert g + k * WRAP == (g + (k + 1) * WRAP) - WRAP;
    }
  }

  /** Across every wrap, ahead or behind, the receiver sees the true distance exactly when it is within 2^31. */
  lemma GapExact(a: nat, b: nat)
    ensures Gap(Wire(b), Wire(a)) == b - a <==> -HALF <= b - a < HALF
  {
    ModShift(a, b);
    if -HALF <= b - a < 0 { assert (b - a) % WRAP == b - a + WRAP; }
  }

  // ---- the product ----

  /** A datagram in quic-go's queue: its number on the wire, and as history its
      place among all datagrams sent and how many of those just before it the
      queue dropped or the network lost. */
  datatype Item = Item(num: nat, no: nat, dropped: nat, lost: nat)

  /** A datagram the pump took: its place among all sent, and among those taken since the queue was found empty. */
  datatype Pull = Pull(no: nat, place: nat)

  /** One direction of a connection. Numbers settled: those below the next one the
      receiver expects. */
  datatype World = World(
    num: nat,                       // sender.seq
    sent: nat,                      // datagrams quic-go accepted from the sender
    q: seq<Item>,                   // quic-go's receive queue
    tailDropped: nat, tailLost: nat,// gone behind the queue's last datagram
    rx: Rx,
    taken: nat,                     // datagrams the pump took
    settled: nat,                    // history: every number below it is settled
    dropped: nat, lost: nat,        // settled queue drops and network losses
    counted: nat,                   // sum of rxSeq.take
    since: nat, longest: nat,       // history: datagrams taken since the queue was last found empty, and the most ever
    overLost: nat,                  // history: settled losses shown during an overflow
    over: bool,                     // history: since the last datagram taken in order, one was the 128th of its run
    log: seq<Pull>,                 // history: what the pump took, in order
    ringDrops: nat, delivered: nat) // the ingress queue was full; it took the datagram

  function Start(): World { World(0, 0, [], 0, 0, Rx(0, 0, false), 0, 0, 0, 0, 0, 0, 0, 0, false, [], 0, 0) }

  datatype Step =
    | Refuse              // SendDatagram refused: no number is used
    | Arrive              // sent, and reached quic-go's queue: taken in, or dropped when full
    | Lose                // sent, and lost in the network or late
    | Late(no: nat)       // the no-th datagram sent arrives now, whatever arrived before
    | Probe               // the pump polls; an empty queue is told to rx
    | Pump(full: bool)    // the pump takes the head; full: the ingress queue refuses it

  function Do(w: World, step: Step): World {
    match step
    case Refuse => w
    case Arrive =>
      var s := w.(num := Inc(w.num), sent := w.sent + 1);
      if |w.q| < RCV_QUEUE then
        s.(q := w.q + [Item(w.num, w.sent, w.tailDropped, w.tailLost)], tailDropped := 0, tailLost := 0)
      else s.(tailDropped := w.tailDropped + 1)
    case Lose => w.(num := Inc(w.num), sent := w.sent + 1, tailLost := w.tailLost + 1)
    case Late(no) =>
      if no < w.sent && |w.q| < RCV_QUEUE then w.(q := w.q + [Item(Wire(no), no, 0, 0)]) else w
    case Probe => if w.q == [] then w.(rx := Empty(w.rx), since := 0) else w
    case Pump(full) =>
      if w.q == [] then w
      else
        var it := w.q[0];
        var (rx, n) := Take(w.rx, it.num);
        var ahead := it.no >= w.settled;
        w.(q := w.q[1..], rx := rx, taken := w.taken + 1, settled := if ahead then it.no + 1 else w.settled,
           dropped := w.dropped + it.dropped, lost := w.lost + it.lost, counted := w.counted + n,
           since := w.since + 1, longest := if w.since + 1 > w.longest then w.since + 1 else w.longest,
           overLost := if w.over then w.overLost + it.lost else w.overLost,
           over := (w.over && !ahead) || w.since + 1 >= RCV_QUEUE, log := w.log + [Pull(it.no, w.since + 1)],
           ringDrops := if full then w.ringDrops + 1 else w.ringDrops,
           delivered := if full then w.delivered else w.delivered + 1)
  }

  function Exec(steps: seq<Step>): World
    decreases |steps|
  {
    if steps == [] then Start() else Do(Exec(steps[..|steps| - 1]), steps[|steps| - 1])
  }

  // ---- the invariant ----

  function QueueDropped(q: seq<Item>): nat {
    if q == [] then 0 else q[0].dropped + QueueDropped(q[1..])
  }

  function QueueLost(q: seq<Item>): nat {
    if q == [] then 0 else q[0].lost + QueueLost(q[1..])
  }

  lemma {:induction false} QueueAppend(q: seq<Item>, x: Item)
    ensures QueueDropped(q + [x]) == QueueDropped(q) + x.dropped && QueueLost(q + [x]) == QueueLost(q) + x.lost
  {
    if q == [] {
      assert q + [x] == [x];
    } else {
      assert (q + [x])[1..] == q[1..] + [x];
      QueueAppend(q[1..], x);
    }
  }

  /** q continues the numbering from `from` on, each gap accounted for. */
  predicate Follows(from: nat, q: seq<Item>)
    decreases |q|
  {
    q == [] || (q[0].no == from + q[0].dropped + q[0].lost && q[0].num == Wire(q[0].no) && Follows(q[0].no + 1, q[1..]))
  }

  /** The number after the last of q. */
  function After(from: nat, q: seq<Item>): nat {
    if q == [] then from else q[|q| - 1].no + 1
  }

  lemma {:induction false} FollowsAppend(from: nat, q: seq<Item>, x: Item)
    requires Follows(from, q) && x.no == After(from, q) + x.dropped + x.lost && x.num == Wire(x.no)
    ensures Follows(from, q + [x])
    decreases |q|
  {
    hide Wire;
    if q == [] {
      assert (q + [x])[1..] == [];
    } else {
      assert (q + [x])[1..] == q[1..] + [x];
      FollowsAppend(q[0].no + 1, q[1..], x);
    }
  }

  /** The next datagram to take is less than 2^31 from the one expected. */
  predicate Near(w: World) { w.q == [] || -HALF <= w.q[0].no - w.settled < HALF }

  predicate Numbered(w: World) {
    && w.num == Wire(w.sent)
    && Follows(w.settled, w.q)
    && w.sent == After(w.settled, w.q) + w.tailDropped + w.tailLost
    && w.rx.next == Wire(w.settled)
  }

  /** When the datagram before place i is taken, the run will have reached the
      queue's size: the lag will be set. */
  predicate LagAt(w: World, i: nat) {
    if i == 0 then w.rx.lag else w.rx.run + i >= RCV_QUEUE
  }

  /** A drop of the full queue is always shown under lag. */
  predicate DropsShown(w: World) {
    && |w.q| <= RCV_QUEUE
    && (forall i :: 0 <= i < |w.q| && w.q[i].dropped > 0 ==> LagAt(w, i))
    && (w.tailDropped > 0 ==> LagAt(w, |w.q|))
  }

  predicate Ledger(w: World) {
    && w.counted == w.dropped + w.overLost && w.overLost <= w.lost
    && w.rx.run == w.since <= w.longest && w.rx.lag == w.over
    && (w.longest < RCV_QUEUE ==> w.counted == 0 && !w.over)
    && w.settled == w.taken + w.dropped + w.lost
    && w.taken == w.delivered + w.ringDrops
    && w.sent == w.settled + |w.q| + QueueDropped(w.q) + QueueLost(w.q) + w.tailDropped + w.tailLost
  }

  predicate Inv(w: World) { Numbered(w) && DropsShown(w) && Ledger(w) }

  lemma ArriveNumbered(w: World)
    requires Numbered(w)
    ensures Numbered(Do(w, Arrive))
  {
    hide Take, Wire, Inc;
    ModNext(w.sent);
    FollowsAppend(w.settled, w.q, Item(w.num, w.sent, w.tailDropped, w.tailLost));
  }

  lemma ArriveShown(w: World)
    requires DropsShown(w)
    ensures DropsShown(Do(w, Arrive))
  {
    hide Take;
  }

  lemma ArriveInv(w: World)
    requires Inv(w)
    ensures Inv(Do(w, Arrive))
  {
    hide Numbered, DropsShown, Take;
    ArriveNumbered(w);
    ArriveShown(w);
    QueueAppend(w.q, Item(w.num, w.sent, w.tailDropped, w.tailLost));
  }

  lemma LoseInv(w: World)
    requires Inv(w)
    ensures Inv(Do(w, Lose))
  {
    hide Take, Wire, Inc;
    ModNext(w.sent);
  }

  lemma ModNext(a: nat)
    ensures Inc(Wire(a)) == Wire(a + 1) && Wire(0) == 0
  {
  }

  /** The head's number shows the true gap. */
  lemma HeadGap(w: World)
    requires Numbered(w) && Near(w) && w.q != []
    ensures Gap(w.q[0].num, w.rx.next) == w.q[0].dropped + w.q[0].lost && Inc(w.q[0].num) == Wire(w.q[0].no + 1)
    ensures w.q[0].no == w.settled + w.q[0].dropped + w.q[0].lost
  {
    hide Gap, Wire, Inc;
    GapExact(w.settled, w.q[0].no);
    ModNext(w.q[0].no);
  }

  lemma PumpNumbered(w: World, full: bool)
    requires Numbered(w) && Near(w) && w.q != []
    ensures Numbered(Do(w, Pump(full)))
  {
    hide Gap, Wire, Inc;
    HeadGap(w);
  }

  lemma PumpShown(w: World, full: bool)
    requires Numbered(w) && DropsShown(w) && Near(w) && w.q != []
    ensures DropsShown(Do(w, Pump(full)))
  {
    hide Gap, Numbered, Wire, Inc;
    HeadGap(w);
    var r := Do(w, Pump(full));
    forall i | 0 <= i < |r.q| && r.q[i].dropped > 0 ensures LagAt(r, i) {
      assert r.q[i] == w.q[i + 1];
    }
  }

  lemma PumpInv(w: World, full: bool)
    requires Inv(w) && Near(w)
    ensures Inv(Do(w, Pump(full)))
  {
    hide Numbered, DropsShown, Ledger, Do;
    PumpNothing(w, full);
    if w.q != [] {
      PumpNumbered(w, full);
      PumpShown(w, full);
      PumpLedger(w, full);
    }
  }

  lemma PumpNothing(w: World, full: bool)
    ensures w.q == [] ==> Do(w, Pump(full)) == w
  {
  }

  lemma PumpLedger(w: World, full: bool)
    requires Inv(w) && Near(w) && w.q != []
    ensures Ledger(Do(w, Pump(full)))
  {
    hide Gap, Numbered, DropsShown, Wire, Inc;
    HeadGap(w);
    HeadLag(w);
    HeadNo(w);
  }

  lemma HeadLag(w: World)
    requires DropsShown(w) && w.q != []
    ensures w.q[0].dropped > 0 ==> w.rx.lag
  {
    assert LagAt(w, 0) <==> w.rx.lag;
  }

  lemma HeadNo(w: World)
    requires Numbered(w) && w.q != []
    ensures w.q[0].no == w.settled + w.q[0].dropped + w.q[0].lost
  {
  }

  ghost predicate NearThroughout(steps: seq<Step>) {
    forall k :: 0 <= k <= |steps| ==> Near(Exec(steps[..k]))
  }

  lemma ProbeInv(w: World)
    requires Inv(w)
    ensures Inv(Do(w, Probe)) && Do(w, Refuse) == w
  {
    hide Wire, Inc, Take;
  }

  /** Every step of an in-order path keeps the invariant, as long as the gaps stay below 2^31. */
  lemma StepInv(w: World, step: Step)
    requires Inv(w) && Near(w) && !step.Late?
    ensures Inv(Do(w, step))
  {
    hide Inv, Do, Near;
    match step
    case Refuse => ProbeInv(w);
    case Arrive => ArriveInv(w);
    case Lose => LoseInv(w);
    case Probe => ProbeInv(w);
    case Pump(full) => PumpInv(w, full);
  }

  lemma StartInv(w: World)
    requires w.q == [] && w.num == w.sent == w.settled == w.taken == w.delivered == w.ringDrops == 0
    requires w.tailDropped == w.tailLost == w.dropped == w.lost == w.counted == w.overLost == 0
    requires w.rx == Rx(0, 0, false) && w.since == 0 && !w.over
    ensures Inv(w)
  {
    hide Wire, Inc, Take, Do, Gap, Follows, QueueDropped, QueueLost;
    ModNext(0);
    NothingQueued(w.q);
  }

  lemma NothingQueued(q: seq<Item>)
    requires q == []
    ensures QueueDropped(q) == 0 && QueueLost(q) == 0 && forall n :: Follows(n, q) && After(n, q) == n
  {
  }

  ghost predicate InOrder(steps: seq<Step>) { forall i :: 0 <= i < |steps| ==> !steps[i].Late? }

  lemma {:induction false} RunInv(steps: seq<Step>)
    requires NearThroughout(steps) && InOrder(steps)
    ensures Inv(Exec(steps))
    decreases |steps|
  {
    hide Inv, Do, Near;
    if steps == [] {
      StartInv(Exec(steps));
    } else {
      var n := |steps| - 1;
      forall k | 0 <= k <= n ensures Near(Exec(steps[..n][..k])) {
        assert steps[..n][..k] == steps[..k];
      }
      assert steps[..n][..n] == steps[..n];
      RunInv(steps[..n]);
      StepInv(Exec(steps[..n]), steps[n]);
    }
  }

  // ---- what every run shows ----

  /** w is the world after some schedule whose distances stay below 2^31. */
  ghost predicate Reachable(w: World) {
    exists steps: seq<Step> :: NearThroughout(steps) && w == Exec(steps)
  }

  /** The same, on a path that does not reorder. */
  ghost predicate ReachableInOrder(w: World) {
    exists steps: seq<Step> :: NearThroughout(steps) && InOrder(steps) && w == Exec(steps)
  }

  /** The same, on a path without loss. */
  ghost predicate ReachableLossless(w: World) {
    exists steps: seq<Step> :: NearThroughout(steps) && InOrder(steps) && Lose !in steps && w == Exec(steps)
  }

  /** Drop inference, when datagrams arrive in order: whatever the schedule of sends, losses and the pump, the
      count is the queue's drops before the last datagram taken plus the network's
      losses among those shown during an overflow, that is right behind a datagram
      that was at least the 128th since the queue was last found empty. So without
      loss it is exact, and while no run reached 128 it is 0. */
  lemma DropInference(w: World)
    requires ReachableInOrder(w)
    ensures w.counted == w.dropped + w.overLost && w.overLost <= w.lost
    ensures w.lost == 0 ==> w.counted == w.dropped
    ensures w.longest < RCV_QUEUE ==> w.counted == 0
  {
    hide Exec;
    var steps :| NearThroughout(steps) && InOrder(steps) && w == Exec(steps);
    RunInv(steps);
  }

  lemma {:induction false} NoLoss(steps: seq<Step>)
    requires Lose !in steps
    ensures var w := Exec(steps); w.lost == 0 && w.tailLost == 0 && forall i :: 0 <= i < |w.q| ==> w.q[i].lost == 0
    decreases |steps|
  {
    if steps != [] { NoLoss(steps[..|steps| - 1]); }
  }

  lemma {:induction false} NoneLost(q: seq<Item>)
    requires forall i :: 0 <= i < |q| ==> q[i].lost == 0
    ensures QueueLost(q) == 0
  {
    if q != [] { NoneLost(q[1..]); }
  }

  /** IngressDrops, end to end: on a path without loss every datagram sent was
      delivered to the ingress queue, is counted in IngressDrops (rxSeq's count
      and the full ingress queue's), waits in quic-go's queue, or is a drop that
      the next datagram taken behind it will count; so once the queue drained
      and nothing was dropped behind its last datagram, nothing is missing. */
  lemma IngressDropsExact(w: World)
    requires ReachableLossless(w)
    ensures
            && w.sent == w.delivered + (w.counted + w.ringDrops) + |w.q| + QueueDropped(w.q) + w.tailDropped
            && (w.q == [] && w.tailDropped == 0 ==> w.sent == w.delivered + (w.counted + w.ringDrops))
  {
    hide Exec;
    var steps :| NearThroughout(steps) && InOrder(steps) && Lose !in steps && w == Exec(steps);
    RunInv(steps);
    NoLoss(steps);
    NoneLost(w.q);
  }

  // ---- any order of arrival ----

  /** One above the highest number taken. */
  function Top(log: seq<Pull>): (r: nat)
    ensures forall i :: 0 <= i < |log| ==> log[i].no < r
    ensures log != [] ==> exists i :: 0 <= i < |log| && log[i].no + 1 == r
    ensures log == [] ==> r == 0
  {
    if log == [] then 0
    else
      var t := Top(log[..|log| - 1]);
      if log[|log| - 1].no >= t then
        assert log[|log| - 1].no + 1 == log[|log| - 1].no + 1;
        log[|log| - 1].no + 1
      else t
  }

  /** The i-th datagram taken is not behind an earlier one. */
  predicate Ahead(log: seq<Pull>, i: nat)
    requires i < |log|
  {
    log[i].no >= Top(log[..i])
  }

  /** One of the datagrams taken was the 128th or later since the queue was found empty, and all since are behind. */
  ghost predicate Overflowed(log: seq<Pull>) {
    exists j :: 0 <= j < |log| && log[j].place >= RCV_QUEUE && forall i :: j < i < |log| ==> !Ahead(log, i)
  }

  /** The gaps shown during an overflow. */
  ghost function Shown(log: seq<Pull>): nat {
    if log == [] then 0
    else
      var n := |log| - 1;
      Shown(log[..n]) + if Overflowed(log[..n]) && Ahead(log, n) then log[n].no - Top(log[..n]) else 0
  }

  lemma OverflowedNext(log: seq<Pull>, x: Pull)
    ensures Overflowed(log + [x]) <==> x.place >= RCV_QUEUE || (Overflowed(log) && x.no < Top(log))
  {
    var l, n := log + [x], |log|;
    assert l[..n] == log;
    assert Ahead(l, n) <==> x.no >= Top(log);
    forall i | 0 <= i < n ensures Ahead(l, i) <==> Ahead(log, i) { assert l[..i] == log[..i]; }
    if x.place >= RCV_QUEUE { assert l[n].place >= RCV_QUEUE; }
    if Overflowed(log) && x.no < Top(log) {
      var j :| 0 <= j < |log| && log[j].place >= RCV_QUEUE && forall i :: j < i < |log| ==> !Ahead(log, i);
      assert l[j].place >= RCV_QUEUE;
    }
    if Overflowed(l) && x.place < RCV_QUEUE {
      var j :| 0 <= j < |l| && l[j].place >= RCV_QUEUE && forall i :: j < i < |l| ==> !Ahead(l, i);
      assert log[j].place >= RCV_QUEUE;
    }
  }

  /** The receiver's state is what was taken, in whatever order it arrived. */
  ghost predicate Follower(w: World) {
    && w.num == Wire(w.sent) && (forall i :: 0 <= i < |w.q| ==> w.q[i].num == Wire(w.q[i].no) && w.q[i].no < w.sent)
    && w.settled == Top(w.log) && w.rx.next == Wire(w.settled)
    && w.rx.run == w.since && w.rx.lag == w.over && (w.over <==> Overflowed(w.log))
    && w.counted == Shown(w.log) && |w.log| == w.taken == w.delivered + w.ringDrops
  }

  lemma PumpFollows(w: World, full: bool)
    requires Follower(w) && Near(w) && w.q != []
    ensures Follower(Do(w, Pump(full)))
  {
    hide Gap, Wire, Inc, Overflowed, Shown, Top;
    var it := w.q[0];
    var x := Pull(it.no, w.since + 1);
    GapExact(w.settled, it.no);
    ModNext(it.no);
    OverflowedNext(w.log, x);
    TopNext(w.log, x);
    ShownNext(w.log, x);
  }

  lemma TopNext(log: seq<Pull>, x: Pull)
    ensures Top(log + [x]) == if x.no >= Top(log) then x.no + 1 else Top(log)
  {
    assert (log + [x])[..|log|] == log;
  }

  lemma ShownNext(log: seq<Pull>, x: Pull)
    ensures Shown(log + [x]) == Shown(log) + if Overflowed(log) && x.no >= Top(log) then x.no - Top(log) else 0
  {
    hide Overflowed;
    assert (log + [x])[..|log|] == log;
  }

  lemma StepFollows(w: World, step: Step)
    requires Follower(w) && Near(w)
    ensures Follower(Do(w, step))
  {
    hide Take, Wire, Inc, Overflowed, Shown, Top;
    ModNext(w.sent);
    if step.Pump? && w.q != [] { PumpFollows(w, step.full); }
  }

  lemma StartFollows(w: World)
    requires w.q == [] && w.log == [] && w.num == w.sent == w.settled == w.taken == w.delivered == w.ringDrops == 0
    requires w.counted == 0 && w.rx == Rx(0, 0, false) && w.since == 0 && !w.over
    ensures Follower(w)
  {
    hide Wire, Inc;
    ModNext(0);
  }

  lemma {:induction false} RunFollows(steps: seq<Step>)
    requires NearThroughout(steps)
    ensures Follower(Exec(steps))
    decreases |steps|
  {
    hide Do, Near, Follower;
    if steps == [] {
      StartFollows(Exec(steps));
    } else {
      var n := |steps| - 1;
      forall k | 0 <= k <= n ensures Near(Exec(steps[..n][..k])) { assert steps[..n][..k] == steps[..k]; }
      assert steps[..n][..n] == steps[..n];
      RunFollows(steps[..n]);
      StepFollows(Exec(steps[..n]), steps[n]);
    }
  }

  /** Whatever the order of arrival: the next number expected is the one above the highest taken; lag is set exactly
      while one of the datagrams since the last in order was the 128th of its run; and the count is the sum of the
      gaps shown during an overflow, so a datagram behind adds nothing. */
  lemma AnyOrder(w: World)
    requires Reachable(w)
    ensures w.rx.next == Wire(Top(w.log)) && (w.rx.lag <==> Overflowed(w.log))
    ensures w.counted == Shown(w.log) && |w.log| == w.taken == w.delivered + w.ringDrops
  {
    hide Exec;
    var steps :| NearThroughout(steps) && w == Exec(steps);
    RunFollows(steps);
  }

  /** A datagram behind one already taken counts nothing, and leaves the number expected and any lag as they are. */
  lemma BehindCountsNothing(w: World, full: bool)
    requires Reachable(w) && Near(w) && w.q != [] && w.q[0].no < Top(w.log)
    ensures var r := Do(w, Pump(full));
            r.counted == w.counted && r.rx.next == w.rx.next && (w.rx.lag ==> r.rx.lag) && r.taken == w.taken + 1
  {
    hide Exec, Gap, Wire, Inc, Top;
    var steps :| NearThroughout(steps) && w == Exec(steps);
    RunFollows(steps);
    GapExact(w.settled, w.q[0].no);
  }

  /** The numbers on the wire: the k-th datagram accepted carries k modulo 2^32,
      whatever was refused in between. */
  lemma WireNumbers(w: World, i: nat)
    requires Reachable(w) && i < |w.q|
    ensures w.num == w.sent % WRAP && w.q[i].num == w.q[i].no % WRAP && w.q[i].no < w.sent
  {
    hide Exec, Top, Overflowed, Shown;
    var steps :| NearThroughout(steps) && w == Exec(steps);
    RunFollows(steps);
  }
}
