/** rendrtest/dpump.go and dlink.go: the fake datagram link as a value and the
    operations that change it. Arrival times, draws and the match of armed
    drops are inputs of the steps. */
module DgramLink {
  import opened DgramHeap

  /** The counters of the accounting law, of one class. */
  datatype Counts = Counts(sent: nat, duplicated: nat, injected: nat, delivered: nat, truncated: nat, lost: nat)

  datatype Ctr = Sent | Duplicated | Injected | Delivered | Truncated | Lost

  function Add(c: Counts, w: Ctr): Counts {
    match w
    case Sent => c.(sent := c.sent + 1)
    case Duplicated => c.(duplicated := c.duplicated + 1)
    case Injected => c.(injected := c.injected + 1)
    case Delivered => c.(delivered := c.delivered + 1)
    case Truncated => c.(truncated := c.truncated + 1)
    case Lost => c.(lost := c.lost + 1)
  }

  // ---- the history of the copies ----

  /** How a copy came: from which socket, in which class, and whether written, duplicated or injected. */
  datatype Birth = Birth(from: nat, cls: Kind, how: Ctr)

  /** Why the link dropped a copy. */
  datatype Why =
    | TooLong      // above the MTU, silently
    | NoRoute      // to an address no conn has
    | Black        // written into a blackhole
    | Dropped      // by a draw or an armed DropNext
    | NoRoom       // the direction's queue was full
    | DeadEnd      // launched at an ended socket
    | Cut          // in the link when its socket ended
    | Swept        // in flight or held when a blackhole began

  datatype End = ReadAt(e: nat, whole: bool) | LostTo(why: Why)

  /** How copy id left the link. */
  datatype Event = Event(id: nat, cls: Kind, end: End)

  function CtrOf(end: End): Ctr {
    match end
    case ReadAt(_, whole) => if whole then Delivered else Truncated
    case LostTo(_) => Lost
  }

  // ---- the link ----

  datatype Ep = Ep(rx: Dir, ended: bool, inFlight: seq<Dgram>, ready: seq<Dgram>)

  datatype Path = Path(blackhole: bool, stalled: bool, stallAt: int, held: seq<Dgram>)

  /** Carrier c has the dialer's end eps[2c], which receives down, and the passive's eps[2c+1]; kinds[c] is its class.
      all, session and probe are the counters; up and down, q0 and q1 the two directions and their queue counters;
      born and log are history: the copies made, by their number, and those that left. */
  datatype Link = Link(
    queue: nat, refuse: bool, eps: seq<Ep>, kinds: seq<Kind>, up: Path, down: Path, q0: int, q1: int,
    all: Counts, session: Counts, probe: Counts, tick: nat, born: seq<Birth>, log: seq<Event>)

  function PathOf(n: Link, d: Dir): Path { if d == 0 then n.up else n.down }

  function WithPath(n: Link, d: Dir, p: Path): Link { if d == 0 then n.(up := p) else n.(down := p) }

  function QueueOf(n: Link, d: Dir): int { if d == 0 then n.q0 else n.q1 }

  function Bump(n: Link, d: Dir, v: int): Link { if d == 0 then n.(q0 := n.q0 + v) else n.(q1 := n.q1 + v) }

  function Count(n: Link, cls: Kind, w: Ctr): Link {
    n.(all := Add(n.all, w),
       session := if cls == Session then Add(n.session, w) else n.session,
       probe := if cls == Probe then Add(n.probe, w) else n.probe)
  }

  /** The other socket of a carrier. */
  function Peer(e: nat): nat { if e % 2 == 0 then e + 1 else e - 1 }

  /** A new copy, number |born|, is counted in. */
  function Bear(n: Link, from: nat, cls: Kind, how: Ctr): Link {
    Count(n, cls, how).(born := n.born + [Birth(from, cls, how)])
  }

  /** A copy is counted out. */
  function Leave(n: Link, id: nat, cls: Kind, end: End): Link {
    Count(n, cls, CtrOf(end)).(log := n.log + [Event(id, cls, end)])
  }

  function Lose(n: Link, d: Dgram, why: Why): Link { Bump(Leave(n, d.id, d.cls, LostTo(why)), d.dir, -1) }

  function LoseAll(n: Link, s: seq<Dgram>, why: Why): Link
    decreases |s|
  {
    if s == [] then n else LoseAll(Lose(n, s[0], why), s[1..], why)
  }

  // ---- operations ----

  function Launch(n: Link, d: Dgram, due: int): Link {
    if d.dst >= |n.eps| || n.eps[d.dst].ended then Lose(n, d, DeadEnd)
    else
      var e := n.eps[d.dst];
      n.(tick := n.tick + 1,
         eps := n.eps[d.dst := e.(inFlight := PushIn(e.inFlight, d.(due := due, seqno := n.tick + 1)))])
  }

  /** The part of transmit that a datagram and its duplicate share: it takes its place in the queue, and is held or
      launched. */
  function Enter(n: Link, d: Dgram, due: int): Link {
    var n1 := Bump(n, d.dir, 1);
    var p := PathOf(n1, d.dir);
    if p.stalled then WithPath(n1, d.dir, p.(held := p.held + [d])) else Launch(n1, d, due)
  }

  /** What chance and the armed controls decide about one datagram. */
  datatype Fate = Fate(dropped: bool, dup: bool, due: int, dupDue: int)

  /** transmit; the copies get the numbers next in turn. */
  function Transmit(n: Link, d: Dgram, f: Fate): Link {
    var id, from := |n.born|, Peer(d.dst);
    var n1 := Bear(n, from, d.cls, Sent);
    if PathOf(n, d.dir).blackhole then Leave(n1, id, d.cls, LostTo(Black))
    else if f.dropped then Leave(n1, id, d.cls, LostTo(Dropped))
    else if QueueOf(n1, d.dir) >= n.queue then Leave(n1, id, d.cls, LostTo(NoRoom))
    else
      var n2 := Enter(n1, d.(id := id), f.due);
      if !f.dup || QueueOf(n2, d.dir) >= n.queue then n2
      else Enter(Bear(n2, from, d.cls, Duplicated), d.(id := |n2.born|), f.dupDue)
  }

  /** classified: what the dialer's first datagram makes of its carrier. */
  datatype WriteArgs = WriteArgs(routed: bool, oversize: bool, classified: Kind, fate: Fate)

  function Write(n: Link, e: nat, w: WriteArgs): Link {
    if e >= |n.eps| || n.eps[e].ended || e / 2 >= |n.kinds| then n
    else
      var c := e / 2;
      var n1 := if e % 2 == 0 && n.kinds[c] == Unknown then n.(kinds := n.kinds[c := w.classified]) else n;
      var cls := n1.kinds[c];
      if w.oversize && n.refuse then n1
      else if w.oversize || !w.routed then
        Leave(Bear(n1, e, cls, Sent), |n1.born|, cls, LostTo(if w.oversize then TooLong else NoRoute))
      else Transmit(n1, Dgram(0, 0, cls, e % 2, Peer(e), 0), w.fate)
  }

  function Promoted(n: Link, e: nat, now: int): Link
    requires e < |n.eps|
  {
    var p := PathOf(n, n.eps[e].rx);
    var (rest, moved) := Promote(n.eps[e].inFlight, now, p.stalled, p.stallAt);
    n.(eps := n.eps[e := n.eps[e].(inFlight := rest, ready := n.eps[e].ready + moved)])
  }

  /** ReadFrom, once: the arrived datagram it hands over, truncated or whole. */
  function Read(n: Link, e: nat, now: int, truncated: bool): Link {
    if e >= |n.eps| || n.eps[e].ended then n
    else
      var n1 := Promoted(n, e, now);
      var ep := n1.eps[e];
      if ep.ready == [] then n1
      else
        var d := ep.ready[0];
        Leave(Bump(n1.(eps := n1.eps[e := ep.(ready := ep.ready[1..])]), d.dir, -1), d.id, d.cls, ReadAt(e, !truncated))
  }

  function Inject(n: Link, c: nat, d: Dir, now: int): Link {
    var dst := 2 * c + 1 - d;
    if c >= |n.kinds| || dst >= |n.eps| || n.eps[dst].ended then n
    else
      var cls := n.kinds[c];
      var n1 := Bear(n, 2 * c + d, cls, Injected);
      if QueueOf(n1, d) >= n.queue then Leave(n1, |n.born|, cls, LostTo(NoRoom))
      else
        var n2 := Promoted(Bump(n1, d, 1), dst, now);
        var ep := n2.eps[dst];
        var dg := Dgram(now, n2.tick + 1, cls, d, dst, |n.born|);
        n2.(tick := n2.tick + 1, eps := n2.eps[dst := ep.(ready := ep.ready + [dg])])
  }

  /** The datagrams of s addressed to e, and the others. */
  function Addressed(s: seq<Dgram>, e: nat, yes: bool): seq<Dgram>
    decreases |s|
  {
    if s == [] then [] else (if (s[0].dst == e) == yes then [s[0]] else []) + Addressed(s[1..], e, yes)
  }

  function PurgeHeld(n: Link, d: Dir, e: nat): Link {
    var p := PathOf(n, d);
    WithPath(LoseAll(n, Addressed(p.held, e, true), Cut), d, p.(held := Addressed(p.held, e, false)))
  }

  /** shut: Close or Kill of one end; only the first does anything. */
  function Shut(n: Link, e: nat): Link {
    if e >= |n.eps| || n.eps[e].ended then n
    else
      var ep := n.eps[e];
      var n1 := LoseAll(LoseAll(n.(eps := n.eps[e := ep.(ended := true)]), ep.inFlight, Cut), ep.ready, Cut);
      var n2 := n1.(eps := n.eps[e := ep.(ended := true, inFlight := [], ready := [])]);
      PurgeHeld(PurgeHeld(n2, 0, e), 1, e)
  }

  /** kill, over the ends from e on. */
  function KillFrom(n: Link, e: nat): Link
    decreases |n.eps| - e
  {
    if e >= |n.eps| then n else ShutEps(n, e); KillFrom(Shut(n, e), e + 1)
  }

  lemma {:induction false} LoseAllKeeps(n: Link, s: seq<Dgram>, why: Why)
    ensures var r := LoseAll(n, s, why);
            r == n.(q0 := r.q0, q1 := r.q1, all := r.all, session := r.session, probe := r.probe, log := r.log)
    decreases |s|
  {
    if s != [] { LoseAllKeeps(Lose(n, s[0], why), s[1..], why); }
  }

  lemma ShutEps(n: Link, e: nat)
    ensures |Shut(n, e).eps| == |n.eps|
  {
    hide LoseAll, Addressed;
    if e < |n.eps| && !n.eps[e].ended {
      var ep := n.eps[e];
      var m := n.(eps := n.eps[e := ep.(ended := true)]);
      LoseAllKeeps(m, ep.inFlight, Cut);
      LoseAllKeeps(LoseAll(m, ep.inFlight, Cut), ep.ready, Cut);
      var n1 := LoseAll(LoseAll(m, ep.inFlight, Cut), ep.ready, Cut);
      var n2 := n1.(eps := n.eps[e := ep.(ended := true, inFlight := [], ready := [])]);
      LoseAllKeeps(n2, Addressed(PathOf(n2, 0).held, e, true), Cut);
      var n3 := PurgeHeld(n2, 0, e);
      LoseAllKeeps(n3, Addressed(PathOf(n3, 1).held, e, true), Cut);
    }
  }

  /** setBlackhole's loop over the sockets, from e on: what arrived stays, what is in flight is lost. */
  function DrainFrom(n: Link, d: Dir, e: nat, now: int): Link
    decreases |n.eps| - e
  {
    if e >= |n.eps| then n
    else DrainOneEps(n, d, e, now); DrainFrom(DrainOne(n, d, e, now), d, e + 1, now)
  }

  function DrainOne(n: Link, d: Dir, e: nat, now: int): Link
    requires e < |n.eps|
  {
    if n.eps[e].rx != d then n
    else
      var n1 := Promoted(n, e, now);
      LoseAll(n1, n1.eps[e].inFlight, Swept).(eps := n1.eps[e := n1.eps[e].(inFlight := [])])
  }

  lemma DrainOneEps(n: Link, d: Dir, e: nat, now: int)
    requires e < |n.eps|
    ensures |DrainOne(n, d, e, now).eps| == |n.eps|
  {
  }

  function SetBlackhole(n: Link, d: Dir, on: bool, now: int): Link {
    var n1 := WithPath(n, d, PathOf(n, d).(blackhole := on));
    if !on then n1
    else
      var n2 := DrainFrom(n1, d, 0, now);
      var p := PathOf(n2, d);
      WithPath(LoseAll(n2, p.held, Swept), d, p.(held := []))
  }

  /** The release of a stall: what was held is launched, each with its own arrival time. */
  function LaunchAll(n: Link, s: seq<Dgram>, dues: seq<int>): Link
    decreases |s|
  {
    if s == [] then n
    else
      LaunchAll(Launch(n, s[0], if dues == [] then 0 else dues[0]), s[1..], if dues == [] then [] else dues[1..])
  }

  function SetStall(n: Link, d: Dir, on: bool, now: int, dues: seq<int>): Link {
    var p := PathOf(n, d);
    if on then (if p.stalled then n else WithPath(n, d, p.(stalled := true, stallAt := now)))
    else if !p.stalled then n
    else LaunchAll(WithPath(n, d, p.(stalled := false, held := [])), p.held, dues)
  }

  function Dial(n: Link): Link {
    n.(eps := n.eps + [Ep(1, false, [], []), Ep(0, false, [], [])], kinds := n.kinds + [Unknown])
  }

  datatype Step =
    | DialStep | WriteStep(e: nat, w: WriteArgs) | ReadStep(e: nat, now: int, truncated: bool)
    | InjectStep(c: nat, d: Dir, now: int) | ShutStep(e: nat) | KillStep | SetMode(refuse: bool)
    | BlackholeStep(d: Dir, on: bool, now: int) | StallStep(d: Dir, on: bool, now: int, dues: seq<int>)

  function Do(n: Link, step: Step): Link {
    match step
    case DialStep => Dial(n)
    case WriteStep(e, w) => Write(n, e, w)
    case ReadStep(e, now, t) => Read(n, e, now, t)
    case InjectStep(c, d, now) => Inject(n, c, d, now)
    case ShutStep(e) => Shut(n, e)
    case KillStep => KillFrom(n, 0)
    case SetMode(r) => n.(refuse := r)
    case BlackholeStep(d, on, now) => SetBlackhole(n, d, on, now)
    case StallStep(d, on, now, dues) => SetStall(n, d, on, now, dues)
  }

  function Exec(n: Link, steps: seq<Step>): Link {
    if steps == [] then n else Do(Exec(n, steps[..|steps| - 1]), steps[|steps| - 1])
  }

  function ZeroCounts(z: nat): Counts { Counts(z, z, z, z, z, z) }

  predicate Fresh(n: Link) {
    && n.eps == [] && n.kinds == [] && n.up.held == [] && n.down.held == [] && n.q0 == 0 && n.q1 == 0
    && n.all == n.session == n.probe == ZeroCounts(0) && n.born == [] && n.log == []
  }
}
