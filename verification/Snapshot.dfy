/** tables.go: the category counters of Status.Sessions. Every live session is
    in one category; under its shard's lock a session's change of category is
    several atomic additions, while `counts` reads the four counters one by
    one, without a lock. The read that passes its test is a snapshot: its sum
    is the number of live sessions at an instant inside it. */
module Snapshot {

  datatype Category = None | Open | Pending | Lingering | Orphaned

  /** The four counters. */
  datatype Cnt = Cnt(open: int, pending: int, lingering: int, orphaned: int)
  {
    function Sum(): int { open + pending + lingering + orphaned }

    function Add(c: Category, d: int): Cnt {
      match c
      case None => this
      case Open => this.(open := open + d)
      case Pending => this.(pending := pending + d)
      case Lingering => this.(lingering := lingering + d)
      case Orphaned => this.(orphaned := orphaned + d)
    }

    function Get(c: Category): int {
      match c
      case None => 0
      case Open => open
      case Pending => pending
      case Lingering => lingering
      case Orphaned => orphaned
    }
  }

  // ---- sessions ----

  /** How far a `move` got: announced, left the old category, entered the new one, counted as finished. */
  datatype Stage = Announced | Left | Entered | Counted

  /** Moving: its shard's lock is held by the call that moves it. */
  datatype Move = Still | Moving(old_: Category, cur: Category, stage: Stage)

  /** A table entry. */
  datatype Sess = Sess(attached: bool, pending: bool, lingering: bool, orphaned: bool, tomb: bool, move: Move)

  function Categorize(x: Sess): Category {
    if x.tomb || !x.attached then None
    else if x.pending then Pending
    else if x.lingering then Lingering
    else if x.orphaned then Orphaned
    else Open
  }

  /** The category an entry is in: a move takes effect with its first addition. */
  function CategoryOf(x: Sess): Category {
    match x.move
    case Still => Categorize(x)
    case Moving(old_, cur, stage) => if stage == Announced then old_ else cur
  }

  /** Taken out of its old counter, not yet in the new one. */
  predicate Midway(x: Sess, c: Category) { x.move.Moving? && x.move.stage == Left && x.move.cur == c }

  /** What update applies to an entry. */
  datatype Change = Opened | SetLingering(on: bool) | SetOrphaned(on: bool)

  function Changed(x: Sess, f: Change): Sess {
    match f
    case Opened => x.(pending := false)
    case SetLingering(on) => x.(lingering := on)
    case SetOrphaned(on) => x.(orphaned := on)
  }

  // ---- counting sessions ----

  /** What is counted: the entries of a category, those midway to one, those moving, the live ones. */
  datatype Query = InCat(c: Category) | MidTo(c: Category) | IsMoving | IsLive

  function Ind(b: bool): int { if b then 1 else 0 }

  function One(x: Sess, q: Query): int {
    match q
    case InCat(c) => Ind(CategoryOf(x) == c)
    case MidTo(c) => Ind(Midway(x, c))
    case IsMoving => Ind(x.move.Moving?)
    case IsLive => Ind(CategoryOf(x) != None)
  }

  function Num(ss: seq<Sess>, q: Query): int {
    if ss == [] then 0 else Num(ss[..|ss| - 1], q) + One(ss[|ss| - 1], q)
  }

  lemma {:induction false} NumUpdate(ss: seq<Sess>, i: nat, x: Sess, q: Query)
    requires i < |ss|
    ensures Num(ss[i := x], q) == Num(ss, q) - One(ss[i], q) + One(x, q)
  {
    hide One;
    var n := |ss| - 1;
    if i == n {
      assert ss[i := x][..n] == ss[..n];
    } else {
      NumUpdate(ss[..n], i, x, q);
      assert ss[i := x][..n] == ss[..n][i := x];
    }
  }

  lemma NumAppend(ss: seq<Sess>, x: Sess, q: Query)
    ensures Num(ss + [x], q) == Num(ss, q) + One(x, q)
  {
    assert (ss + [x])[..|ss|] == ss;
  }

  lemma {:induction false} NumBounds(ss: seq<Sess>, q: Query)
    ensures Num(ss, q) >= 0
    ensures forall i :: 0 <= i < |ss| && One(ss[i], q) > 0 ==> Num(ss, q) > 0
  {
    if ss != [] { NumBounds(ss[..|ss| - 1], q); }
  }

  /** A live entry is in exactly one of the four categories. */
  lemma {:induction false} LiveSplit(ss: seq<Sess>)
    ensures Num(ss, IsLive)
         == Num(ss, InCat(Open)) + Num(ss, InCat(Pending)) + Num(ss, InCat(Lingering)) + Num(ss, InCat(Orphaned))
  {
    hide CategoryOf;
    if ss != [] { LiveSplit(ss[..|ss| - 1]); }
  }

  // ---- the table and a read ----

  /** How far `counts` got. */
  datatype Pc =
    | Begin | GotMoves | GotIdle | GotOpen | GotPending | GotLingering | GotAll | SecondIdle | Validated | GaveUp

  /** A read keeps, as history, whether a move overlapped it before its last
      counter was read, the live count when it found no move in progress, every
      live count since, and when that was; time counts the steps. */
  datatype State = State(
    ss: seq<Sess>, cnt: Cnt, moving: int, moves: nat,
    pc: Pc, tries: nat, maxTries: nat, v: nat, idle: bool, got: Cnt,
    touched: bool, low: int, seen: set<int>, time: nat, began: nat)

  /** The number of live sessions. */
  function Live(s: State): int { Num(s.ss, IsLive) }

  /** maxTries is countsTries, 64 in the source. */
  function Init(maxTries: nat): State {
    State([], Cnt(0, 0, 0, 0), 0, 0, Begin, 1, maxTries, 0, false, Cnt(0, 0, 0, 0), false, 0, {}, 0, 0)
  }

  datatype Step =
    | Insert(dialer: bool)       // insertOrGet: a pending session, or a dialer's open one
    | Place                      // placeDialer: counted in no category
    | Attach(i: nat)
    | Update(i: nat, f: Change)  // update, up to move's first addition
    | End(i: nat)                // ended, up to move's first addition
    | Advance(i: nat)            // the next atomic addition of the call that moves entry i
    | Read                       // counts' next atomic operation

  /** move's first addition: nothing to do for an unchanged category. */
  function Announce(s: State, i: nat, x: Sess, old_: Category, cur: Category): State
    requires i < |s.ss|
  {
    if old_ == cur then s.(ss := s.ss[i := x])
    else s.(ss := s.ss[i := x.(move := Moving(old_, cur, Announced))], moving := s.moving + 1)
  }

  /** The entry after the next addition of its move. */
  function Advanced(x: Sess): Sess
    requires x.move.Moving?
  {
    match x.move.stage
    case Announced => x.(move := x.move.(stage := Left))
    case Left => x.(move := x.move.(stage := Entered))
    case Entered => x.(move := x.move.(stage := Counted))
    case Counted => x.(move := Still, tomb := x.tomb || x.move.cur == None)
  }

  function AdvanceMove(s: State, i: nat): State
    requires i < |s.ss| && s.ss[i].move.Moving?
  {
    var m, ss := s.ss[i].move, s.ss[i := Advanced(s.ss[i])];
    match m.stage
    case Announced => s.(ss := ss, cnt := s.cnt.Add(m.old_, -1))
    case Left => s.(ss := ss, cnt := s.cnt.Add(m.cur, 1))
    case Entered => s.(ss := ss, moves := s.moves + 1)
    case Counted => s.(ss := ss, moving := s.moving - 1)
  }

  function Retry(s: State): State {
    if s.tries == s.maxTries then s.(pc := GaveUp) else s.(pc := Begin, tries := s.tries + 1)
  }

  function ReadNext(s: State): State {
    match s.pc
    case Begin => s.(pc := GotMoves, v := s.moves, seen := {})
    case GotMoves =>
      s.(pc := GotIdle, idle := s.moving == 0, touched := false, low := Live(s), seen := {Live(s)}, began := s.time + 1)
    case GotIdle => s.(pc := GotOpen, got := s.got.(open := s.cnt.open))
    case GotOpen => s.(pc := GotPending, got := s.got.(pending := s.cnt.pending))
    case GotPending => s.(pc := GotLingering, got := s.got.(lingering := s.cnt.lingering))
    case GotLingering => s.(pc := GotAll, got := s.got.(orphaned := s.cnt.orphaned))
    case GotAll => if s.idle && s.moving == 0 then s.(pc := SecondIdle) else Retry(s)
    case SecondIdle => if s.moves == s.v then s.(pc := Validated) else Retry(s)
    case _ => s
  }

  /** Between the first test and the last counter read. */
  predicate Reading(pc: Pc) { pc == GotIdle || pc == GotOpen || pc == GotPending || pc == GotLingering || pc == GotAll }

  /** An entry whose shard's lock is free. */
  predicate Free(s: State, i: nat) { i < |s.ss| && s.ss[i].move == Still && !s.ss[i].tomb }

  function Base(s: State, step: Step): State {
    match step
    case Insert(dialer) =>
      var x := Sess(true, !dialer, false, false, false, Still);
      s.(ss := s.ss + [x], cnt := s.cnt.Add(Categorize(x), 1))
    case Place => s.(ss := s.ss + [Sess(false, false, false, false, false, Still)])
    case Attach(i) =>
      if Free(s, i) && !s.ss[i].attached then
        var x := s.ss[i].(attached := true);
        s.(ss := s.ss[i := x], cnt := s.cnt.Add(Categorize(x), 1))
      else s
    case Update(i, f) =>
      if Free(s, i) && s.ss[i].attached then
        var x := Changed(s.ss[i], f);
        Announce(s, i, x, Categorize(s.ss[i]), Categorize(x))
      else s
    case End(i) =>
      if !Free(s, i) then s
      else if Categorize(s.ss[i]) == None then s.(ss := s.ss[i := s.ss[i].(tomb := true)])
      else Announce(s, i, s.ss[i], Categorize(s.ss[i]), None)
    case Advance(i) => if i < |s.ss| && s.ss[i].move.Moving? then AdvanceMove(s, i) else s
    case Read => ReadNext(s)
  }

  /** A move of some session goes on in this step. */
  predicate Moves(s: State, r: State, step: Step) {
    (step.Update? || step.End? || step.Advance?) && step.i < |s.ss| && step.i < |r.ss|
    && r.ss[step.i].move != s.ss[step.i].move
  }

  /** A step, and the history of the read in progress. */
  function Do(s: State, step: Step): State {
    var r := Base(s, step).(time := s.time + 1);
    if step.Read? || !Reading(s.pc) then r
    else r.(touched := s.touched || Moves(s, r, step), seen := s.seen + {Live(r)})
  }

  function Exec(t: nat, steps: seq<Step>): State
    decreases |steps|
  {
    if steps == [] then Init(t) else Do(Exec(t, steps[..|steps| - 1]), steps[|steps| - 1])
  }

  // ---- the invariant ----

  /** The counters read so far, the others as they are now. */
  function Mixed(s: State): int {
    match s.pc
    case GotIdle => s.cnt.Sum()
    case GotOpen => s.got.open + s.cnt.pending + s.cnt.lingering + s.cnt.orphaned
    case GotPending => s.got.open + s.got.pending + s.cnt.lingering + s.cnt.orphaned
    case GotLingering => s.got.open + s.got.pending + s.got.lingering + s.cnt.orphaned
    case _ => s.got.Sum()
  }

  /** A move agrees with its entry. */
  predicate SessOk(x: Sess) {
    x.move.Moving? ==>
      && x.attached && !x.tomb && x.move.old_ != None && x.move.old_ != x.move.cur
      && (x.move.cur != None ==> Categorize(x) == x.move.cur)
  }

  /** Each counter is the entries of its category, less those midway to it. */
  ghost predicate Counters(s: State) {
    && s.moving == Num(s.ss, IsMoving)
    && (forall c :: c != None ==> s.cnt.Get(c) + Num(s.ss, MidTo(c)) == Num(s.ss, InCat(c)))
    && (forall i :: 0 <= i < |s.ss| ==> SessOk(s.ss[i]))
  }

  /** A move that overlapped the read shows: it is in progress or has been counted. */
  predicate Shows(s: State) {
    && (Reading(s.pc) && s.idle && s.touched ==> s.moving > 0 || s.moves > s.v)
    && (Reading(s.pc) && s.idle ==> forall i :: 0 <= i < |s.ss| && AtCounted(s.ss[i]) ==> s.moves > s.v)
    && (s.pc == SecondIdle && s.touched ==> s.moves > s.v)
    && (s.pc == Validated ==> !s.touched)
    && (s.pc != Begin ==> s.moves >= s.v || s.pc == GaveUp || s.pc == Validated)
  }

  predicate AtCounted(x: Sess) { x.move.Moving? && x.move.stage == Counted }

  /** An undisturbed read is between the live counts seen since it began. */
  predicate Bracketed(s: State) {
    && (Reading(s.pc) && s.idle && !s.touched ==>
          s.moving == 0 && s.low <= Mixed(s) <= Live(s) && forall x :: s.low <= x <= Live(s) ==> x in s.seen)
    && (s.pc == SecondIdle && !s.touched ==> s.got.Sum() in s.seen)
    && (s.pc == Validated ==> s.got.Sum() in s.seen)
    && (s.pc == SecondIdle || s.pc == Validated ==> s.idle)
  }

  ghost predicate Inv(s: State) { Counters(s) && Shows(s) && Bracketed(s) }

  // ---- the counters ----

  /** One entry becomes x; its counter follows. */
  lemma CountersUpdate(s: State, r: State, i: nat, x: Sess)
    requires Counters(s) && i < |s.ss| && SessOk(x) && r.ss == s.ss[i := x]
    requires r.moving == s.moving - One(s.ss[i], IsMoving) + One(x, IsMoving)
    requires forall c :: c != None ==>
               r.cnt.Get(c) + One(x, MidTo(c)) - One(x, InCat(c))
               == s.cnt.Get(c) + One(s.ss[i], MidTo(c)) - One(s.ss[i], InCat(c))
    ensures Counters(r) && Live(r) == Live(s) - One(s.ss[i], IsLive) + One(x, IsLive)
  {
    hide Num, One, SessOk;
    NumUpdate(s.ss, i, x, IsMoving);
    NumUpdate(s.ss, i, x, IsLive);
    forall c | c != None ensures r.cnt.Get(c) + Num(r.ss, MidTo(c)) == Num(r.ss, InCat(c)) {
      NumUpdate(s.ss, i, x, MidTo(c));
      NumUpdate(s.ss, i, x, InCat(c));
    }
  }

  lemma CountersAppend(s: State, r: State, x: Sess)
    requires Counters(s) && x.move == Still && r.ss == s.ss + [x] && r.moving == s.moving
    requires forall c :: c != None ==> r.cnt.Get(c) == s.cnt.Get(c) + One(x, InCat(c))
    ensures Counters(r) && Live(r) == Live(s) + One(x, IsLive)
  {
    hide Num;
    NumAppend(s.ss, x, IsMoving);
    NumAppend(s.ss, x, IsLive);
    forall c | c != None ensures r.cnt.Get(c) + Num(r.ss, MidTo(c)) == Num(r.ss, InCat(c)) {
      NumAppend(s.ss, x, MidTo(c));
      NumAppend(s.ss, x, InCat(c));
    }
  }

  lemma AddGet(n: Cnt, a: Category, d: int, c: Category)
    requires c != None
    ensures n.Add(a, d).Get(c) == n.Get(c) + if a == c then d else 0
    ensures n.Add(a, d).Sum() == n.Sum() + if a != None then d else 0
  {
  }

  /** When no move is in progress every counter is the entries of its category. */
  lemma AtRest(s: State)
    requires Counters(s) && s.moving == 0
    ensures forall c :: c != None ==> s.cnt.Get(c) == Num(s.ss, InCat(c))
    ensures s.cnt.Sum() == Live(s) && forall i :: 0 <= i < |s.ss| ==> s.ss[i].move == Still
  {
    hide Num;
    NumBounds(s.ss, IsMoving);
    forall i | 0 <= i < |s.ss| ensures s.ss[i].move == Still { assert One(s.ss[i], IsMoving) <= 0; }
    forall c | c != None ensures s.cnt.Get(c) == Num(s.ss, InCat(c)) { NoneMidway(s.ss, c); }
    LiveSplit(s.ss);
    assert s.cnt.Get(Open) == s.cnt.open && s.cnt.Get(Pending) == s.cnt.pending;
    assert s.cnt.Get(Lingering) == s.cnt.lingering && s.cnt.Get(Orphaned) == s.cnt.orphaned;
  }

  lemma {:induction false} NoneMidway(ss: seq<Sess>, c: Category)
    requires forall i :: 0 <= i < |ss| ==> ss[i].move == Still
    ensures Num(ss, MidTo(c)) == 0
  {
    if ss != [] { NoneMidway(ss[..|ss| - 1], c); }
  }

  // ---- steps that move no session ----

  /** The same moves, and at most one counter and one live session more. */
  predicate Grows(s: State, r: State, c: Category) {
    && r.moving == s.moving && r.moves == s.moves && |s.ss| <= |r.ss|
    && (forall i :: 0 <= i < |s.ss| ==> r.ss[i].move == s.ss[i].move)
    && (forall i :: |s.ss| <= i < |r.ss| ==> r.ss[i].move == Still)
    && Live(s) <= Live(r) <= Live(s) + 1 && r.cnt == s.cnt.Add(c, Live(r) - Live(s))
    && r.pc == s.pc && r.tries == s.tries && r.v == s.v && r.idle == s.idle && r.got == s.got && r.low == s.low
  }

  lemma GrowsKeeps(s: State, r: State, c: Category)
    requires Shows(s) && Bracketed(s) && Grows(s, r, c) && r.touched == s.touched
    requires r.seen == if Reading(s.pc) then s.seen + {Live(r)} else s.seen
    ensures Shows(r) && Bracketed(r)
  {
    hide Num, Mixed;
    GrowsMixed(s, r, c);
    if Reading(r.pc) && r.idle && !r.touched {
      forall x | r.low <= x <= Live(r) ensures x in r.seen {
        if x != Live(r) { assert x in s.seen; }
      }
    }
  }

  lemma GrowsMixed(s: State, r: State, c: Category)
    requires r.cnt == s.cnt.Add(c, Live(r) - Live(s)) && r.pc == s.pc && r.got == s.got && Live(s) <= Live(r)
    ensures Mixed(s) <= Mixed(r) <= Mixed(s) + (Live(r) - Live(s))
  {
    hide Num;
  }

  lemma InsertInv(s: State, dialer: bool)
    requires Inv(s)
    ensures Inv(Do(s, Insert(dialer)))
  {
    hide Num, Shows, Bracketed, Mixed;
    var r := Do(s, Insert(dialer));
    var x := Sess(true, !dialer, false, false, false, Still);
    forall c | c != None ensures r.cnt.Get(c) == s.cnt.Get(c) + One(x, InCat(c)) { AddGet(s.cnt, Categorize(x), 1, c); }
    CountersAppend(s, r, x);
    assert r.cnt == s.cnt.Add(Categorize(x), Live(r) - Live(s));
    GrowsKeeps(s, r, Categorize(x));
  }

  lemma PlaceInv(s: State)
    requires Inv(s)
    ensures Inv(Do(s, Place))
  {
    hide Num, Shows, Bracketed, Mixed;
    var r := Do(s, Place);
    var x := Sess(false, false, false, false, false, Still);
    CountersAppend(s, r, x);
    assert r.cnt == s.cnt.Add(None, Live(r) - Live(s));
    GrowsKeeps(s, r, None);
  }

  lemma AttachInv(s: State, i: nat)
    requires Inv(s)
    ensures Inv(Do(s, Attach(i)))
  {
    hide Num, Shows, Bracketed, Mixed;
    var r := Do(s, Attach(i));
    if Free(s, i) && !s.ss[i].attached {
      var x := s.ss[i].(attached := true);
      forall c | c != None ensures r.cnt.Get(c) == s.cnt.Get(c) + One(x, InCat(c)) {
        AddGet(s.cnt, Categorize(x), 1, c);
      }
      CountersUpdate(s, r, i, x);
      assert r.cnt == s.cnt.Add(Categorize(x), Live(r) - Live(s));
      GrowsKeeps(s, r, Categorize(x));
    } else {
      IdleInv(s, Attach(i));
    }
  }

  /** A step that does nothing but pass. */
  lemma IdleInv(s: State, step: Step)
    requires Inv(s) && !step.Read? && Base(s, step) == s
    ensures Inv(Do(s, step))
  {
    hide Num, Shows, Bracketed, Mixed;
    var r := Do(s, step);
    SameCounters(s, r);
    assert r.cnt == s.cnt.Add(None, 0);
    GrowsKeeps(s, r, None);
  }

  lemma SameCounters(s: State, r: State)
    requires Counters(s) && r.ss == s.ss && r.cnt == s.cnt && r.moving == s.moving
    ensures Counters(r) && Live(r) == Live(s)
  {
  }

  // ---- moves ----

  /** The read's history through a step of a move. */
  lemma TouchedKeeps(s: State, r: State)
    requires Inv(s) && Counters(r) && r.moves >= s.moves && (r.moving > 0 || r.moves > s.v || !s.idle || !Reading(s.pc))
    requires r.pc == s.pc && r.v == s.v && r.idle == s.idle && r.got == s.got
    requires Reading(s.pc) ==> r.touched
    requires !Reading(s.pc) ==> r.touched == s.touched && r.seen == s.seen
    requires forall i :: 0 <= i < |r.ss| && AtCounted(r.ss[i]) ==>
               (i < |s.ss| && AtCounted(s.ss[i])) || r.moves > s.moves
    ensures Shows(r) && Bracketed(r)
  {
    hide Num, Counters, Mixed;
  }

  lemma MovingNow(s: State, i: nat)
    requires Counters(s) && i < |s.ss| && s.ss[i].move.Moving?
    ensures s.moving > 0
  {
    hide Num;
    NumBounds(s.ss, IsMoving);
    assert One(s.ss[i], IsMoving) > 0;
  }

  /** update and ended, up to move's first addition. */
  lemma AnnounceInv(s: State, r: State, i: nat, x: Sess, cur: Category)
    requires Inv(s) && Free(s, i) && s.ss[i].attached && x.move == Still && x.attached && !x.tomb
    requires Categorize(x) == cur || (cur == None && x == s.ss[i])
    requires var m := Announce(s, i, x, Categorize(s.ss[i]), cur).(time := s.time + 1);
             r == if Reading(s.pc)
                  then m.(touched := s.touched || Categorize(s.ss[i]) != cur, seen := s.seen + {Live(m)}) else m
    ensures Inv(r)
  {
    hide Num, Shows, Bracketed, Mixed;
    var old_ := Categorize(s.ss[i]);
    if old_ == cur {
      CountersUpdate(s, r, i, x);
      assert r.cnt == s.cnt.Add(None, Live(r) - Live(s));
      GrowsKeeps(s, r, None);
    } else {
      var y := x.(move := Moving(old_, cur, Announced));
      assert Categorize(y) == Categorize(x);
      CountersUpdate(s, r, i, y);
      MovingNow(r, i);
      TouchedKeeps(s, r);
    }
  }

  lemma UpdateInv(s: State, i: nat, f: Change)
    requires Inv(s)
    ensures Inv(Do(s, Update(i, f)))
  {
    hide Inv, Num, Categorize;
    if Free(s, i) && s.ss[i].attached {
      AnnounceInv(s, Do(s, Update(i, f)), i, Changed(s.ss[i], f), Categorize(Changed(s.ss[i], f)));
    } else {
      IdleInv(s, Update(i, f));
    }
  }

  lemma EndInv(s: State, i: nat)
    requires Inv(s)
    ensures Inv(Do(s, End(i)))
  {
    hide Num, Shows, Bracketed, Mixed;
    var r := Do(s, End(i));
    if !Free(s, i) {
      IdleInv(s, End(i));
    } else if Categorize(s.ss[i]) == None {
      CountersUpdate(s, r, i, s.ss[i].(tomb := true));
      assert r.cnt == s.cnt.Add(None, Live(r) - Live(s));
      GrowsKeeps(s, r, None);
    } else {
      AnnounceInv(s, r, i, s.ss[i], None);
    }
  }

  lemma AdvanceInv(s: State, i: nat)
    requires Inv(s)
    ensures Inv(Do(s, Advance(i)))
  {
    hide Num, Shows, Bracketed, Mixed, AdvanceMove;
    if i < |s.ss| && s.ss[i].move.Moving? {
      var r := Do(s, Advance(i));
      AdvanceCounters(s, i);
      SameCounters(AdvanceMove(s, i), r);
      AdvanceTouches(s, i);
      TouchedKeeps(s, r);
    } else {
      IdleInv(s, Advance(i));
    }
  }

  lemma AdvanceCounters(s: State, i: nat)
    requires Counters(s) && i < |s.ss| && s.ss[i].move.Moving?
    ensures Counters(AdvanceMove(s, i))
  {
    hide Num, One, Advanced, SessOk;
    var r, x, m := AdvanceMove(s, i), s.ss[i], s.ss[i].move;
    AdvancedEntry(x, Open);
    forall c | c != None
      ensures r.cnt.Get(c) + One(r.ss[i], MidTo(c)) - One(r.ss[i], InCat(c))
           == s.cnt.Get(c) + One(x, MidTo(c)) - One(x, InCat(c))
    {
      AdvancedEntry(x, c);
      AddGet(s.cnt, m.old_, -1, c);
      AddGet(s.cnt, m.cur, 1, c);
    }
    CountersUpdate(s, r, i, r.ss[i]);
  }

  /** One addition of a move, seen from one category. */
  lemma AdvancedEntry(x: Sess, c: Category)
    requires x.move.Moving? && SessOk(x) && c != None
    ensures var y, m := Advanced(x), x.move;
            && SessOk(y) && One(y, IsMoving) == One(x, IsMoving) - Ind(m.stage == Counted)
            && One(y, MidTo(c)) - One(y, InCat(c))
               == One(x, MidTo(c)) - One(x, InCat(c))
                  + Ind(m.stage == Announced && m.old_ == c) - Ind(m.stage == Left && m.cur == c)
  {
  }

  /** A read that a move overlaps sees it in progress or counted. */
  lemma AdvanceTouches(s: State, i: nat)
    requires Inv(s) && i < |s.ss| && s.ss[i].move.Moving? && Counters(AdvanceMove(s, i))
    ensures var r := AdvanceMove(s, i);
            && r.moves >= s.moves && r.ss[i].move != s.ss[i].move && |r.ss| == |s.ss|
            && r.pc == s.pc && r.v == s.v && r.idle == s.idle && r.got == s.got && r.touched == s.touched
            && r.seen == s.seen
            && (r.moving > 0 || r.moves > s.v || !s.idle || !Reading(s.pc))
            && (forall j :: 0 <= j < |r.ss| && AtCounted(r.ss[j]) ==> AtCounted(s.ss[j]) || r.moves > s.moves)
  {
    hide Num, Mixed, Bracketed;
    var r := AdvanceMove(s, i);
    if s.ss[i].move.stage != Counted {
      MovingNow(r, i);
    } else {
      assert AtCounted(s.ss[i]);
    }
  }

  // ---- the read ----

  lemma ReadCounters(s: State)
    requires Inv(s)
    ensures Counters(Do(s, Read)) && Live(Do(s, Read)) == Live(s)
  {
    hide Num, Shows, Bracketed, Mixed;
    SameCounters(s, Do(s, Read));
  }

  lemma ReadShows(s: State)
    requires Inv(s)
    ensures Shows(Do(s, Read))
  {
    hide Num, Mixed, Bracketed;
    if s.moving == 0 { AtRest(s); }
  }

  lemma ReadBracketed(s: State)
    requires Inv(s)
    ensures Bracketed(Do(s, Read))
  {
    hide Counters, Do, Shows, Live, ReadNext;
    ReadCounters(s);
    DoRead(s);
    if s.pc == GotMoves { StartsBracketed(s); } else { GoesOnBracketed(s); }
    SameBracketed(ReadNext(s), Do(s, Read));
  }

  lemma SameBracketed(s: State, r: State)
    requires Bracketed(s) && r == s.(time := r.time)
    ensures Bracketed(r)
  {
    hide Num;
  }

  lemma StartsBracketed(s: State)
    requires Counters(s) && s.pc == GotMoves
    ensures Bracketed(ReadNext(s))
  {
    hide Live, Counters;
    var r := ReadNext(s);
    LiveSame(s, r);
    if s.moving == 0 {
      RestSum(s);
      assert r.low == Mixed(r) == Live(r) && r.seen == {Live(r)};
    }
  }

  lemma RestSum(s: State)
    requires Counters(s) && s.moving == 0
    ensures s.cnt.Sum() == Live(s)
  {
    hide Num, Counters;
    AtRest(s);
  }

  lemma LiveSame(s: State, r: State)
    requires r.ss == s.ss
    ensures Live(r) == Live(s)
  {
  }

  lemma GoesOnBracketed(s: State)
    requires Inv(s) && s.pc != GotMoves
    ensures Bracketed(ReadNext(s))
  {
    hide Num, Counters;
  }

  lemma DoRead(s: State)
    ensures Do(s, Read) == ReadNext(s).(time := s.time + 1)
  {
    hide ReadNext, Num;
  }

  // ---- every run ----

  lemma StepInv(s: State, step: Step)
    requires Inv(s)
    ensures Inv(Do(s, step))
  {
    hide Do, Counters, Shows, Bracketed;
    match step
    case Insert(dialer) => InsertInv(s, dialer);
    case Place => PlaceInv(s);
    case Attach(i) => AttachInv(s, i);
    case Update(i, f) => UpdateInv(s, i, f);
    case End(i) => EndInv(s, i);
    case Advance(i) => AdvanceInv(s, i);
    case Read => ReadCounters(s); ReadShows(s); ReadBracketed(s);
  }

  lemma {:induction false} RunInv(t: nat, steps: seq<Step>)
    ensures Inv(Exec(t, steps))
    decreases |steps|
  {
    hide Inv, Do;
    if steps == [] {
      StartInv(Init(t));
    } else {
      RunInv(t, steps[..|steps| - 1]);
      StepInv(Exec(t, steps[..|steps| - 1]), steps[|steps| - 1]);
    }
  }

  lemma StartInv(s: State)
    requires |s.ss| == 0 && s.cnt == Cnt(0, 0, 0, 0) && s.moving == 0 && s.pc == Begin
    ensures Inv(s)
  {
    assert s.ss == [];
  }

  // ---- what every run shows ----

  /** What a read saw were live counts of instants inside it. */
  lemma {:induction false} SeenIsLive(t: nat, steps: seq<Step>, x: int)
    requires x in Exec(t, steps).seen
    ensures exists k :: Exec(t, steps).began <= k <= |steps| && Live(Exec(t, steps[..k])) == x
    decreases |steps|
  {
    var n := |steps| - 1;
    if steps != [] {
      Times(t, steps);
      Times(t, steps[..n]);
      var s, r := Exec(t, steps[..n]), Exec(t, steps);
      assert steps[..|steps|] == steps;
      if x == Live(r) {
        assert Live(Exec(t, steps[..|steps|])) == x;
      } else {
        SeenGrows(s, steps[n], x);
        SeenIsLive(t, steps[..n], x);
        var k :| s.began <= k <= n && Live(Exec(t, steps[..n][..k])) == x;
        assert steps[..n][..k] == steps[..k];
      }
    }
  }

  lemma {:induction false} Times(t: nat, steps: seq<Step>)
    ensures Exec(t, steps).time == |steps| && Exec(t, steps).began <= |steps|
    decreases |steps|
  {
    hide Do;
    if steps != [] {
      Times(t, steps[..|steps| - 1]);
      TimeStep(Exec(t, steps[..|steps| - 1]), steps[|steps| - 1]);
    }
  }

  lemma TimeStep(s: State, step: Step)
    ensures Do(s, step).time == s.time + 1 && (Do(s, step).began == s.time + 1 || Do(s, step).began == s.began)
  {
  }

  lemma SeenGrows(s: State, step: Step, x: int)
    requires x in Do(s, step).seen && x != Live(Do(s, step))
    ensures x in s.seen && Do(s, step).began == s.began
  {
    hide Num, Base;
    if step.Read? { ReadHistory(s); } else { BaseHistory(s, step); }
  }

  lemma BaseHistory(s: State, step: Step)
    requires !step.Read?
    ensures Base(s, step).seen == s.seen && Base(s, step).began == s.began
  {
    hide Categorize, Changed, Cnt.Add;
  }

  lemma ReadHistory(s: State)
    ensures var r := Base(s, Read);
            Live(r) == Live(s) && (r.seen <= {Live(s)} || (r.seen == s.seen && r.began == s.began))
  {
    hide Num;
  }

  /** s is the state after these steps. */
  ghost predicate After(t: nat, steps: seq<Step>, s: State) { s == Exec(t, steps) }

  /** The live sessions after the first k steps. */
  function LiveAt(t: nat, steps: seq<Step>, k: nat): int
    requires k <= |steps|
  {
    Live(Exec(t, steps[..k]))
  }

  /** The category snapshot: a read that passes its test returns counters whose
      sum is the number of live sessions at an instant after it first found no
      move in progress and before it returned. */
  lemma CountsAreASnapshot(t: nat, steps: seq<Step>, s: State)
    requires After(t, steps, s) && s.pc == Validated
    ensures exists k :: s.began <= k <= |steps| && LiveAt(t, steps, k) == s.got.Sum()
  {
    hide Exec;
    RunInv(t, steps);
    SeenIsLive(t, steps, s.got.Sum());
    var k :| s.began <= k <= |steps| && Live(Exec(t, steps[..k])) == s.got.Sum();
    assert LiveAt(t, steps, k) == s.got.Sum();
  }

  /** Each counter is the sessions of its category less those midway to it; so whenever no move is in progress it is
      exactly those sessions, and the four add up to the live ones. */
  lemma CountersAddUp(t: nat, steps: seq<Step>, s: State)
    requires After(t, steps, s)
    ensures forall c :: c != None ==> s.cnt.Get(c) + Num(s.ss, MidTo(c)) == Num(s.ss, InCat(c))
    ensures s.moving == Num(s.ss, IsMoving)
    ensures s.moving == 0 ==> (forall c :: c != None ==> s.cnt.Get(c) == Num(s.ss, InCat(c))) && s.cnt.Sum() == Live(s)
  {
    hide Exec, Num;
    RunInv(t, steps);
    if s.moving == 0 { AtRest(s); }
  }
}
