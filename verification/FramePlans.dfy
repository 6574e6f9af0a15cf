/** rendrtest/tracker.go, `match`: which frame an armed operation fires at. Per
    type the drops take the first frames; the others, in the order they were
    armed, take one undropped frame each; what finds no frame stays armed. And
    what a stream of frames becomes when the operations fire so. */
module FramePlans {
  import opened Bytes
  import opened FrameTracker
  import opened FrameRelay

  // ---- operations by type ----

  /** Those of s for type t, in order. */
  function Only<T>(s: seq<T>, key: T -> Byte, t: Byte): seq<T> {
    if s == [] then [] else (if key(s[0]) == t then [s[0]] else []) + Only(s[1..], key, t)
  }

  function Self(b: Byte): Byte { b }

  function Target(c: CorruptOp): Byte { c.t }

  function Mark(i: Injection): Byte { i.after }

  /** Without the first k. */
  function Past<T>(s: seq<T>, k: nat): seq<T> { if k <= |s| then s[k..] else [] }

  function Count(s: seq<Byte>, t: Byte): nat {
    if s == [] then 0 else Count(s[..|s| - 1], t) + if s[|s| - 1] == t then 1 else 0
  }

  lemma {:induction false} OnlyAppend<T>(a: seq<T>, b: seq<T>, key: T -> Byte, t: Byte)
    ensures Only(a + b, key, t) == Only(a, key, t) + Only(b, key, t)
    decreases |a|
  {
    if a == [] {
      assert a + b == b;
    } else {
      var x, y, z := if key(a[0]) == t then [a[0]] else [], Only(a[1..], key, t), Only(b, key, t);
      assert (a + b)[0] == a[0] && (a + b)[1..] == a[1..] + b;
      OnlyAppend(a[1..], b, key, t);
      assert x + (y + z) == (x + y) + z;
    }
  }

  lemma {:induction false} OnlyNone<T>(s: seq<T>, key: T -> Byte, t: Byte)
    requires forall i :: 0 <= i < |s| ==> key(s[i]) != t
    ensures Only(s, key, t) == []
  {
    if s != [] { OnlyNone(s[1..], key, t); }
  }

  lemma {:induction false} OnlyOf<T>(s: seq<T>, key: T -> Byte, t: Byte)
    ensures forall x :: x in Only(s, key, t) <==> x in s && key(x) == t
  {
    if s != [] { OnlyOf(s[1..], key, t); }
  }

  /** Taking out the first of type u takes the first of its type, and none of another. */
  lemma OnlyDelete<T>(s: seq<T>, key: T -> Byte, i: nat, u: Byte, t: Byte)
    requires i < |s| && key(s[i]) == u && forall j :: 0 <= j < i ==> key(s[j]) != u
    ensures Only(s, key, u) != [] && Only(s, key, u)[0] == s[i]
    ensures Only(Delete(s, i), key, t) == if t == u then Only(s, key, t)[1..] else Only(s, key, t)
  {
    var a, b := s[..i], s[i + 1..];
    assert s == a + ([s[i]] + b);
    OnlyMid(a, s[i], b, key, t);
    OnlyMid(a, s[i], b, key, u);
    OnlyNone(a, key, u);
  }

  lemma OnlyMid<T>(a: seq<T>, x: T, b: seq<T>, key: T -> Byte, t: Byte)
    ensures Only(a + ([x] + b), key, t) == Only(a, key, t) + ((if key(x) == t then [x] else []) + Only(b, key, t))
    ensures Only(a + b, key, t) == Only(a, key, t) + Only(b, key, t)
  {
    hide Only;
    OnlyAppend(a, [x] + b, key, t);
    OnlyAppend([x], b, key, t);
    OnlyAppend(a, b, key, t);
    OnlyOne(x, key, t);
  }

  lemma OnlyOne<T>(x: T, key: T -> Byte, t: Byte)
    ensures Only([x], key, t) == if key(x) == t then [x] else []
  {
  }

  // ---- match ----

  /** The operations of each kind for type t. */
  datatype Queues = Queues(drops: seq<Byte>, corrupts: seq<CorruptOp>, captures: seq<Byte>, injects: seq<Injection>)

  function For(a: Armed, t: Byte): Queues {
    Queues(Only(a.drops, Self, t), Only(a.corrupts, Target, t), Only(a.captures, Self, t), Only(a.injects, Mark, t))
  }

  /** What is left of them after n frames of their type. */
  function After(q: Queues, n: nat): Queues {
    var u := if n <= |q.drops| then 0 else n - |q.drops|;
    Queues(Past(q.drops, n), Past(q.corrupts, u), Past(q.captures, u), Past(q.injects, u))
  }

  /** What the n-th frame of their type, counted from 0, gets. */
  function Given(q: Queues, n: nat): FrameOp {
    if n < |q.drops| then NO_OP.(drop := true)
    else
      var u := n - |q.drops|;
      FrameOp(false, if u < |q.corrupts| then q.corrupts[u].m else NoCorrupt, u < |q.captures|,
              if u < |q.injects| then Inject.After(q.injects[u]) else NoInject)
  }

  /** match takes the first operation of each kind for the frame's type, or only the drop. */
  lemma MatchTakes(a: Armed, typ: Byte, t: Byte)
    ensures var (op, r) := Match(a, typ);
            op == Given(For(a, typ), 0) && For(r, t) == if t == typ then After(For(a, t), 1) else For(a, t)
  {
    var d := Index(a.drops, typ);
    if d < |a.drops| {
      OnlyDelete(a.drops, Self, d, typ, t);
    } else {
      OnlyNone(a.drops, Self, typ);
      MatchRest(a, typ, t);
    }
  }

  lemma MatchRest(a: Armed, typ: Byte, t: Byte)
    requires Index(a.drops, typ) == |a.drops| && Only(a.drops, Self, typ) == []
    ensures var (op, r) := Match(a, typ);
            op == Given(For(a, typ), 0) && For(r, t) == if t == typ then After(For(a, t), 1) else For(a, t)
  {
    hide Only, Delete, Index, Types, Afters;
    TakeCorrupt(a.corrupts, typ, t);
    TakeFirst(a.captures, Self, Index(a.captures, typ), typ, t);
    TakeInject(a.injects, typ, t);
  }

  lemma TakeCorrupt(s: seq<CorruptOp>, u: Byte, t: Byte)
    ensures var i := Index(Types(s), u);
            && (i < |s| <==> Only(s, Target, u) != []) && (i < |s| ==> Only(s, Target, u)[0] == s[i])
            && Only(if i < |s| then Delete(s, i) else s, Target, t)
               == if t == u then Past(Only(s, Target, t), 1) else Only(s, Target, t)
  {
    hide Only, Delete;
    assert forall k :: 0 <= k < |s| ==> Target(s[k]) == Types(s)[k];
    TakeFirst(s, Target, Index(Types(s), u), u, t);
  }

  lemma TakeInject(s: seq<Injection>, u: Byte, t: Byte)
    ensures var i := Index(Afters(s), u);
            && (i < |s| <==> Only(s, Mark, u) != []) && (i < |s| ==> Only(s, Mark, u)[0] == s[i])
            && Only(if i < |s| then Delete(s, i) else s, Mark, t)
               == if t == u then Past(Only(s, Mark, t), 1) else Only(s, Mark, t)
  {
    hide Only, Delete;
    assert forall k :: 0 <= k < |s| ==> Mark(s[k]) == Afters(s)[k];
    TakeFirst(s, Mark, Index(Afters(s), u), u, t);
  }

  lemma TakeFirst<T>(s: seq<T>, key: T -> Byte, i: nat, u: Byte, t: Byte)
    requires i <= |s| && (i < |s| ==> key(s[i]) == u) && forall j :: 0 <= j < i ==> key(s[j]) != u
    ensures i < |s| <==> Only(s, key, u) != []
    ensures i < |s| ==> Only(s, key, u)[0] == s[i]
    ensures Only(if i < |s| then Delete(s, i) else s, key, t)
         == if t == u then Past(Only(s, key, t), 1) else Only(s, key, t)
  {
    if i < |s| { OnlyDelete(s, key, i, u, t); } else { OnlyNone(s, key, u); }
  }

  // ---- a run of frames ----

  /** The operations armed after frames of these types. */
  function Matched(a: Armed, types: seq<Byte>): Armed
    decreases |types|
  {
    if types == [] then a else Match(Matched(a, types[..|types| - 1]), types[|types| - 1]).1
  }

  /** What the i-th frame gets: the operation of its place among the frames of its type. */
  function Plan(a: Armed, types: seq<Byte>, i: nat): FrameOp
    requires i < |types|
  {
    Given(For(a, types[i]), Count(types[..i], types[i]))
  }

  lemma AfterNext(q: Queues, n: nat)
    ensures After(After(q, n), 1) == After(q, n + 1) && Given(After(q, n), 0) == Given(q, n)
  {
  }

  /** After any frames, what is armed for a type is what its frames have not used, in order. */
  lemma {:induction false} StayArmed(a: Armed, types: seq<Byte>, t: Byte)
    ensures For(Matched(a, types), t) == After(For(a, t), Count(types, t))
    decreases |types|
  {
    hide Match, For;
    if types == [] {
      assert After(For(a, t), 0) == For(a, t);
    } else {
      var n := |types| - 1;
      StayArmed(a, types[..n], t);
      MatchTakes(Matched(a, types[..n]), types[n], t);
      AfterNext(For(a, t), Count(types[..n], t));
    }
  }

  /** The i-th frame takes exactly what is planned for it. */
  lemma FiresAsPlanned(a: Armed, types: seq<Byte>, i: nat)
    requires i < |types|
    ensures Match(Matched(a, types[..i]), types[i]).0 == Plan(a, types, i)
  {
    hide Match, For;
    StayArmed(a, types[..i], types[i]);
    MatchTakes(Matched(a, types[..i]), types[i], types[i]);
    AfterNext(For(a, types[i]), Count(types[..i], types[i]));
  }

  // ---- one operation ----

  lemma {:induction false} CountPrefix(types: seq<Byte>, i: nat, j: nat, t: Byte)
    requires i <= j <= |types|
    ensures Count(types[..i], t) <= Count(types[..j], t)
    ensures i < j && types[i] == t ==> Count(types[..i], t) < Count(types[..j], t)
    decreases j
  {
    if i < j {
      assert types[..j][..j - 1] == types[..j - 1];
      CountPrefix(types, i, j - 1, t);
    }
  }

  lemma {:induction false} CountFinds(types: seq<Byte>, t: Byte, n: nat) returns (i: nat)
    requires n < Count(types, t)
    ensures i < |types| && types[i] == t && Count(types[..i], t) == n
    decreases |types|
  {
    var m := |types| - 1;
    if n < Count(types[..m], t) {
      i := CountFinds(types[..m], t, n);
      assert types[..m][..i] == types[..i];
    } else {
      i := m;
    }
  }

  /** Injection j's place among the injections of its type. */
  function Turn(a: Armed, j: nat): nat
    requires j < |a.injects|
  {
    |Only(a.injects[..j], Mark, a.injects[j].after)|
  }

  lemma TurnOf(a: Armed, j: nat)
    requires j < |a.injects|
    ensures var q := Only(a.injects, Mark, a.injects[j].after); Turn(a, j) < |q| && q[Turn(a, j)] == a.injects[j]
  {
    var t := a.injects[j].after;
    var x, y := a.injects[..j], a.injects[j..];
    assert a.injects == x + y;
    OnlyAppend(x, y, Mark, t);
  }

  /** The i-th frame is the undropped frame whose turn it is to take injection j. */
  predicate TakesIt(a: Armed, types: seq<Byte>, i: nat, j: nat)
    requires i < |types| && j < |a.injects|
  {
    types[i] == a.injects[j].after && Count(types[..i], types[i]) == |Only(a.drops, Self, types[i])| + Turn(a, j)
  }

  lemma TakenInjects(a: Armed, types: seq<Byte>, i: nat, j: nat)
    requires i < |types| && j < |a.injects| && TakesIt(a, types, i, j)
    ensures Plan(a, types, i).inject == Inject.After(a.injects[j]) && !Plan(a, types, i).drop
  {
    hide Only, Turn;
    TurnOf(a, j);
  }

  lemma TakenOnce(a: Armed, types: seq<Byte>, i: nat, k: nat, j: nat)
    requires i < k < |types| && j < |a.injects| && TakesIt(a, types, i, j)
    ensures !TakesIt(a, types, k, j)
  {
    hide Only, Turn;
    CountPrefix(types, i, k, a.injects[j].after);
  }

  /** Too few frames of its type came. */
  lemma NotTaken(a: Armed, types: seq<Byte>, j: nat)
    requires j < |a.injects|
    requires Count(types, a.injects[j].after) <= |Only(a.drops, Self, a.injects[j].after)| + Turn(a, j)
    ensures a.injects[j] in Matched(a, types).injects
  {
    hide Only, Turn, Matched;
    var t := a.injects[j].after;
    var d, n := |Only(a.drops, Self, t)|, Count(types, t);
    TurnOf(a, j);
    StayArmed(a, types, t);
    var q, left := Only(a.injects, Mark, t), Only(Matched(a, types).injects, Mark, t);
    var u := if n <= d then 0 else n - d;
    assert left == Past(q, u);
    assert left[Turn(a, j) - u] == a.injects[j];
    OnlyOf(Matched(a, types).injects, Mark, t);
  }

  /** Each armed injection fires exactly once: at the first undropped frame of its type that no injection armed
      before it for that type takes; without one it stays armed. */
  lemma InjectionFiresOnce(a: Armed, types: seq<Byte>, j: nat)
    requires j < |a.injects|
    ensures forall i :: 0 <= i < |types| && TakesIt(a, types, i, j) ==>
              Plan(a, types, i).inject == Inject.After(a.injects[j]) && !Plan(a, types, i).drop
    ensures forall i, k :: 0 <= i < k < |types| && TakesIt(a, types, i, j) ==> !TakesIt(a, types, k, j)
    ensures (exists i :: 0 <= i < |types| && TakesIt(a, types, i, j)) || a.injects[j] in Matched(a, types).injects
  {
    hide Matched, Turn, Plan, Only;
    var t := a.injects[j].after;
    var d := |Only(a.drops, Self, t)|;
    forall i | 0 <= i < |types| && TakesIt(a, types, i, j)
      ensures Plan(a, types, i).inject == Inject.After(a.injects[j]) && !Plan(a, types, i).drop
    {
      TakenInjects(a, types, i, j);
    }
    forall i, k | 0 <= i < k < |types| && TakesIt(a, types, i, j) ensures !TakesIt(a, types, k, j) {
      TakenOnce(a, types, i, k, j);
    }
    if d + Turn(a, j) < Count(types, t) {
      var i := CountFinds(types, t, d + Turn(a, j));
      assert TakesIt(a, types, i, j);
    } else {
      NotTaken(a, types, j);
    }
  }

  /** A frame is given an injection only for its own type, and one whose turn it is. */
  lemma InjectionHasMark(a: Armed, types: seq<Byte>, i: nat)
    requires i < |types| && Plan(a, types, i).inject.After?
    ensures !Plan(a, types, i).drop && Plan(a, types, i).inject.i in a.injects
    ensures Plan(a, types, i).inject.i.after == types[i]
  {
    OnlyOf(a.injects, Mark, types[i]);
  }

  // ---- the stream ----

  function Kinds(frames: seq<Frame>): (r: seq<Byte>)
    ensures |r| == |frames|
  {
    seq(|frames|, i requires 0 <= i < |frames| => frames[i].typ)
  }

  /** How many frames were injected behind the first n. */
  function Injected(a: Armed, types: seq<Byte>, n: nat): nat
    requires n <= |types|
  {
    if n == 0 then 0 else Injected(a, types, n - 1) + if Plan(a, types, n - 1).inject.After? then 1 else 0
  }

  function ShiftAt(a: Armed, types: seq<Byte>, shift: nat, n: nat): nat
    requires n <= |types|
  {
    (shift + Injected(a, types, n)) % WRAP
  }

  lemma PlanFits(env: Env, a: Armed, types: seq<Byte>, i: nat)
    requires i < |types| && InjectsFit(env, a)
    ensures Plan(a, types, i).inject.After? ==> Injectable(env, Plan(a, types, i).inject.i)
  {
    hide Plan;
    if Plan(a, types, i).inject.After? { InjectionHasMark(a, types, i); }
  }

  /** The bytes sent for the first n frames: each processed as planned, its fseq moved up by what was injected
      before it. */
  function Out(env: Env, frames: seq<Frame>, a: Armed, shift: nat, n: nat): seq<Byte>
    requires n <= |frames| && AllSendable(env, frames) && InjectsFit(env, a)
  {
    if n == 0 then []
    else
      var types := Kinds(frames);
      PlanFits(env, a, types, n - 1);
      Out(env, frames, a, shift, n - 1)
      + Process(env, Encode(env, frames[n - 1]), Plan(a, types, n - 1), ShiftAt(a, types, shift, n - 1)).0
  }

  lemma ProcessIdle(env: Env, f: Frame)
    requires Sendable(env, f)
    ensures Process(env, Encode(env, f), NO_OP, 0) == (Encode(env, f), 0)
  {
    hide Encode, Restamped;
    RestampEncoded(env, f, f.fseq);
    RestampSame(env, f);
    assert f.fseq % WRAP == f.fseq;
  }

  lemma ProcessMoves(env: Env, fb: seq<Byte>, op: FrameOp, shift: nat)
    requires |fb| >= HEADER_LEN + TRAILER_LEN && shift < WRAP
    requires op.inject.After? ==> Injectable(env, op.inject.i)
    ensures Process(env, fb, op, shift).1 == ShiftAfter(op, shift)
  {
    hide Restamped, Forged, Summed, Damaged, Encode;
  }

  /** One encoded frame, whatever is armed: it is processed with what match takes, and the raw bytes armed follow it,
      once. */
  lemma AnyFrame(env: Env, t: Tr, f: Frame)
    requires Valid(env, t) && AtBoundary(t) && Sendable(env, f) && InjectsFit(env, t.armed)
    ensures var (t1, o) := FeedAll(env, t, Encode(env, f));
            var (op, a) := Match(t.armed, f.typ);
            && (op.inject.After? ==> Injectable(env, op.inject.i))
            && o == Process(env, Encode(env, f), op, t.shift).0 + Flat(t.raws)
            && Ready(t1) && t1.armed == a && t1.shift == ShiftAfter(op, t.shift) && InjectsFit(env, a)
  {
    hide FeedAll, Feed1, Match, Header, Process, Flat;
    var h, body := Header(f), f.payload + Trailer(env, Header(f) + f.payload);
    var e := Encode(env, f);
    assert e == h + body;
    MatchKeeps(env, t.armed, f.typ);
    HeaderOf(env, t, f);
    var (t1, o1) := FeedAll(env, t, h);
    FeedSplit(env, t, h, body);
    BodyRun(env, t1, body);
    var last := t1.(rest := 0, fb := if t1.hold then t1.fb + body else t1.fb);
    var o2 := FeedAll(env, t1, body).1;
    if t1.hold {
      ProcessMoves(env, e, t1.op, t.shift);
      assert o1 + o2 == Process(env, e, t1.op, t.shift).0 + Flat(t.raws);
    } else {
      ProcessIdle(env, f);
      assert o1 + o2 == e + Flat(t.raws);
    }
  }

  /** Raw bytes armed before the preface is through follow it at once. */
  lemma PrefaceThenRaws(env: Env, t: Tr, p: seq<Byte>)
    requires Valid(env, t) && !t.blind && t.pre < PREFACE_LEN && |p| == PREFACE_LEN - t.pre
    ensures FeedAll(env, t, p) == (t.(pre := PREFACE_LEN, raws := []), p + Flat(t.raws))
  {
    hide FeedAll, Flat;
    PrefaceRun(env, t, p);
  }

  lemma NoRaws()
    ensures Flat([]) == []
  {
  }

  lemma ShiftSmall(env: Env, t: Tr)
    requires Valid(env, t)
    ensures t.shift < WRAP && t.shift % WRAP == t.shift
  {
  }

  lemma OneEncoded(env: Env, f: Frame)
    requires Sendable(env, f)
    ensures AllSendable(env, [f]) && EncodeAll(env, [f]) == Encode(env, f)
  {
    hide Encode;
    assert Encode(env, f) + [] == Encode(env, f);
  }

  lemma PlanPrefix(a: Armed, types: seq<Byte>, m: nat, i: nat)
    requires i < m <= |types|
    ensures Plan(a, types[..m], i) == Plan(a, types, i)
  {
    assert types[..m][..i] == types[..i];
  }

  lemma {:induction false} InjectedPrefix(a: Armed, types: seq<Byte>, m: nat, n: nat)
    requires n <= m <= |types|
    ensures Injected(a, types[..m], n) == Injected(a, types, n)
    decreases n
  {
    hide Plan;
    if n > 0 {
      InjectedPrefix(a, types, m, n - 1);
      PlanPrefix(a, types, m, n - 1);
    }
  }

  lemma {:induction false} OutPrefix(env: Env, frames: seq<Frame>, a: Armed, shift: nat, m: nat, n: nat)
    requires n <= m <= |frames| && AllSendable(env, frames) && InjectsFit(env, a)
    ensures Out(env, frames[..m], a, shift, n) == Out(env, frames, a, shift, n)
    decreases n
  {
    hide Plan, Process, Encode;
    if n > 0 {
      assert Kinds(frames[..m]) == Kinds(frames)[..m];
      OutPrefix(env, frames, a, shift, m, n - 1);
      PlanPrefix(a, Kinds(frames), m, n - 1);
      InjectedPrefix(a, Kinds(frames), m, n - 1);
    }
  }

  lemma ShiftNext(a: Armed, types: seq<Byte>, shift: nat, n: nat)
    requires n < |types|
    ensures ShiftAt(a, types, shift, n + 1) == ShiftAfter(Plan(a, types, n), ShiftAt(a, types, shift, n))
  {
    hide Plan;
    ModAdd(shift + Injected(a, types, n), 1);
    DropsInjectNothing(a, types, n);
  }

  lemma DropsInjectNothing(a: Armed, types: seq<Byte>, i: nat)
    requires i < |types|
    ensures Plan(a, types, i).drop ==> Plan(a, types, i).inject.NoInject?
  {
  }

  /** Frames go in: every one is processed exactly as planned, and what found no frame stays armed. */
  lemma {:induction false} FramesFed(env: Env, t: Tr, frames: seq<Frame>)
    requires Valid(env, t) && Ready(t) && AllSendable(env, frames) && InjectsFit(env, t.armed)
    ensures var (t1, o) := FeedAll(env, t, EncodeAll(env, frames));
            && Ready(t1) && t1.armed == Matched(t.armed, Kinds(frames)) && InjectsFit(env, t1.armed)
            && t1.shift == ShiftAt(t.armed, Kinds(frames), t.shift, |frames|)
            && o == Out(env, frames, t.armed, t.shift, |frames|)
    decreases |frames|
  {
    hide FeedAll, Feed1, Match, Encode, Valid, Plan, Process, InjectsFit, Flat;
    if frames == [] {
      FeedNone(env, t, EncodeAll(env, frames));
      assert EncodeAll(env, frames)[..0] == EncodeAll(env, frames);
      ShiftSmall(env, t);
    } else {
      var n := |frames| - 1;
      var init, f := frames[..n], frames[n];
      assert frames == init + [f];
      FramesFed(env, t, init);
      EncodeAppend(env, init, [f]);
      OneEncoded(env, f);
      FeedSplit(env, t, EncodeAll(env, init), Encode(env, f));
      var t1 := FeedAll(env, t, EncodeAll(env, init)).0;
      AnyFrame(env, t1, f);
      NoRaws();
      assert forall o: seq<Byte> :: o + [] == o;
      var types := Kinds(frames);
      assert Kinds(init) == types[..n];
      FiresAsPlanned(t.armed, types, n);
      OutPrefix(env, frames, t.armed, t.shift, n, n);
      InjectedPrefix(t.armed, types, n, n);
      ShiftNext(t.armed, types, t.shift, n);
    }
  }

  // ---- frames out ----

  /** The frames sent for the first n, without damage. */
  function Sent(frames: seq<Frame>, a: Armed, shift: nat, n: nat): seq<Frame>
    requires n <= |frames|
  {
    if n == 0 then []
    else
      var types := Kinds(frames);
      Sent(frames, a, shift, n - 1) + RelayOne(frames[n - 1], Plan(a, types, n - 1), ShiftAt(a, types, shift, n - 1))
  }

  lemma NoDamage(a: Armed, types: seq<Byte>, i: nat)
    requires i < |types| && a.corrupts == []
    ensures Plan(a, types, i).corrupt == NoCorrupt
  {
  }

  lemma {:induction false} OutIsSent(env: Env, frames: seq<Frame>, a: Armed, shift: nat, n: nat)
    requires n <= |frames| && AllSendable(env, frames) && InjectsFit(env, a) && a.corrupts == []
    ensures AllSendable(env, Sent(frames, a, shift, n))
    ensures Out(env, frames, a, shift, n) == EncodeAll(env, Sent(frames, a, shift, n))
    decreases n
  {
    hide Plan, Process, Encode, RelayOne;
    if n > 0 {
      var types := Kinds(frames);
      var op, s := Plan(a, types, n - 1), ShiftAt(a, types, shift, n - 1);
      OutIsSent(env, frames, a, shift, n - 1);
      PlanFits(env, a, types, n - 1);
      NoDamage(a, types, n - 1);
      ProcessRelays(env, frames[n - 1], op, s);
      EncodeAppend(env, Sent(frames, a, shift, n - 1), RelayOne(frames[n - 1], op, s));
    }
  }

  lemma {:induction false} SentGrows(frames: seq<Frame>, a: Armed, shift: nat, m: nat, n: nat)
    requires m <= n <= |frames|
    ensures Sent(frames, a, shift, m) <= Sent(frames, a, shift, n)
    decreases n
  {
    hide Plan, RelayOne;
    if m < n { SentGrows(frames, a, shift, m, n - 1); }
  }

  /** The stream that leaves, with no damage armed: an undropped frame is sent behind all earlier ones, its fseq moved
      up by the frames injected before it; the injected frame stands directly behind the frame that it was armed
      for, of the type of its mark, and carries the next fseq; nothing stands for a dropped frame. */
  lemma StreamSent(env: Env, t: Tr, frames: seq<Frame>, i: nat)
    requires Valid(env, t) && Between(t) && AllSendable(env, frames) && InjectsFit(env, t.armed) && i < |frames|
    ensures var got := Sent(frames, t.armed, t.shift, |frames|);
            && AllSendable(env, got) && FeedAll(env, t, EncodeAll(env, frames)).1 == EncodeAll(env, got)
    ensures var types := Kinds(frames);
            var got, p := Sent(frames, t.armed, t.shift, |frames|), |Sent(frames, t.armed, t.shift, i)|;
            var op, next := Plan(t.armed, types, i), |Sent(frames, t.armed, t.shift, i + 1)|;
            var fseq := (frames[i].fseq + ShiftAt(t.armed, types, t.shift, i)) % WRAP;
            && next <= |got|
            && (op.drop ==> next == p)
            && (!op.drop ==> next > p && got[p] == frames[i].(fseq := fseq))
            && (!op.drop && op.inject.NoInject? ==> next == p + 1)
            && (op.inject.After? ==>
                  next == p + 2 && got[p + 1] == InjectedFrame(op.inject.i, (fseq + 1) % WRAP)
                  && op.inject.i.after == frames[i].typ)
  {
    hide FeedAll, Valid, Plan, Process, Encode;
    FramesFed(env, t, frames);
    OutIsSent(env, frames, t.armed, t.shift, |frames|);
    SentGrows(frames, t.armed, t.shift, i + 1, |frames|);
    DropsInjectNothing(t.armed, Kinds(frames), i);
    if Plan(t.armed, Kinds(frames), i).inject.After? { InjectionHasMark(t.armed, Kinds(frames), i); }
  }

  // ---- the recursive relay is the planned one ----

  lemma {:induction false} MatchedFront(a: Armed, types: seq<Byte>)
    requires types != []
    ensures Matched(a, types) == Matched(Match(a, types[0]).1, types[1..])
    decreases |types|
  {
    hide Match;
    var n := |types| - 1;
    if n > 0 {
      MatchedFront(a, types[..n]);
      assert types[..n][1..] == types[1..][..n - 1] && types[1..][n - 1] == types[n];
    } else {
      assert types[..0] == [] && types[1..] == [];
    }
  }

  /** The shift after frames of these types. */
  function Shifted(a: Armed, types: seq<Byte>, shift: nat): nat
    decreases |types|
  {
    if types == [] then shift else Shifted(Match(a, types[0]).1, types[1..], ShiftAfter(Match(a, types[0]).0, shift))
  }

  lemma {:induction false} RelaySnoc(x: seq<Frame>, f: Frame, a: Armed, shift: nat)
    ensures Relay(x + [f], a, shift)
         == Relay(x, a, shift) + RelayOne(f, Match(Matched(a, Kinds(x)), f.typ).0, Shifted(a, Kinds(x), shift))
    ensures Shifted(a, Kinds(x + [f]), shift)
         == ShiftAfter(Match(Matched(a, Kinds(x)), f.typ).0, Shifted(a, Kinds(x), shift))
    decreases |x|
  {
    hide Match, RelayOne, ShiftAfter;
    if x == [] {
      assert x + [f] == [f] && [f][1..] == [] && Kinds([f]) == [f.typ] && Kinds(x) == [];
    } else {
      var (op, a1) := Match(a, x[0].typ);
      assert (x + [f])[1..] == x[1..] + [f] && Kinds(x)[1..] == Kinds(x[1..]);
      assert Kinds(x + [f])[1..] == Kinds(x[1..] + [f]);
      RelaySnoc(x[1..], f, a1, ShiftAfter(op, shift));
      MatchedFront(a, Kinds(x));
    }
  }

  /** What Relay sends is what is planned. */
  lemma {:induction false} RelayIsSent(frames: seq<Frame>, a: Armed, shift: nat)
    requires shift < WRAP
    ensures Relay(frames, a, shift) == Sent(frames, a, shift, |frames|)
    ensures Shifted(a, Kinds(frames), shift) == ShiftAt(a, Kinds(frames), shift, |frames|)
    decreases |frames|
  {
    hide Match, RelayOne, Plan, ShiftAfter;
    if frames != [] {
      var n := |frames| - 1;
      var init, f, types := frames[..n], frames[n], Kinds(frames);
      assert frames == init + [f] && Kinds(init) == types[..n];
      RelayIsSent(init, a, shift);
      RelaySnoc(init, f, a, shift);
      FiresAsPlanned(a, types, n);
      InjectedPrefix(a, types, n, n);
      SentPrefix(frames, a, shift, n, n);
      ShiftNext(a, types, shift, n);
    }
  }

  lemma {:induction false} SentPrefix(frames: seq<Frame>, a: Armed, shift: nat, m: nat, n: nat)
    requires n <= m <= |frames|
    ensures Sent(frames[..m], a, shift, n) == Sent(frames, a, shift, n)
    decreases n
  {
    hide Plan, RelayOne;
    if n > 0 {
      assert Kinds(frames[..m]) == Kinds(frames)[..m];
      SentPrefix(frames, a, shift, m, n - 1);
      PlanPrefix(a, Kinds(frames), m, n - 1);
      InjectedPrefix(a, Kinds(frames), m, n - 1);
    }
  }
}
