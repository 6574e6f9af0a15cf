/** rendrtest/tracker.go: the byte transducer that follows one direction's
    framing, holds the frames an operation is armed for, damages, drops or
    captures them, and injects frames with the right fseq, re-stamping all
    later ones. */
module FrameTracker {
  import opened Bytes

  const PREFACE_LEN := 40
  const HEADER_LEN := 13
  const TRAILER_LEN := 4
  const FRAME_ACK: Byte := 0x11
  const FORGE_BEYOND := 0x100_0000_0000   // forgeBeyond, 2^40
  const WRAP64 := 0x1_0000_0000_0000_0000

  /** What the wire package fixes: the largest payload and the trailer of a frame. */
  datatype Env = Env(maxPayload: nat, crc: seq<Byte> -> (Byte, Byte, Byte, Byte))

  function Trailer(env: Env, b: seq<Byte>): (t: seq<Byte>)
    ensures |t| == TRAILER_LEN
  {
    var c := env.crc(b);
    [c.0, c.1, c.2, c.3]
  }

  // ---- armed operations ----

  datatype Corrupt = NoCorrupt | CorruptHeader | CorruptPayload | CorruptTrailer | ForgeAck

  datatype CorruptOp = CorruptOp(t: Byte, m: Corrupt)

  datatype Injection = Injection(after: Byte, t: Byte, flags: Byte, handle: nat, payload: seq<Byte>)

  datatype Inject = NoInject | After(i: Injection)

  datatype FrameOp = FrameOp(drop: bool, corrupt: Corrupt, capture: bool, inject: Inject)

  const NO_OP := FrameOp(false, NoCorrupt, false, NoInject)

  datatype Armed = Armed(corrupts: seq<CorruptOp>, drops: seq<Byte>, injects: seq<Injection>, captures: seq<Byte>)

  /** The first place of x in s, or |s|. */
  function Index<T(==)>(s: seq<T>, x: T): (i: nat)
    ensures i <= |s| && (i < |s| ==> s[i] == x) && forall j :: 0 <= j < i ==> s[j] != x
  {
    if s == [] then 0 else if s[0] == x then 0 else 1 + Index(s[1..], x)
  }

  function Delete<T>(s: seq<T>, i: nat): seq<T>
    requires i < |s|
  {
    s[..i] + s[i + 1..]
  }

  function Types(s: seq<CorruptOp>): (r: seq<Byte>)
    ensures |r| == |s|
  {
    seq(|s|, i requires 0 <= i < |s| => s[i].t)
  }

  function Afters(s: seq<Injection>): (r: seq<Byte>)
    ensures |r| == |s|
  {
    seq(|s|, i requires 0 <= i < |s| => s[i].after)
  }

  /** match: the operations the next frame of this type takes; a dropped frame gets nothing else. */
  function Match(a: Armed, typ: Byte): (FrameOp, Armed) {
    var d := Index(a.drops, typ);
    if d < |a.drops| then (NO_OP.(drop := true), a.(drops := Delete(a.drops, d)))
    else
      var c, p, j := Index(Types(a.corrupts), typ), Index(a.captures, typ), Index(Afters(a.injects), typ);
      (FrameOp(false, if c < |a.corrupts| then a.corrupts[c].m else NoCorrupt, p < |a.captures|,
               if j < |a.injects| then After(a.injects[j]) else NoInject),
       Armed(if c < |a.corrupts| then Delete(a.corrupts, c) else a.corrupts, a.drops,
             if j < |a.injects| then Delete(a.injects, j) else a.injects,
             if p < |a.captures| then Delete(a.captures, p) else a.captures))
  }

  // ---- frames ----

  datatype Frame = Frame(typ: Byte, flags: Byte, fseq: nat, handle: nat, payload: seq<Byte>)

  predicate Sendable(env: Env, f: Frame) {
    f.fseq < WRAP && f.handle < WRAP && |f.payload| <= env.maxPayload < 0x100_0000
  }

  function Header(f: Frame): (h: seq<Byte>)
    requires f.fseq < WRAP && f.handle < WRAP && |f.payload| < 0x100_0000
    ensures |h| == HEADER_LEN
  {
    [f.typ, f.flags] + PutUint24(|f.payload|) + PutUint32(f.fseq) + PutUint32(f.handle)
  }

  /** AppendFrame's bytes. */
  function Encode(env: Env, f: Frame): (b: seq<Byte>)
    requires Sendable(env, f)
    ensures |b| == HEADER_LEN + |f.payload| + TRAILER_LEN
  {
    Header(f) + f.payload + Trailer(env, Header(f) + f.payload)
  }

  // ---- one whole frame ----

  function Uint64(b: seq<Byte>): nat
    requires |b| >= 8
  {
    Uint32(b[..4]) * WRAP + Uint32(b[4..8])
  }

  function PutUint64(x: nat): (b: seq<Byte>)
    requires x < WRAP64
    ensures |b| == 8
  {
    PutUint32(x / WRAP) + PutUint32(x % WRAP)
  }

  function Flip(b: Byte): Byte { if b % 2 == 0 then b + 1 else b - 1 }

  function Restamped(fb: seq<Byte>, fseq: nat): (r: seq<Byte>)
    requires |fb| >= HEADER_LEN + TRAILER_LEN && fseq < WRAP
    ensures |r| == |fb|
  {
    fb[..5] + PutUint32(fseq) + fb[9..]
  }

  /** A forged ACK: the delivered offset far beyond what was sent. */
  function Forged(fb: seq<Byte>): (r: seq<Byte>)
    requires |fb| >= HEADER_LEN + 8 + TRAILER_LEN
    ensures |r| == |fb|
  {
    var p := fb[HEADER_LEN..HEADER_LEN + 8];
    fb[..HEADER_LEN] + PutUint64((Uint64(p) + FORGE_BEYOND) % WRAP64) + fb[HEADER_LEN + 8..]
  }

  function Summed(env: Env, fb: seq<Byte>): (r: seq<Byte>)
    requires |fb| >= HEADER_LEN + TRAILER_LEN
    ensures |r| == |fb|
  {
    var end := |fb| - TRAILER_LEN;
    fb[..end] + Trailer(env, fb[..end])
  }

  /** Where a damage mode flips a bit. */
  function FlipAt(fb: seq<Byte>, m: Corrupt): (i: nat)
    requires |fb| >= HEADER_LEN + TRAILER_LEN
    ensures i < |fb|
  {
    var end := |fb| - TRAILER_LEN;
    if m == CorruptHeader then 8
    else if m == CorruptPayload && end > HEADER_LEN then HEADER_LEN + (end - HEADER_LEN) / 2
    else end
  }

  function Damaged(fb: seq<Byte>, m: Corrupt): (r: seq<Byte>)
    requires |fb| >= HEADER_LEN + TRAILER_LEN
    ensures |r| == |fb|
  {
    if m == NoCorrupt || m == ForgeAck then fb else fb[FlipAt(fb, m) := Flip(fb[FlipAt(fb, m)])]
  }

  /** process: what goes out for the frame in fb, and the new shift. */
  function Process(env: Env, fb: seq<Byte>, op: FrameOp, shift: nat): (seq<Byte>, nat)
    requires |fb| >= HEADER_LEN + TRAILER_LEN && shift < WRAP
    requires op.inject.After? ==> Injectable(env, op.inject.i)
  {
    if op.drop then ([], shift)
    else
      var fseq := (Uint32(fb[5..9]) + shift) % WRAP;
      var b1 := Restamped(fb, fseq);
      var forge := op.corrupt == ForgeAck && fb[0] == FRAME_ACK && |fb| - TRAILER_LEN - HEADER_LEN >= 8;
      var b2 := if forge then Forged(b1) else b1;
      var b3 := if shift != 0 || forge then Summed(env, b2) else b2;
      var b4 := Damaged(b3, op.corrupt);
      match op.inject
      case NoInject => (b4, shift)
      case After(i) => (b4 + Encode(env, InjectedFrame(i, (fseq + 1) % WRAP)), (shift + 1) % WRAP)
  }

  predicate Injectable(env: Env, i: Injection) { i.handle < WRAP && |i.payload| <= env.maxPayload < 0x100_0000 }

  function InjectedFrame(i: Injection, fseq: nat): Frame { Frame(i.t, i.flags, fseq, i.handle, i.payload) }

  // ---- the tracker, byte by byte ----

  /** hdr holds the header bytes assembled so far; blind: frame sync is lost. */
  datatype Tr = Tr(
    pre: nat, hdr: seq<Byte>, sent: bool, inside: bool, rest: nat, hold: bool, fb: seq<Byte>, op: FrameOp,
    blind: bool, shift: nat, armed: Armed, raws: seq<seq<Byte>>)

  function Fresh(armed: Armed, raws: seq<seq<Byte>>): Tr {
    Tr(0, [], false, false, 0, false, [], NO_OP, false, 0, armed, raws)
  }

  predicate Nothing(a: Armed) { a.corrupts == [] && a.drops == [] && a.injects == [] && a.captures == [] }

  predicate IdleTr(t: Tr) { t.shift == 0 && Nothing(t.armed) }

  function Flat(s: seq<seq<Byte>>): seq<Byte> {
    if s == [] then [] else s[0] + Flat(s[1..])
  }

  ghost predicate Valid(env: Env, t: Tr) {
    && t.pre <= PREFACE_LEN && |t.hdr| < HEADER_LEN && t.shift < WRAP
    && (t.inside ==> t.rest > 0 && t.hdr == [])
    && (t.inside && t.hold ==> |t.fb| >= HEADER_LEN && |t.fb| + t.rest >= HEADER_LEN + TRAILER_LEN)
    && (!(t.inside && t.hold) ==> t.fb == [])
    && (forall i :: 0 <= i < |t.armed.injects| ==> Injectable(env, t.armed.injects[i]))
    && (t.op.inject.After? ==> Injectable(env, t.op.inject.i))
  }

  /** The bytes held back. */
  function Held(t: Tr): seq<Byte> {
    (if t.sent then [] else t.hdr) + t.fb
  }

  /** startFrame, header complete. */
  function StartFrame(env: Env, t: Tr, hdr: seq<Byte>): (Tr, seq<Byte>)
    requires |hdr| == HEADER_LEN
  {
    var n := Uint24(hdr[2..5]);
    var t0 := t.(hdr := []);
    if n > env.maxPayload then (t0.(blind := true), if t.sent then [] else hdr)
    else
      var t1 := t0.(inside := true, rest := n + TRAILER_LEN);
      if t.sent then (t1.(op := NO_OP, hold := false), [])
      else
        var (op, armed) := Match(t.armed, hdr[0]);
        if op != NO_OP || t.shift != 0 then (t1.(op := op, armed := armed, hold := true, fb := hdr), [])
        else (t1.(op := op, armed := armed, hold := false), hdr)
  }

  /** The frame in progress is complete. */
  function EndFrame(env: Env, t: Tr): (Tr, seq<Byte>)
    requires t.hold ==> |t.fb| >= HEADER_LEN + TRAILER_LEN && t.shift < WRAP
                        && (t.op.inject.After? ==> Injectable(env, t.op.inject.i))
  {
    var (out, shift) := if t.hold then Process(env, t.fb, t.op, t.shift) else ([], t.shift);
    (t.(inside := false, hold := false, fb := [], shift := shift, raws := []), out + Flat(t.raws))
  }

  /** One byte. */
  function Feed1(env: Env, t: Tr, b: Byte): (Tr, seq<Byte>)
    requires Valid(env, t)
  {
    if t.blind then (t, [b])
    else if t.pre < PREFACE_LEN then
      if t.pre + 1 == PREFACE_LEN then (t.(pre := t.pre + 1, raws := []), [b] + Flat(t.raws))
      else (t.(pre := t.pre + 1), [b])
    else if !t.inside then
      var t1 := t.(sent := if t.hdr == [] then IdleTr(t) else t.sent, hdr := t.hdr + [b]);
      var out := if t1.sent then [b] else [];
      if |t1.hdr| == HEADER_LEN then var (t2, more) := StartFrame(env, t1, t1.hdr); (t2, out + more) else (t1, out)
    else
      var t1 := t.(rest := t.rest - 1, fb := if t.hold then t.fb + [b] else t.fb);
      var out := if t.hold then [] else [b];
      if t1.rest == 0 then var (t2, more) := EndFrame(env, t1); (t2, out + more) else (t1, out)
  }

  lemma MatchKeeps(env: Env, a: Armed, typ: Byte)
    requires forall i :: 0 <= i < |a.injects| ==> Injectable(env, a.injects[i])
    ensures var (op, r) := Match(a, typ);
            (op.inject.After? ==> Injectable(env, op.inject.i))
            && forall i :: 0 <= i < |r.injects| ==> Injectable(env, r.injects[i])
  {
  }

  lemma Feed1Valid(env: Env, t: Tr, b: Byte)
    requires Valid(env, t)
    ensures Valid(env, Feed1(env, t, b).0)
  {
    hide Match, Process;
    if !t.blind && t.pre == PREFACE_LEN && !t.inside {
      MatchKeeps(env, t.armed, (t.hdr + [b])[0]);
    } else if !t.blind && t.pre == PREFACE_LEN && t.rest == 1 && t.hold {
      ProcessShift(env, t.fb + [b], t.op, t.shift);
    }
  }

  lemma ProcessShift(env: Env, fb: seq<Byte>, op: FrameOp, shift: nat)
    requires |fb| >= HEADER_LEN + TRAILER_LEN && shift < WRAP
    requires op.inject.After? ==> Injectable(env, op.inject.i)
    ensures Process(env, fb, op, shift).1 < WRAP
  {
  }

  /** Any bytes: the tracker after them and what it forwarded. */
  function FeedAll(env: Env, t: Tr, p: seq<Byte>): (r: (Tr, seq<Byte>))
    requires Valid(env, t)
    ensures Valid(env, r.0)
    decreases |p|
  {
    if p == [] then (t, [])
    else
      Feed1Valid(env, t, p[0]);
      var (t1, o1) := Feed1(env, t, p[0]);
      var (t2, o2) := FeedAll(env, t1, p[1..]);
      (t2, o1 + o2)
  }

  lemma {:induction false} FeedSplit(env: Env, t: Tr, p: seq<Byte>, q: seq<Byte>)
    requires Valid(env, t)
    ensures var (t1, o1) := FeedAll(env, t, p);
            var (t2, o2) := FeedAll(env, t1, q);
            FeedAll(env, t, p + q) == (t2, o1 + o2)
    decreases |p|
  {
    hide Feed1, FeedAll, Valid;
    if p == [] {
      FeedNone(env, t, p);
      assert p + q == q && p == p[..0];
      assert [] + FeedAll(env, t, q).1 == FeedAll(env, t, q).1;
    } else {
      assert (p + q)[0] == p[0] && (p + q)[1..] == p[1..] + q;
      FeedCons(env, t, p);
      FeedCons(env, t, p + q);
      var (t1, o1) := Feed1(env, t, p[0]);
      FeedSplit(env, t1, p[1..], q);
      var (t2, o2) := FeedAll(env, t1, p[1..]);
      var (t3, o3) := FeedAll(env, t2, q);
      assert o1 + (o2 + o3) == (o1 + o2) + o3;
    }
  }

  function FeedChunks(env: Env, t: Tr, chunks: seq<seq<Byte>>): (r: (Tr, seq<Byte>))
    requires Valid(env, t)
    decreases |chunks|
  {
    if chunks == [] then (t, [])
    else
      var (t1, o1) := FeedAll(env, t, chunks[0]);
      var (t2, o2) := FeedChunks(env, t1, chunks[1..]);
      (t2, o1 + o2)
  }

  /** Chunks do not matter: however the input is split, the tracker ends the same
      and forwards the same bytes. */
  lemma {:induction false} ChunkIndependence(env: Env, t: Tr, chunks: seq<seq<Byte>>)
    requires Valid(env, t)
    ensures FeedChunks(env, t, chunks) == FeedAll(env, t, Flat(chunks))
    decreases |chunks|
  {
    if chunks != [] {
      var t1 := FeedAll(env, t, chunks[0]).0;
      FeedSplit(env, t, chunks[0], Flat(chunks[1..]));
      ChunkIndependence(env, t1, chunks[1..]);
    }
  }

  // ---- runs of bytes within one phase ----

  lemma FeedOne(env: Env, t: Tr, b: Byte)
    requires Valid(env, t)
    ensures FeedAll(env, t, [b]) == Feed1(env, t, b)
  {
    hide Feed1;
    Feed1Valid(env, t, b);
    var (t1, o1) := Feed1(env, t, b);
    assert [b][1..] == [];
    assert o1 + [] == o1;
  }

  lemma FeedCons(env: Env, t: Tr, p: seq<Byte>)
    requires Valid(env, t) && p != []
    ensures Valid(env, Feed1(env, t, p[0]).0)
    ensures var (t1, o1) := Feed1(env, t, p[0]);
            var (t2, o2) := FeedAll(env, t1, p[1..]);
            FeedAll(env, t, p) == (t2, o1 + o2)
  {
    hide Feed1;
    Feed1Valid(env, t, p[0]);
  }

  lemma {:induction false} BlindRun(env: Env, t: Tr, p: seq<Byte>)
    requires Valid(env, t) && t.blind
    ensures FeedAll(env, t, p) == (t, p)
    decreases |p|
  {
    if p != [] {
      FeedCons(env, t, p);
      BlindRun(env, t, p[1..]);
      assert [p[0]] + p[1..] == p;
    }
  }

  /** What the preface case of feed does with a chunk. */
  function PrefaceChunk(t: Tr, p: seq<Byte>): (Tr, seq<Byte>) {
    if t.pre + |p| == PREFACE_LEN then (t.(pre := t.pre + |p|, raws := []), p + Flat(t.raws))
    else (t.(pre := t.pre + |p|), p)
  }

  lemma {:induction false} PrefaceRun(env: Env, t: Tr, p: seq<Byte>)
    requires Valid(env, t) && !t.blind && p != [] && t.pre + |p| <= PREFACE_LEN
    ensures FeedAll(env, t, p) == PrefaceChunk(t, p)
    decreases |p|
  {
    hide FeedAll, StartFrame, EndFrame, Flat;
    if |p| == 1 {
      assert p == [p[0]];
      FeedOne(env, t, p[0]);
    } else {
      FeedCons(env, t, p);
      PrefaceRun(env, t.(pre := t.pre + 1), p[1..]);
      assert [p[0]] + p[1..] == p;
      assert [p[0]] + (p[1..] + Flat(t.raws)) == p + Flat(t.raws);
    }
  }

  /** What the header case of feed does with a chunk. */
  function HeaderChunk(env: Env, t: Tr, p: seq<Byte>): (Tr, seq<Byte>)
    requires |t.hdr| + |p| <= HEADER_LEN
  {
    var t1 := t.(sent := if t.hdr == [] then IdleTr(t) else t.sent, hdr := t.hdr + p);
    var out := if t1.sent then p else [];
    if |t1.hdr| == HEADER_LEN then var (t2, more) := StartFrame(env, t1, t1.hdr); (t2, out + more) else (t1, out)
  }

  lemma HeaderByte(env: Env, t: Tr, b: Byte)
    requires Valid(env, t) && !t.blind && t.pre == PREFACE_LEN && !t.inside
    ensures Feed1(env, t, b) == HeaderChunk(env, t, [b])
  {
    hide StartFrame, EndFrame, Flat;
  }

  lemma HeaderJoin(env: Env, t: Tr, p: seq<Byte>, t1: Tr)
    requires Valid(env, t) && !t.blind && t.pre == PREFACE_LEN && !t.inside && 1 < |p| <= HEADER_LEN - |t.hdr|
    requires t1 == HeaderChunk(env, t, [p[0]]).0
    ensures !t1.inside && !t1.blind && t1.pre == PREFACE_LEN && t1.hdr == t.hdr + [p[0]]
    ensures var (t2, o2) := HeaderChunk(env, t1, p[1..]);
            HeaderChunk(env, t, p) == (t2, HeaderChunk(env, t, [p[0]]).1 + o2)
  {
    hide StartFrame, EndFrame, Flat;
    assert t1.hdr + p[1..] == t.hdr + p;
    assert [p[0]] + p[1..] == p;
    var last := t1.(hdr := t.hdr + p);
    if |last.hdr| == HEADER_LEN {
      var more := StartFrame(env, last, last.hdr).1;
      assert [p[0]] + (p[1..] + more) == p + more;
      assert [] + ([] + more) == [] + more;
    }
    var (t2, o2) := HeaderChunk(env, t1, p[1..]);
    assert HeaderChunk(env, t, p).0 == t2;
    assert HeaderChunk(env, t, p).1 == HeaderChunk(env, t, [p[0]]).1 + o2;
  }

  lemma {:induction false} HeaderRun(env: Env, t: Tr, p: seq<Byte>)
    requires Valid(env, t) && !t.blind && t.pre == PREFACE_LEN && !t.inside && p != [] && |t.hdr| + |p| <= HEADER_LEN
    ensures FeedAll(env, t, p) == HeaderChunk(env, t, p)
    decreases |p|
  {
    hide Feed1, FeedAll, HeaderChunk, Valid;
    HeaderByte(env, t, p[0]);
    if |p| == 1 {
      assert p == [p[0]];
      FeedOne(env, t, p[0]);
    } else {
      FeedCons(env, t, p);
      var t1 := Feed1(env, t, p[0]).0;
      HeaderJoin(env, t, p, t1);
      HeaderRun(env, t1, p[1..]);
    }
  }

  /** What the frame case of feed does with a chunk. */
  function BodyChunk(env: Env, t: Tr, p: seq<Byte>): (Tr, seq<Byte>)
    requires Valid(env, t) && t.inside && |p| <= t.rest
  {
    var t1 := t.(rest := t.rest - |p|, fb := if t.hold then t.fb + p else t.fb);
    var out := if t.hold then [] else p;
    if t1.rest == 0 then var (t2, more) := EndFrame(env, t1); (t2, out + more) else (t1, out)
  }

  lemma BodyByte(env: Env, t: Tr, b: Byte)
    requires Valid(env, t) && !t.blind && t.pre == PREFACE_LEN && t.inside
    ensures Feed1(env, t, b) == BodyChunk(env, t, [b])
  {
    hide EndFrame, StartFrame, Process, Flat;
  }

  lemma BodyJoin(env: Env, t: Tr, p: seq<Byte>, t1: Tr)
    requires Valid(env, t) && !t.blind && t.pre == PREFACE_LEN && t.inside && 1 < |p| <= t.rest
    requires t1 == BodyChunk(env, t, [p[0]]).0 && Valid(env, t1)
    ensures t1.inside && !t1.blind && t1.pre == PREFACE_LEN && t1.rest == t.rest - 1
    ensures var (t2, o2) := BodyChunk(env, t1, p[1..]);
            BodyChunk(env, t, p) == (t2, BodyChunk(env, t, [p[0]]).1 + o2)
  {
    hide EndFrame, Process, Flat;
    assert t.hold ==> t1.fb + p[1..] == t.fb + p;
    assert [p[0]] + p[1..] == p;
    var last := t.(rest := t.rest - |p|, fb := if t.hold then t.fb + p else t.fb);
    assert last == t1.(rest := t1.rest - |p[1..]|, fb := if t.hold then t1.fb + p[1..] else t1.fb);
    if |p| == t.rest {
      var more := EndFrame(env, last).1;
      assert [p[0]] + (p[1..] + more) == p + more;
      assert [] + ([] + more) == [] + more;
    }
    var (t2, o2) := BodyChunk(env, t1, p[1..]);
    assert BodyChunk(env, t, p).0 == t2;
    assert BodyChunk(env, t, p).1 == BodyChunk(env, t, [p[0]]).1 + o2;
  }

  lemma {:induction false} BodyRun(env: Env, t: Tr, p: seq<Byte>)
    requires Valid(env, t) && !t.blind && t.pre == PREFACE_LEN && t.inside && p != [] && |p| <= t.rest
    ensures FeedAll(env, t, p) == BodyChunk(env, t, p)
    decreases |p|
  {
    hide Feed1, BodyChunk, FeedAll, Valid;
    BodyByte(env, t, p[0]);
    if |p| == 1 {
      assert p == [p[0]];
      FeedOne(env, t, p[0]);
    } else {
      FeedCons(env, t, p);
      var t1 := Feed1(env, t, p[0]).0;
      BodyJoin(env, t, p, t1);
      BodyRun(env, t1, p[1..]);
    }
  }

  // ---- the tracker as the source keeps it ----

  class Tracker {
    const env: Env
    var pre: nat
    var hdr: seq<Byte>
    var sent: bool
    var inside: bool
    var rest: nat
    var hold: bool
    var fb: seq<Byte>
    var op: FrameOp
    var blind: bool
    var shift: nat
    var armed: Armed
    var raws: seq<seq<Byte>>
    var out: seq<Byte>

    ghost function Value(): Tr
      reads this
    {
      Tr(pre, hdr, sent, inside, rest, hold, fb, op, blind, shift, armed, raws)
    }

    constructor (env: Env, armed: Armed, raws: seq<seq<Byte>>)
      ensures this.env == env && Value() == Fresh(armed, raws)
    {
      this.env, pre, hdr, sent, inside, rest, hold, fb, op := env, 0, [], false, false, 0, false, [], NO_OP;
      blind, shift, this.armed, this.raws, out := false, 0, armed, raws, [];
    }

    method Boundary()
      modifies this`out, this`raws
      ensures raws == [] && out == old(out) + Flat(old(raws))
    {
      var i := 0;
      while i < |raws|
        modifies this`out
        invariant i <= |raws| && out + Flat(raws[i..]) == old(out) + Flat(raws)
      {
        assert raws[i..][1..] == raws[i + 1..];
        assert out + (raws[i] + Flat(raws[i + 1..])) == (out + raws[i]) + Flat(raws[i + 1..]);
        out := out + raws[i];
        i := i + 1;
      }
      assert out + [] == out;
      raws := [];
    }

    method BeginFrame()
      requires |hdr| == HEADER_LEN
      modifies this
      ensures var (t, o) := StartFrame(env, old(Value()), old(hdr));
              Value() == t && out == old(out) + o
    {
      hide Match, Uint24;
      var h := hdr;
      hdr := [];
      var n := Uint24(h[2..5]);
      if n > env.maxPayload {
        blind := true;
        if !sent { out := out + h; } else { assert out + [] == out; }
        return;
      }
      inside, rest := true, n + TRAILER_LEN;
      if sent {
        op, hold := NO_OP, false;
        assert out + [] == out;
        return;
      }
      var m := Match(armed, h[0]);
      op, armed := m.0, m.1;
      hold := op != NO_OP || shift != 0;
      if hold {
        fb := h;
        assert out + [] == out;
      } else {
        out := out + h;
      }
    }

    method FinishFrame()
      requires hold ==>
                 |fb| >= HEADER_LEN + TRAILER_LEN && shift < WRAP && (op.inject.After? ==> Injectable(env, op.inject.i))
      requires !hold ==> fb == []
      modifies this
      ensures var (t, o) := EndFrame(env, old(Value()));
              Value() == t && out == old(out) + o
    {
      hide Process;
      ghost var o0, r0 := out, raws;
      inside := false;
      ghost var mid: seq<Byte> := [];
      if hold {
        hold := false;
        var r := Process(env, fb, op, shift);
        mid := r.0;
        out, shift := out + r.0, r.1;
        fb := [];
      }
      assert o0 + [] == o0;
      Boundary();
      assert (o0 + mid) + Flat(r0) == o0 + (mid + Flat(r0));
    }

    /** feed: chunk by chunk, the same as byte by byte. */
    method Feed(p: seq<Byte>) returns (forward: seq<Byte>)
      requires Valid(env, Value())
      modifies this
      ensures Valid(env, Value()) && (Value(), forward) == FeedAll(env, old(Value()), p)
    {
      hide FeedAll, Feed1, StartFrame, EndFrame, Process;
      out := [];
      var i := 0;
      FeedNone(env, Value(), p);
      while i < |p|
        invariant i <= |p| && Valid(env, Value()) && (Value(), out) == FeedAll(env, old(Value()), p[..i])
      {
        var k := FeedChunk(p[i..]);
        assert p[i..][..k] == p[i..i + k] && p[..i + k] == p[..i] + p[i..i + k];
        FeedSplit(env, old(Value()), p[..i], p[i..i + k]);
        i := i + k;
      }
      assert p[..i] == p;
      forward := out;
      out := [];
    }

    /** One round of feed's loop, on the bytes that are left. */
    method FeedChunk(p: seq<Byte>) returns (k: nat)
      requires Valid(env, Value()) && p != []
      modifies this
      ensures 0 < k <= |p| && Valid(env, Value())
      ensures var (t, o) := FeedAll(env, old(Value()), p[..k]); Value() == t && out == old(out) + o
    {
      hide FeedAll, Feed1, StartFrame, EndFrame, Process, Valid, PrefaceChunk, HeaderChunk, BodyChunk;
      Bounds(env, Value());
      if blind {
        k := |p|;
        assert p[..k] == p;
        BlindRun(env, Value(), p);
        out := out + p;
      } else if pre < PREFACE_LEN {
        k := if PREFACE_LEN - pre < |p| then PREFACE_LEN - pre else |p|;
        PrefaceRun(env, Value(), p[..k]);
        FeedPreface(p[..k]);
      } else if !inside {
        k := if HEADER_LEN - |hdr| < |p| then HEADER_LEN - |hdr| else |p|;
        HeaderRun(env, Value(), p[..k]);
        FeedHeader(p[..k]);
      } else {
        k := if rest < |p| then rest else |p|;
        BodyRun(env, Value(), p[..k]);
        FeedBody(p[..k]);
      }
    }

    /** flush: what was held back, when the writer's side ended. */
    method Flush() returns (rest: seq<Byte>)
      modifies this
      ensures rest == Held(old(Value()))
      ensures Value() == old(Value()).(hdr := [], fb := [], inside := false, hold := false)
    {
      rest := [];
      if |hdr| > 0 && !sent { rest := rest + hdr; }
      rest := rest + fb;
      hdr, fb, inside, hold := [], [], false, false;
    }

    method FeedPreface(p: seq<Byte>)
      requires pre + |p| <= PREFACE_LEN
      modifies this
      ensures var (t, o) := PrefaceChunk(old(Value()), p); Value() == t && out == old(out) + o
    {
      out, pre := out + p, pre + |p|;
      if pre == PREFACE_LEN {
        ghost var o, r := old(out), raws;
        Boundary();
        assert (o + p) + Flat(r) == o + (p + Flat(r));
      }
    }

    method FeedHeader(p: seq<Byte>)
      requires |hdr| + |p| <= HEADER_LEN
      modifies this
      ensures var (t, o) := HeaderChunk(env, old(Value()), p); Value() == t && out == old(out) + o
    {
      hide StartFrame;
      if hdr == [] {
        sent := && shift == 0 && |armed.corrupts| == 0 && |armed.drops| == 0
                && |armed.injects| == 0 && |armed.captures| == 0;
      }
      hdr := hdr + p;
      ghost var o, o1: seq<Byte> := out, if sent then p else [];
      if sent { out := out + p; }
      assert out == o + o1;
      if |hdr| == HEADER_LEN {
        ghost var more := StartFrame(env, Value(), hdr).1;
        BeginFrame();
        assert (o + o1) + more == o + (o1 + more);
      }
    }

    method FeedBody(p: seq<Byte>)
      requires Valid(env, Value()) && inside && |p| <= rest
      modifies this
      ensures var (t, o) := BodyChunk(env, old(Value()), p); Value() == t && out == old(out) + o
    {
      hide EndFrame;
      ghost var o, o1: seq<Byte> := out, if hold then [] else p;
      if hold { fb := fb + p; } else { out := out + p; }
      assert out == o + o1;
      rest := rest - |p|;
      if rest == 0 {
        ghost var more := EndFrame(env, Value()).1;
        FinishFrame();
        assert (o + o1) + more == o + (o1 + more);
      }
    }
  }

  lemma Bounds(env: Env, t: Tr)
    requires Valid(env, t)
    ensures t.pre <= PREFACE_LEN && |t.hdr| < HEADER_LEN && (t.inside ==> t.rest > 0)
  {
  }

  lemma FeedNone(env: Env, t: Tr, p: seq<Byte>)
    requires Valid(env, t)
    ensures FeedAll(env, t, p[..0]) == (t, [])
  {
  }
}
