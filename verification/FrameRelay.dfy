/** What the tracker of rendrtest/tracker.go does to whole streams: nothing to
    the bytes while only captures are armed, and with injections armed a
    stream of frames that is again numbered without a hole. */
module FrameRelay {
  import opened Bytes
  import opened FrameTracker
  import opened RingWindow

  // ---- transparency ----

  predicate OnlyCaptures(a: Armed) { a.corrupts == [] && a.drops == [] && a.injects == [] }

  predicate Plain(t: Tr) {
    && t.shift == 0 && OnlyCaptures(t.armed) && t.raws == []
    && !t.op.drop && t.op.corrupt == NoCorrupt && t.op.inject == NoInject
    && (t.blind || t.pre < PREFACE_LEN ==> t.hdr == [] && !t.inside)
  }

  lemma MatchPlain(a: Armed, typ: Byte)
    requires OnlyCaptures(a)
    ensures var (op, r) := Match(a, typ);
            OnlyCaptures(r) && !op.drop && op.corrupt == NoCorrupt && op.inject == NoInject
  {
  }

  lemma ProcessPlain(env: Env, fb: seq<Byte>, op: FrameOp)
    requires |fb| >= HEADER_LEN + TRAILER_LEN && !op.drop && op.corrupt == NoCorrupt && op.inject == NoInject
    ensures Process(env, fb, op, 0) == (fb, 0)
  {
    PutGet32(fb[5..9]);
    assert fb[..5] + fb[5..9] + fb[9..] == fb;
  }

  lemma PlainHeaderByte(env: Env, t: Tr, b: Byte)
    requires Valid(env, t) && Plain(t) && !t.blind && t.pre == PREFACE_LEN && !t.inside
    ensures var (t1, o) := Feed1(env, t, b); Plain(t1) && Held(t) + [b] == o + Held(t1)
  {
    hide Feed1, StartFrame;
    HeaderByte(env, t, b);
    var t1 := t.(sent := if t.hdr == [] then IdleTr(t) else t.sent, hdr := t.hdr + [b]);
    var first: seq<Byte> := if t1.sent then [b] else [];
    assert Held(t) + [b] == first + Held(t1);
    if |t1.hdr| == HEADER_LEN {
      PlainStart(env, t1);
      var (t2, more) := StartFrame(env, t1, t1.hdr);
      assert first + (more + Held(t2)) == (first + more) + Held(t2);
    }
  }

  lemma PlainStart(env: Env, t: Tr)
    requires |t.hdr| == HEADER_LEN && Plain(t) && !t.blind && t.pre == PREFACE_LEN && !t.inside && t.fb == []
    ensures var (t1, o) := StartFrame(env, t, t.hdr); Plain(t1) && Held(t) == o + Held(t1)
  {
    hide Match, Process;
    MatchPlain(t.armed, t.hdr[0]);
    var (t1, o) := StartFrame(env, t, t.hdr);
    assert Held(t) == o + Held(t1);
  }

  lemma PlainBodyByte(env: Env, t: Tr, b: Byte)
    requires Valid(env, t) && Plain(t) && !t.blind && t.pre == PREFACE_LEN && t.inside
    ensures var (t1, o) := Feed1(env, t, b); Plain(t1) && Held(t) + [b] == o + Held(t1)
  {
    hide Match, Process;
    if t.hold && t.rest == 1 {
      ProcessPlain(env, t.fb + [b], t.op);
    }
    var (t1, o) := Feed1(env, t, b);
    assert Held(t) + [b] == o + Held(t1);
  }

  /** While only captures are armed the tracker is transparent: what it forwards,
      followed by what flush would return, is what it was given. */
  lemma {:induction false} Transparent(env: Env, t: Tr, p: seq<Byte>)
    requires Valid(env, t) && Plain(t)
    ensures var (t1, o) := FeedAll(env, t, p); Plain(t1) && Held(t) + p == o + Held(t1)
    decreases |p|
  {
    hide Feed1, FeedAll, Valid;
    if p == [] {
      FeedNone(env, t, p);
      assert p[..0] == p;
      assert Held(t) + p == Held(t) == [] + Held(t);
    } else {
      FeedCons(env, t, p);
      PlainByte(env, t, p[0]);
      var (t1, o1) := Feed1(env, t, p[0]);
      Transparent(env, t1, p[1..]);
      var (t2, o2) := FeedAll(env, t1, p[1..]);
      assert p == [p[0]] + p[1..];
      assert Held(t) + p == (Held(t) + [p[0]]) + p[1..] == o1 + (Held(t1) + p[1..]) == (o1 + o2) + Held(t2);
    }
  }

  lemma PlainByte(env: Env, t: Tr, b: Byte)
    requires Valid(env, t) && Plain(t)
    ensures var (t1, o) := Feed1(env, t, b); Plain(t1) && Held(t) + [b] == o + Held(t1)
  {
    hide StartFrame, EndFrame;
    if t.blind || t.pre < PREFACE_LEN {
      var (t1, o) := Feed1(env, t, b);
      assert Held(t) + [b] == o + Held(t1);
    } else if t.inside {
      PlainBodyByte(env, t, b);
    } else {
      PlainHeaderByte(env, t, b);
    }
  }

  // ---- frames in, frames out ----

  /** What is sent for one frame: nothing if it is dropped, else the frame with its
      fseq moved up, and an injected frame after its mark. */
  function RelayOne(f: Frame, op: FrameOp, shift: nat): seq<Frame> {
    var fseq := (f.fseq + shift) % WRAP;
    if op.drop then []
    else if op.inject.After? then [f.(fseq := fseq), InjectedFrame(op.inject.i, (fseq + 1) % WRAP)]
    else [f.(fseq := fseq)]
  }

  function ShiftAfter(op: FrameOp, shift: nat): nat {
    if !op.drop && op.inject.After? then (shift + 1) % WRAP else shift
  }

  /** What is sent for a run of frames. */
  function Relay(frames: seq<Frame>, a: Armed, shift: nat): seq<Frame> {
    if frames == [] then []
    else
      var (op, a1) := Match(a, frames[0].typ);
      RelayOne(frames[0], op, shift) + Relay(frames[1..], a1, ShiftAfter(op, shift))
  }

  ghost predicate AllSendable(env: Env, frames: seq<Frame>) {
    forall i :: 0 <= i < |frames| ==> Sendable(env, frames[i])
  }

  function EncodeAll(env: Env, frames: seq<Frame>): seq<Byte>
    requires AllSendable(env, frames)
  {
    if frames == [] then [] else Encode(env, frames[0]) + EncodeAll(env, frames[1..])
  }

  ghost predicate InjectsFit(env: Env, a: Armed) {
    env.maxPayload < 0x100_0000 && forall i :: 0 <= i < |a.injects| ==> Injectable(env, a.injects[i])
  }

  lemma OneSendable(env: Env, f: Frame, op: FrameOp, shift: nat)
    requires Sendable(env, f) && (op.inject.After? ==> Injectable(env, op.inject.i))
    ensures AllSendable(env, RelayOne(f, op, shift))
  {
  }

  lemma {:induction false} RelaySendable(env: Env, frames: seq<Frame>, a: Armed, shift: nat)
    requires AllSendable(env, frames) && InjectsFit(env, a)
    ensures AllSendable(env, Relay(frames, a, shift))
    decreases |frames|
  {
    hide Match, RelayOne;
    if frames != [] {
      var f := frames[0];
      MatchKeeps(env, a, f.typ);
      var (op, a1) := Match(a, f.typ);
      OneSendable(env, f, op, shift);
      RelaySendable(env, frames[1..], a1, ShiftAfter(op, shift));
    }
  }

  lemma {:induction false} EncodeAppend(env: Env, a: seq<Frame>, b: seq<Frame>)
    requires AllSendable(env, a) && AllSendable(env, b) && AllSendable(env, a + b)
    ensures EncodeAll(env, a + b) == EncodeAll(env, a) + EncodeAll(env, b)
    decreases |a|
  {
    hide Encode;
    if a == [] {
      assert a + b == b;
    } else {
      assert (a + b)[0] == a[0] && (a + b)[1..] == a[1..] + b;
      EncodeAppend(env, a[1..], b);
    }
  }

  /** Between two frames, after the preface. */
  predicate AtBoundary(t: Tr) { !t.blind && t.pre == PREFACE_LEN && !t.inside && t.hdr == [] }

  /** The same, with no raw bytes armed. */
  predicate Ready(t: Tr) { AtBoundary(t) && t.raws == [] }

  /** The same, with no damage armed. */
  predicate Between(t: Tr) { Ready(t) && t.armed.corrupts == [] }

  lemma HeaderFields(f: Frame)
    requires f.fseq < WRAP && f.handle < WRAP && |f.payload| < 0x100_0000
    ensures var h := Header(f); h[0] == f.typ && Uint24(h[2..5]) == |f.payload| && h[5..9] == PutUint32(f.fseq)
    ensures Header(f)[..5] == [f.typ, f.flags] + PutUint24(|f.payload|) && Header(f)[9..] == PutUint32(f.handle)
  {
    GetPut24(|f.payload|);
    assert Header(f)[2..5] == PutUint24(|f.payload|);
  }

  lemma RestampHeader(f: Frame, fseq: nat)
    requires f.fseq < WRAP && fseq < WRAP && f.handle < WRAP && |f.payload| < 0x100_0000
    ensures Header(f)[..5] + PutUint32(fseq) + Header(f)[9..] == Header(f.(fseq := fseq))
  {
    HeaderFields(f);
  }

  lemma RestampPrefix(fb: seq<Byte>, fseq: nat, end: nat)
    requires HEADER_LEN + TRAILER_LEN <= |fb| && 9 <= end <= |fb| && fseq < WRAP
    ensures Restamped(fb, fseq)[..end] == fb[..5] + PutUint32(fseq) + fb[9..end]
  {
  }

  /** The encoded frame, cut around its fseq. */
  lemma EncodedParts(env: Env, f: Frame)
    requires Sendable(env, f)
    ensures var e, h := Encode(env, f), Header(f);
            && e[0] == h[0] && e[..5] == h[..5] && e[5..9] == h[5..9]
            && e[9..|e| - TRAILER_LEN] == h[9..] + f.payload
  {
    hide Header;
    var h, t := Header(f), Trailer(env, Header(f) + f.payload);
    assert Encode(env, f) == h + (f.payload + t);
  }

  /** Re-stamping an encoded frame and summing it again gives the encoding of the re-stamped frame. */
  lemma RestampEncoded(env: Env, f: Frame, fseq: nat)
    requires Sendable(env, f) && fseq < WRAP
    ensures Summed(env, Restamped(Encode(env, f), fseq)) == Encode(env, f.(fseq := fseq))
    ensures Uint32(Encode(env, f)[5..9]) == f.fseq && Encode(env, f)[0] == f.typ
  {
    hide Header, Restamped;
    RestampHeader(f, fseq);
    HeaderFields(f);
    GetPut32(f.fseq);
    EncodedParts(env, f);
    var e, g := Encode(env, f), f.(fseq := fseq);
    var end := |e| - TRAILER_LEN;
    RestampPrefix(e, fseq, end);
    var h := Header(f);
    assert h[..5] + PutUint32(fseq) + (h[9..] + f.payload) == (h[..5] + PutUint32(fseq) + h[9..]) + f.payload;
    assert Restamped(e, fseq)[..end] == Header(g) + g.payload;
  }

  /** process on an encoded frame with no damage armed. */
  lemma ProcessEncoded(env: Env, f: Frame, op: FrameOp, shift: nat)
    requires Sendable(env, f) && shift < WRAP && op.corrupt == NoCorrupt && !op.drop
    requires op.inject.After? ==> Injectable(env, op.inject.i)
    ensures var fseq := (f.fseq + shift) % WRAP;
            Process(env, Encode(env, f), op, shift) ==
            (Encode(env, f.(fseq := fseq))
             + (if op.inject.After? then Encode(env, InjectedFrame(op.inject.i, (fseq + 1) % WRAP)) else []),
             if op.inject.After? then (shift + 1) % WRAP else shift)
  {
    hide Encode, Summed, Restamped;
    var fseq := (f.fseq + shift) % WRAP;
    RestampEncoded(env, f, fseq);
    if shift == 0 {
      assert fseq == f.fseq && f.(fseq := fseq) == f;
      RestampSame(env, f);
    }
    assert Encode(env, f.(fseq := fseq)) + [] == Encode(env, f.(fseq := fseq));
  }

  lemma RestampSame(env: Env, f: Frame)
    requires Sendable(env, f)
    ensures Restamped(Encode(env, f), f.fseq) == Encode(env, f)
  {
    RestampHeader(f, f.fseq);
    HeaderFields(f);
    var e := Encode(env, f);
    assert e[5..9] == Header(f)[5..9];
    assert e[..5] + e[5..9] + e[9..] == e;
  }

  /** The header of an encoded frame between two frames: what startFrame decides. */
  lemma HeaderOf(env: Env, t: Tr, f: Frame)
    requires Valid(env, t) && AtBoundary(t) && Sendable(env, f)
    ensures var (op, a) := Match(t.armed, f.typ);
            var held := op != NO_OP || t.shift != 0;
            FeedAll(env, t, Header(f)) ==
            (t.(sent := IdleTr(t), inside := true, rest := |f.payload| + TRAILER_LEN, op := op, armed := a,
                hold := held,
                fb := if held then Header(f) else []),
             if held then [] else Header(f))
  {
    hide FeedAll, Feed1, Match, Header, Process;
    var h := Header(f);
    HeaderFields(f);
    HeaderRun(env, t, h);
    assert t.hdr + h == h;
    if IdleTr(t) { MatchIdle(t.armed, f.typ); }
    assert [] + h == h && h + [] == h;
    var (op, a) := Match(t.armed, f.typ);
    var held := op != NO_OP || t.shift != 0;
    var (t1, o) := HeaderChunk(env, t, h);
    assert o == if held then [] else h;
    assert t1.op == op && t1.armed == a && t1.hold == held && t1.fb == if held then h else [];
  }

  lemma MatchIdle(a: Armed, typ: Byte)
    requires Nothing(a)
    ensures Match(a, typ) == (NO_OP, a)
  {
  }

  /** process on an encoded frame with no damage armed: the frames to send, encoded. */
  lemma ProcessRelays(env: Env, f: Frame, op: FrameOp, shift: nat)
    requires Sendable(env, f) && shift < WRAP && op.corrupt == NoCorrupt
    requires op.inject.After? ==> Injectable(env, op.inject.i)
    ensures AllSendable(env, RelayOne(f, op, shift))
    ensures Process(env, Encode(env, f), op, shift) == (EncodeAll(env, RelayOne(f, op, shift)), ShiftAfter(op, shift))
  {
    hide Process, Encode;
    OneSendable(env, f, op, shift);
    if op.drop {
      DropProcess(env, Encode(env, f), op, shift);
    } else {
      ProcessEncoded(env, f, op, shift);
      var one := RelayOne(f, op, shift);
      var e0 := Encode(env, one[0]);
      assert e0 + [] == e0;
      if op.inject.After? {
        var e1 := Encode(env, one[1]);
        assert EncodeAll(env, one[1..]) == e1 + [] == e1;
      }
    }
  }

  /** The frame's end, its bytes all held or all forwarded. */
  lemma FrameEnd(env: Env, t: Tr, f: Frame)
    requires Sendable(env, f) && t.shift < WRAP && t.op.corrupt == NoCorrupt && t.raws == []
    requires t.op.inject.After? ==> Injectable(env, t.op.inject.i)
    requires t.hold ==> t.fb == Encode(env, f)
    requires !t.hold ==> t.op == NO_OP && t.shift == 0
    ensures AllSendable(env, RelayOne(f, t.op, t.shift))
    ensures EndFrame(env, t).0
         == t.(inside := false, hold := false, fb := [], shift := ShiftAfter(t.op, t.shift), raws := [])
    ensures t.hold ==> EndFrame(env, t).1 == EncodeAll(env, RelayOne(f, t.op, t.shift))
    ensures !t.hold ==> EndFrame(env, t).1 == [] && EncodeAll(env, RelayOne(f, t.op, t.shift)) == Encode(env, f)
  {
    hide Process, Encode;
    if t.hold {
      ProcessRelays(env, f, t.op, t.shift);
      var sent := EncodeAll(env, RelayOne(f, t.op, t.shift));
      assert sent + [] == sent;
    } else {
      assert RelayOne(f, t.op, t.shift) == [f];
      assert EncodeAll(env, [f]) == Encode(env, f) + [] == Encode(env, f);
    }
  }

  /** One encoded frame. */
  lemma OneFrame(env: Env, t: Tr, f: Frame)
    requires Valid(env, t) && Between(t) && Sendable(env, f) && InjectsFit(env, t.armed)
    ensures var (t1, o) := FeedAll(env, t, Encode(env, f));
            var (op, a) := Match(t.armed, f.typ);
            && AllSendable(env, RelayOne(f, op, t.shift)) && o == EncodeAll(env, RelayOne(f, op, t.shift))
            && Between(t1) && t1.armed == a && t1.shift == ShiftAfter(op, t.shift)
  {
    hide FeedAll, Feed1, Match, Header, EndFrame, RelayOne, EncodeAll, Process;
    var h, body := Header(f), f.payload + Trailer(env, Header(f) + f.payload);
    var e := Encode(env, f);
    assert e == h + body;
    MatchKeeps(env, t.armed, f.typ);
    MatchNoCorrupt(t.armed, f.typ);
    HeaderOf(env, t, f);
    var (t1, o1) := FeedAll(env, t, h);
    FeedSplit(env, t, h, body);
    BodyRun(env, t1, body);
    var last := t1.(rest := 0, fb := if t1.hold then t1.fb + body else t1.fb);
    FrameEnd(env, last, f);
    var o2 := FeedAll(env, t1, body).1;
    assert t1.hold ==> o1 + o2 == EncodeAll(env, RelayOne(f, last.op, t.shift));
    assert !t1.hold ==> o1 + o2 == e;
  }

  lemma DropProcess(env: Env, fb: seq<Byte>, op: FrameOp, shift: nat)
    requires |fb| >= HEADER_LEN + TRAILER_LEN && shift < WRAP && op.drop
    requires op.inject.After? ==> Injectable(env, op.inject.i)
    ensures Process(env, fb, op, shift) == ([], shift)
  {
  }

  lemma MatchNoCorrupt(a: Armed, typ: Byte)
    requires a.corrupts == []
    ensures var (op, r) := Match(a, typ); op.corrupt == NoCorrupt && r.corrupts == []
  {
  }

  /** Frames go in, the relayed frames come out, each a valid encoding. */
  lemma {:induction false} RelayFrames(env: Env, t: Tr, frames: seq<Frame>)
    requires Valid(env, t) && Between(t) && AllSendable(env, frames) && InjectsFit(env, t.armed)
    ensures AllSendable(env, Relay(frames, t.armed, t.shift))
    ensures var (t1, o) := FeedAll(env, t, EncodeAll(env, frames));
            Between(t1) && o == EncodeAll(env, Relay(frames, t.armed, t.shift))
    decreases |frames|
  {
    hide FeedAll, Feed1, Match, Encode, Valid, RelayOne, ShiftAfter;
    RelaySendable(env, frames, t.armed, t.shift);
    if frames == [] {
      FeedNone(env, t, EncodeAll(env, frames));
      assert EncodeAll(env, frames)[..0] == EncodeAll(env, frames);
    } else {
      var f, rest := frames[0], frames[1..];
      OneFrame(env, t, f);
      var (t1, o1) := FeedAll(env, t, Encode(env, f));
      FeedSplit(env, t, Encode(env, f), EncodeAll(env, rest));
      MatchKeeps(env, t.armed, f.typ);
      RelayFrames(env, t1, rest);
      EncodeAppend(env, RelayOne(f, Match(t.armed, f.typ).0, t.shift), Relay(rest, t1.armed, t1.shift));
    }
  }

  // ---- the numbering ----

  /** Numbered n, n+1, ... modulo 2^32. */
  ghost predicate Numbered(frames: seq<Frame>, n: nat)
    decreases |frames|
  {
    frames == [] || (frames[0].fseq == n % WRAP && Numbered(frames[1..], n + 1))
  }

  lemma {:induction false} NumberedAt(frames: seq<Frame>, n: nat, i: nat)
    requires Numbered(frames, n) && i < |frames|
    ensures frames[i].fseq == (n + i) % WRAP
    decreases i
  {
    if i > 0 { NumberedAt(frames[1..], n + 1, i - 1); }
  }

  lemma ModAdd(a: nat, b: nat)
    ensures (a % WRAP + b) % WRAP == (a + b) % WRAP
    ensures (a + b % WRAP) % WRAP == (a + b) % WRAP
  {
    ModShift(a % WRAP + b, a / WRAP);
    ModShift(a + b % WRAP, b / WRAP);
  }

  lemma ModShift(x: nat, q: nat)
    ensures (x + q * WRAP) % WRAP == x % WRAP
  {
    ModUnique(x + q * WRAP, WRAP, x / WRAP + q, x % WRAP);
  }

  lemma {:induction false} NumberedMod(frames: seq<Frame>, n: nat, m: nat)
    requires n % WRAP == m % WRAP && Numbered(frames, n)
    ensures Numbered(frames, m)
    decreases |frames|
  {
    if frames != [] {
      ModAdd(n, 1);
      ModAdd(m, 1);
      NumberedMod(frames[1..], n + 1, m + 1);
    }
  }

  lemma ShiftedNumbers(x: nat, shift: nat, n: nat)
    requires x == n % WRAP
    ensures var y := (x + shift) % WRAP;
            && y == (n + shift) % WRAP && (y + 1) % WRAP == (n + shift + 1) % WRAP
            && (n + 1 + (shift + 1) % WRAP) % WRAP == (n + shift + 2) % WRAP
  {
    ModAdd(n, shift);
    ModAdd(n + shift, 1);
    ModAdd(n + 1, shift + 1);
  }

  /** A stream numbered without a hole comes out numbered without a hole, whatever
      frames are injected into it. */
  lemma {:induction false} RelayNumbered(frames: seq<Frame>, a: Armed, shift: nat, n: nat)
    requires Numbered(frames, n) && a.drops == [] && shift < WRAP
    ensures Numbered(Relay(frames, a, shift), n + shift)
    decreases |frames|
  {
    hide Match, RelayOne;
    if frames != [] {
      var f := frames[0];
      MatchNoDrop(a, f.typ);
      var (op, a1) := Match(a, f.typ);
      RelayNumbered(frames[1..], a1, ShiftAfter(op, shift), n + 1);
      NumberedStep(f, op, Relay(frames[1..], a1, ShiftAfter(op, shift)), shift, n);
    }
  }

  lemma NumberedStep(f: Frame, op: FrameOp, tail: seq<Frame>, shift: nat, n: nat)
    requires f.fseq == n % WRAP && shift < WRAP && !op.drop && Numbered(tail, n + 1 + ShiftAfter(op, shift))
    ensures Numbered(RelayOne(f, op, shift) + tail, n + shift)
  {
    hide Numbered;
    ShiftedNumbers(f.fseq, shift, n);
    var one := RelayOne(f, op, shift);
    if op.inject.After? {
      NumberedMod(tail, n + 1 + (shift + 1) % WRAP, n + shift + 2);
      NumberedCons(one[1], tail, n + shift + 1);
      NumberedCons(one[0], [one[1]] + tail, n + shift);
      assert [one[0]] + ([one[1]] + tail) == one + tail;
    } else {
      NumberedCons(one[0], tail, n + shift);
    }
  }

  lemma NumberedCons(f: Frame, frames: seq<Frame>, n: nat)
    requires f.fseq == n % WRAP && Numbered(frames, n + 1)
    ensures Numbered([f] + frames, n)
  {
    assert ([f] + frames)[1..] == frames;
  }

  lemma MatchNoDrop(a: Armed, typ: Byte)
    requires a.drops == []
    ensures var (op, r) := Match(a, typ); !op.drop && r.drops == []
  {
  }

  /** Through any split into chunks: an unbroken stream of frames, injections
      armed, arrives as valid frames with unbroken numbers. */
  lemma InjectedStream(env: Env, t: Tr, frames: seq<Frame>, n: nat, chunks: seq<seq<Byte>>)
    requires Valid(env, t) && Between(t) && AllSendable(env, frames) && InjectsFit(env, t.armed)
    requires Numbered(frames, n) && t.armed.drops == []
    requires Flat(chunks) == EncodeAll(env, frames)
    ensures var got := Relay(frames, t.armed, t.shift);
            && AllSendable(env, got) && FeedChunks(env, t, chunks).1 == EncodeAll(env, got)
            && forall i :: 0 <= i < |got| ==> got[i].fseq == (n + t.shift + i) % WRAP
  {
    hide FeedAll, FeedChunks, EncodeAll, Relay;
    ChunkIndependence(env, t, chunks);
    RelayFrames(env, t, frames);
    RelayNumbered(frames, t.armed, t.shift, n);
    var got := Relay(frames, t.armed, t.shift);
    forall i | 0 <= i < |got| ensures got[i].fseq == (n + t.shift + i) % WRAP {
      NumberedAt(got, n + t.shift, i);
    }
  }

  // ---- damage ----

  lemma FlipTwice(b: Byte)
    ensures Flip(b) != b && Flip(Flip(b)) == b
  {
  }

  /** A damaged frame differs from the undamaged one in exactly one bit, and no
      trailer is recomputed over the damage. */
  lemma DamageIsOneBit(env: Env, fb: seq<Byte>, op: FrameOp, shift: nat)
    requires |fb| >= HEADER_LEN + TRAILER_LEN && shift < WRAP && !op.drop && op.inject == NoInject
    requires op.corrupt in {CorruptHeader, CorruptPayload, CorruptTrailer}
    ensures var clean := Process(env, fb, op.(corrupt := NoCorrupt), shift).0;
            var bad := Process(env, fb, op, shift).0;
            var at := FlipAt(clean, op.corrupt);
            && |bad| == |clean| == |fb| && bad[at] == Flip(clean[at]) != clean[at]
            && forall i :: 0 <= i < |bad| && i != at ==> bad[i] == clean[i]
  {
    hide Restamped, Summed;
    var fseq := (Uint32(fb[5..9]) + shift) % WRAP;
    var b1 := Restamped(fb, fseq);
    var b3 := if shift != 0 then Summed(env, b1) else b1;
    FlipTwice(b3[FlipAt(b3, op.corrupt)]);
  }

  /** A forged ACK is again a valid frame: the delivered offset is 2^40 further, its fseq shifted as any frame's, all
      else as it was. */
  lemma ForgedAckIsValid(env: Env, f: Frame, op: FrameOp, shift: nat)
    requires Sendable(env, f) && f.typ == FRAME_ACK && |f.payload| >= 8 && shift < WRAP
    requires !op.drop && op.inject == NoInject && op.corrupt == ForgeAck
    ensures var moved := f.(fseq := (f.fseq + shift) % WRAP,
                            payload := PutUint64((Uint64(f.payload) + FORGE_BEYOND) % WRAP64) + f.payload[8..]);
            Process(env, Encode(env, f), op, shift).0 == Encode(env, moved)
  {
    hide Header, PutUint64, Uint64, PutUint32, Encode, Restamped, Forged, Summed;
    var e, fseq := Encode(env, f), (f.fseq + shift) % WRAP;
    RestampEncoded(env, f, fseq);
    ForgedEncoded(env, f.(fseq := fseq), Restamped(e, fseq));
  }

  /** Forging and summing the bytes of an encoded frame, whatever its trailer. */
  lemma ForgedEncoded(env: Env, f: Frame, b: seq<Byte>)
    requires Sendable(env, f) && |f.payload| >= 8 && |b| == HEADER_LEN + |f.payload| + TRAILER_LEN
    requires Summed(env, b) == Encode(env, f)
    ensures var moved := f.(payload := PutUint64((Uint64(f.payload) + FORGE_BEYOND) % WRAP64) + f.payload[8..]);
            Summed(env, Forged(b)) == Encode(env, moved)
  {
    hide Header, PutUint64, Uint64;
    var end := |b| - TRAILER_LEN;
    var e := Encode(env, f);
    assert b[..end] == e[..end] by { assert Summed(env, b)[..end] == b[..end]; }
    assert e[..end] == Header(f) + f.payload;
    assert b[..HEADER_LEN] == b[..end][..HEADER_LEN] == Header(f);
    assert b[HEADER_LEN..end] == b[..end][HEADER_LEN..] == f.payload;
    assert b[HEADER_LEN..HEADER_LEN + 8] == b[HEADER_LEN..end][..8] == f.payload[..8];
    assert b[HEADER_LEN + 8..end] == b[HEADER_LEN..end][8..] == f.payload[8..];
    Uint64Prefix(f.payload);
    var moved := f.(payload := PutUint64((Uint64(f.payload) + FORGE_BEYOND) % WRAP64) + f.payload[8..]);
    var g := Forged(b);
    SameHeader(f, moved);
    assert g[..end] == Header(moved) + moved.payload;
  }

  lemma Uint64Prefix(p: seq<Byte>)
    requires |p| >= 8
    ensures Uint64(p[..8]) == Uint64(p)
  {
    assert p[..8][..4] == p[..4] && p[..8][4..8] == p[4..8];
  }

  lemma SameHeader(f: Frame, g: Frame)
    requires f.fseq < WRAP && f.handle < WRAP && |f.payload| < 0x100_0000
    requires g == f.(payload := g.payload) && |g.payload| == |f.payload|
    ensures Header(f) == Header(g)
  {
  }
}
