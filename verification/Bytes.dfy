/** Bytes and big-endian numbers. */
module Bytes {
  type Byte = b: int | 0 <= b < 256

  const WRAP := 0x1_0000_0000   // 2^32

  function PutUint32(x: nat): (b: seq<Byte>)
    requires x < WRAP
    ensures |b| == 4
  {
    [x / 0x100_0000, x / 0x1_0000 % 256, x / 256 % 256, x % 256]
  }

  function Uint32(b: seq<Byte>): (x: nat)
    requires |b| >= 4
    ensures x < WRAP
  {
    var b0: int, b1: int, b2: int, b3: int := b[0], b[1], b[2], b[3];
    b0 * 0x100_0000 + b1 * 0x1_0000 + b2 * 256 + b3
  }

  lemma GetPut32(x: nat)
    requires x < WRAP
    ensures Uint32(PutUint32(x)) == x
  {
    assert x == x / 256 * 256 + x % 256;
    assert x / 256 == x / 256 / 256 * 256 + x / 256 % 256 && x / 256 / 256 == x / 0x1_0000;
    assert x / 0x1_0000 == x / 0x1_0000 / 256 * 256 + x / 0x1_0000 % 256 && x / 0x1_0000 / 256 == x / 0x100_0000;
  }

  lemma PutGet32(b: seq<Byte>)
    requires |b| == 4
    ensures PutUint32(Uint32(b)) == b
  {
    var b0: int, b1: int, b2: int, b3: int := b[0], b[1], b[2], b[3];
    var x := Uint32(b);
    assert x % 256 == b3 && x / 256 == b0 * 0x1_0000 + b1 * 256 + b2;
    assert x / 256 % 256 == b2 && x / 0x1_0000 == b0 * 256 + b1;
    assert x / 0x1_0000 % 256 == b1 && x / 0x100_0000 == b0;
  }

  function PutUint16(x: nat): (b: seq<Byte>)
    requires x < 0x1_0000
    ensures |b| == 2
  {
    [x / 256, x % 256]
  }

  function Uint16(b: seq<Byte>): (x: nat)
    requires |b| >= 2
    ensures x < 0x1_0000
  {
    var b0: int, b1: int := b[0], b[1];
    b0 * 256 + b1
  }

  function PutUint24(x: nat): (b: seq<Byte>)
    requires x < 0x100_0000
    ensures |b| == 3
  {
    [x / 0x1_0000, x / 256 % 256, x % 256]
  }

  function Uint24(b: seq<Byte>): (x: nat)
    requires |b| >= 3
    ensures x < 0x100_0000
  {
    var b0: int, b1: int, b2: int := b[0], b[1], b[2];
    b0 * 0x1_0000 + b1 * 256 + b2
  }

  lemma GetPut24(x: nat)
    requires x < 0x100_0000
    ensures Uint24(PutUint24(x)) == x
  {
    assert x == x / 256 * 256 + x % 256;
    assert x / 256 == x / 256 / 256 * 256 + x / 256 % 256 && x / 256 / 256 == x / 0x1_0000;
  }
}
