/**
  Bytes and the little-endian integer fields a `DataView` writes.

  `setUint16`/`setInt16` and `setUint32` first reduce their argument modulo
  2^16 or 2^32 (the ECMAScript ToUint16/ToInt16/ToUint32 conversions of an
  integral number); the bytes of the reduced value are then stored lowest
  byte first when the little-endian flag is set.
 */
module Bytes {

  newtype byte = b: int | 0 <= b < 256

  const TWO_16: int := 0x1_0000
  const TWO_32: int := 0x1_0000_0000

  /** The two bytes `setUint16(offset, v, true)` (or `setInt16`) stores. */
  function Uint16Bytes(v: int): (r: seq<byte>)
    ensures |r| == 2
  {
    var u := v % TWO_16;
    [(u % 256) as byte, (u / 256) as byte]
  }

  /** The four bytes `setUint32(offset, v, true)` stores. */
  function Uint32Bytes(v: int): (r: seq<byte>)
    ensures |r| == 4
  {
    var u := v % TWO_32;
    [(u % 256) as byte, (u / 256 % 256) as byte, (u / 0x1_0000 % 256) as byte, (u / 0x100_0000) as byte]
  }

  /** `getUint16(offset, true)`. */
  function ReadUint16(s: seq<byte>, offset: nat): int
    requires offset + 2 <= |s|
  {
    s[offset] as int + 256 * s[offset + 1] as int
  }

  /** `getUint32(offset, true)`. */
  function ReadUint32(s: seq<byte>, offset: nat): int
    requires offset + 4 <= |s|
  {
    s[offset] as int + 256 * s[offset + 1] as int
    + 0x1_0000 * s[offset + 2] as int + 0x100_0000 * s[offset + 3] as int
  }

  /** `getInt16(offset, true)`: two's complement reading of two bytes. */
  function ReadInt16(s: seq<byte>, offset: nat): int
    requires offset + 2 <= |s|
  {
    var u := ReadUint16(s, offset);
    if u >= 0x8000 then u - TWO_16 else u
  }

  /** Reading a 16-bit field back gives the written value modulo 2^16. */
  lemma Uint16RoundTrip(v: int)
    ensures ReadUint16(Uint16Bytes(v), 0) == v % TWO_16
  {
    var u := v % TWO_16;
    assert u == (u % 256) + 256 * (u / 256);
  }

  /** A signed 16-bit value is read back unchanged by `getInt16`. */
  lemma Int16RoundTrip(v: int)
    requires -0x8000 <= v < 0x8000
    ensures ReadInt16(Uint16Bytes(v), 0) == v
  {
    Uint16RoundTrip(v);
    if v < 0 {
      assert v % TWO_16 == v + TWO_16;
    }
  }

  /** Reading a 32-bit field back gives the written value modulo 2^32. */
  lemma Uint32RoundTrip(v: int)
    ensures ReadUint32(Uint32Bytes(v), 0) == v % TWO_32
  {
    var u := v % TWO_32;
    var b0, b1, b2, b3 := u % 256, u / 256 % 256, u / 0x1_0000 % 256, u / 0x100_0000;
    assert u / 256 == b1 + 256 * (u / 0x1_0000);
    assert u / 0x1_0000 == b2 + 256 * b3;
    assert u == b0 + 256 * (u / 256);
  }

  /** A field read at an offset only looks at the bytes of that field. */
  lemma ReadUint32At(s: seq<byte>, offset: nat, v: int)
    requires offset + 4 <= |s| && s[offset..offset + 4] == Uint32Bytes(v)
    ensures ReadUint32(s, offset) == v % TWO_32
  {
    var f := s[offset..offset + 4];
    assert s[offset] == f[0] && s[offset + 1] == f[1] && s[offset + 2] == f[2] && s[offset + 3] == f[3];
    Uint32RoundTrip(v);
  }

  lemma ReadUint16At(s: seq<byte>, offset: nat, v: int)
    requires offset + 2 <= |s| && s[offset..offset + 2] == Uint16Bytes(v)
    ensures ReadUint16(s, offset) == v % TWO_16
  {
    var f := s[offset..offset + 2];
    assert s[offset] == f[0] && s[offset + 1] == f[1];
    Uint16RoundTrip(v);
  }

  lemma ReadInt16At(s: seq<byte>, offset: nat, v: int)
    requires -0x8000 <= v < 0x8000
    requires offset + 2 <= |s| && s[offset..offset + 2] == Uint16Bytes(v)
    ensures ReadInt16(s, offset) == v
  {
    var f := s[offset..offset + 2];
    assert s[offset] == f[0] && s[offset + 1] == f[1];
    Int16RoundTrip(v);
  }

  /** The bytes of an ASCII string, one per character (`charCodeAt` stored by `setUint8`). */
  function Ascii(s: string): (r: seq<byte>)
    requires forall i :: 0 <= i < |s| ==> s[i] as int < 128
    ensures |r| == |s|
    ensures forall i :: 0 <= i < |s| ==> r[i] as int == s[i] as int
  {
    seq(|s|, i requires 0 <= i < |s| => s[i] as int as byte)
  }
}
