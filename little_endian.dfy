/**
 * Little-endian integer fields as a DataView writes them with
 * `littleEndian = true`: the value is first reduced modulo 2^16 or 2^32
 * (ToUint16 / ToUint32 / ToInt16 all agree on the stored bit pattern),
 * then stored low byte first.  The decoders read such a field back.
 */
module LittleEndian {

  /** One byte of an ArrayBuffer. */
  type Byte = x: int | 0 <= x < 256

  const Two15: int := 0x8000
  const Two16: int := 0x1_0000
  const Two32: int := 0x1_0000_0000

  /** The two bytes stored by `setUint16(offset, v, true)` or `setInt16(offset, v, true)`. */
  function Le16(v: int): (r: seq<Byte>)
    ensures |r| == 2
  {
    var w := v % Two16;
    [w % 256, w / 256]
  }

  /** The four bytes stored by `setUint32(offset, v, true)`. */
  function Le32(v: int): (r: seq<Byte>)
    ensures |r| == 4
  {
    var w := v % Two32;
    [w % 256, (w / 0x100) % 256, (w / 0x1_0000) % 256, w / 0x100_0000]
  }

  /** `getUint16(offset, true)`: the unsigned value of two little-endian bytes. */
  function U16(bs: seq<Byte>): (r: int)
    requires |bs| == 2
    ensures 0 <= r < Two16
  {
    bs[0] as int + 0x100 * bs[1] as int
  }

  /** `getUint32(offset, true)`: the unsigned value of four little-endian bytes. */
  function U32(bs: seq<Byte>): (r: int)
    requires |bs| == 4
    ensures 0 <= r < Two32
  {
    bs[0] as int + 0x100 * bs[1] as int + 0x1_0000 * bs[2] as int + 0x100_0000 * bs[3] as int
  }

  /** `getInt16(offset, true)`: the two's-complement value of two little-endian bytes. */
  function I16(bs: seq<Byte>): (r: int)
    requires |bs| == 2
    ensures -Two15 <= r < Two15
    ensures (r - U16(bs)) % Two16 == 0
  {
    var u := U16(bs);
    if u < Two15 then u else u - Two16
  }

  /** Reading a 16-bit field back gives the value written, reduced modulo 2^16. */
  lemma U16OfLe16(v: int)
    ensures U16(Le16(v)) == v % Two16
  {
    var w := v % Two16;
    assert w == (w % 256) + 0x100 * (w / 256);
  }

  /** Reading a 32-bit field back gives the value written, reduced modulo 2^32. */
  lemma U32OfLe32(v: int)
    ensures U32(Le32(v)) == v % Two32
  {
    var w := v % Two32;
    var b0, q0 := w % 256, w / 0x100;
    var b1, q1 := q0 % 256, q0 / 256;
    var b2, b3 := q1 % 256, q1 / 256;
    assert w == b0 + 0x100 * q0;
    assert q0 == b1 + 0x100 * q1;
    assert q1 == b2 + 0x100 * b3;
    assert q1 == w / 0x1_0000;
    assert b3 == w / 0x100_0000;
    assert Le32(v) == [b0, b1, b2, b3];
  }

  /** A value that fits in 16 bits is read back unchanged. */
  lemma U16OfLe16Exact(v: int)
    requires 0 <= v < Two16
    ensures U16(Le16(v)) == v
  {
    U16OfLe16(v);
  }

  /** A value that fits in 32 bits is read back unchanged. */
  lemma U32OfLe32Exact(v: int)
    requires 0 <= v < Two32
    ensures U32(Le32(v)) == v
  {
    U32OfLe32(v);
  }

  /** A signed 16-bit value written by `setInt16` is read back unchanged by `getInt16`. */
  lemma I16OfLe16(v: int)
    requires -Two15 <= v < Two15
    ensures I16(Le16(v)) == v
  {
    U16OfLe16(v);
  }

  /** Reduction leaves a value that already fits unchanged. */
  lemma ModSmall(x: int, m: int)
    requires 0 <= x < m
    ensures x % m == x
  {
  }
}
