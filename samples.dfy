/**
 * Conversion of one PCM sample to a 16-bit integer, as `bufferToWave` does
 * it: clamp to [-1, 1] with `Math.max(-1, Math.min(1, s))`, scale by 0x7fff,
 * and let `DataView.setInt16` apply ECMAScript's ToInt16 (truncation toward
 * zero, then reduction to the signed 16-bit range).  Samples are exact reals.
 */
module Samples {
  import opened LittleEndian

  /** `Math.max(-1, Math.min(1, s))`. */
  function Clamp(s: real): (r: real)
    ensures -1.0 <= r <= 1.0
    ensures -1.0 <= s <= 1.0 ==> r == s
    ensures s > 1.0 ==> r == 1.0
    ensures s < -1.0 ==> r == -1.0
  {
    Max(-1.0, Min(1.0, s))
  }

  function Min(a: real, b: real): real { if a <= b then a else b }

  function Max(a: real, b: real): real { if a >= b then a else b }

  /** Truncation toward zero (the integer part), as ToInt16 does before wrapping. */
  function Trunc(x: real): (r: int)
    ensures x >= 0.0 ==> 0 <= r && r as real <= x < r as real + 1.0
    ensures x < 0.0 ==> r <= 0 && r as real - 1.0 < x <= r as real
  {
    if x >= 0.0 then x.Floor else -((-x).Floor)
  }

  /** ECMAScript ToInt16 on a finite number: truncate, then take the signed residue modulo 2^16. */
  function ToInt16(x: real): (r: int)
    ensures -Two15 <= r < Two15
    ensures (r - Trunc(x)) % Two16 == 0
  {
    var w := Trunc(x) % Two16;
    if w < Two15 then w else w - Two16
  }

  /** The 16-bit sample value stored for sample `s`. */
  function Quantize(s: real): int
  {
    ToInt16(Clamp(s) * 32767.0)
  }

  /** ToInt16 is the identity on the truncation of anything already in the 16-bit range. */
  lemma ToInt16InRange(x: real)
    requires -Two15 as real < x < Two15 as real
    ensures ToInt16(x) == Trunc(x)
  {
  }

  /**
   * A stored sample never wraps: it is the truncation of the clamped, scaled
   * sample, so it lies in [-32767, 32767] and is within one step of it,
   * rounded toward zero.
   */
  lemma QuantizeBounds(s: real)
    ensures Quantize(s) == Trunc(Clamp(s) * 32767.0)
    ensures -32767 <= Quantize(s) <= 32767
    ensures var x := Clamp(s) * 32767.0;
            x >= 0.0 ==> 0.0 <= x - Quantize(s) as real < 1.0
    ensures var x := Clamp(s) * 32767.0;
            x < 0.0 ==> 0.0 <= Quantize(s) as real - x < 1.0
  {
    ToInt16InRange(Clamp(s) * 32767.0);
  }

  /** Inputs outside [-1, 1] saturate at the extreme codes. */
  lemma QuantizeSaturates(s: real)
    ensures s >= 1.0 ==> Quantize(s) == 32767
    ensures s <= -1.0 ==> Quantize(s) == -32767
    ensures s == 0.0 ==> Quantize(s) == 0
  {
    QuantizeBounds(s);
  }

  /** Truncation is monotone. */
  lemma TruncMonotone(x: real, y: real)
    requires x <= y
    ensures Trunc(x) <= Trunc(y)
  {
    if x >= 0.0 || y < 0.0 {
      if x >= 0.0 {
        assert x.Floor <= y.Floor;
      } else {
        assert (-y).Floor <= (-x).Floor;
      }
    }
  }

  /** A louder input never gives a smaller code. */
  lemma QuantizeMonotone(s: real, t: real)
    requires s <= t
    ensures Quantize(s) <= Quantize(t)
  {
    QuantizeBounds(s);
    QuantizeBounds(t);
    assert Clamp(s) <= Clamp(t);
    TruncMonotone(Clamp(s) * 32767.0, Clamp(t) * 32767.0);
  }

  /** Quantisation is odd-symmetric: negating a sample negates its code. */
  lemma QuantizeOdd(s: real)
    ensures Quantize(-s) == -Quantize(s)
  {
    QuantizeBounds(s);
    QuantizeBounds(-s);
    assert Clamp(-s) == -Clamp(s);
    assert Clamp(-s) * 32767.0 == -(Clamp(s) * 32767.0);
  }
}
