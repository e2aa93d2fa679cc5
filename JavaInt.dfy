/**
 * Java's fixed-width integer arithmetic, written out over Dafny's unbounded `int`:
 * 32-bit `int` wrap-around, the `(long)` cast of a double (truncation toward zero,
 * saturating at the `long` range) and the `(int)` cast of a `long` (wrap-around).
 */
module JavaInt {

  const IntMin: int := -0x8000_0000
  const IntMax: int := 0x7FFF_FFFF
  const IntModulus: int := 0x1_0000_0000
  const LongMin: int := -0x8000_0000_0000_0000
  const LongMax: int := 0x7FFF_FFFF_FFFF_FFFF

  /** Values representable as a Java `int`. */
  predicate IsInt(x: int) {
    IntMin <= x <= IntMax
  }

  /** The Java `int` that an exact integer result wraps to (two's complement, 32 bits). */
  function WrapInt(x: int): (r: int)
    ensures IsInt(r)
    ensures (x - r) % IntModulus == 0
    ensures IsInt(x) ==> r == x
  {
    var m := (x - IntMin) % IntModulus;
    assert x - IntMin == IntModulus * ((x - IntMin) / IntModulus) + m;
    m + IntMin
  }

  /** A sum of two non-negative `int`s that does not fit wraps to a negative value. */
  lemma WrapIntOfNonNegativeSum(x: int)
    requires 0 <= x <= 2 * IntMax
    ensures x <= IntMax ==> WrapInt(x) == x
    ensures x > IntMax ==> WrapInt(x) == x - IntModulus && WrapInt(x) < 0
  {
    if x > IntMax {
      assert (x - IntMin) % IntModulus == x - IntMin - IntModulus;
    }
  }

  /** Truncation of a real toward zero, as Java's `(long)` does before saturating. */
  function TruncateTowardZero(x: real): (r: int)
    ensures 0.0 <= x ==> r as real <= x < r as real + 1.0
    ensures x <= 0.0 ==> r as real - 1.0 < x <= r as real
  {
    if x >= 0.0 then x.Floor else -((-x).Floor)
  }

  /** Java's `(long)` cast of a double: truncate toward zero, saturate at the `long` range. */
  function LongCast(x: real): (r: int)
    ensures LongMin <= r <= LongMax
    ensures LongMin as real <= x <= LongMax as real ==> r == TruncateTowardZero(x)
  {
    var t := TruncateTowardZero(x);
    if t < LongMin then LongMin else if t > LongMax then LongMax else t
  }
}
