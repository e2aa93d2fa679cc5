/**
 * Triangle geometry of the shape routines: the triangle-inequality test, the
 * reordering of the sides so that the longest is driven first, and the exterior
 * angles turned after each side.
 *
 * The interior angles come from the law of cosines through `Math.acos` and
 * `Math.toDegrees`, which this model does not compute: they are supplied by a
 * parameter `angleOpposite(x, y, z)`, the interior angle in degrees opposite side `x`
 * of a triangle with sides x, y, z.
 */
module Geometry {
  import opened JavaInt

  /** The strict triangle inequality on all three pairings, over mathematical integers. */
  predicate IsValidTriangle(a: int, b: int, c: int) {
    a + b > c && a + c > b && b + c > a
  }

  /**
   * `isValidTriangle` exactly as the source evaluates it: each sum is a Java `int`
   * addition and wraps around on overflow.
   */
  predicate IsValidTriangleInt32(a: int, b: int, c: int) {
    WrapInt(a + b) > c && WrapInt(a + c) > b && WrapInt(b + c) > a
  }

  /**
   * The corrected test does not depend on the order of the sides, and accepts only
   * positive sides.
   */
  lemma ValidTriangleSymmetric(a: int, b: int, c: int)
    ensures IsValidTriangle(a, b, c) == IsValidTriangle(b, a, c) == IsValidTriangle(a, c, b)
    ensures IsValidTriangle(a, b, c) == IsValidTriangle(c, b, a) == IsValidTriangle(b, c, a)
    ensures IsValidTriangle(a, b, c) == IsValidTriangle(c, a, b)
    ensures IsValidTriangle(a, b, c) ==> a > 0 && b > 0 && c > 0
  {
  }

  /**
   * The test as written does not depend on the order of the sides either (each sum
   * wraps the same way in both orders), and on non-negative `int` sides it accepts
   * only positive ones.
   */
  lemma Int32TriangleSymmetric(a: int, b: int, c: int)
    ensures IsValidTriangleInt32(a, b, c) == IsValidTriangleInt32(b, a, c) == IsValidTriangleInt32(a, c, b)
    ensures IsValidTriangleInt32(a, b, c) == IsValidTriangleInt32(c, b, a) == IsValidTriangleInt32(b, c, a)
    ensures IsValidTriangleInt32(a, b, c) == IsValidTriangleInt32(c, a, b)
    ensures 0 <= a <= IntMax && 0 <= b <= IntMax && 0 <= c <= IntMax && IsValidTriangleInt32(a, b, c) ==>
      0 < a && 0 < b && 0 < c
  {
    if 0 <= a <= IntMax && 0 <= b <= IntMax && 0 <= c <= IntMax {
      Int32TriangleOnNonNegative(a, b, c);
    }
  }

  /**
   * The Java test overflows: an equilateral triangle whose doubled side exceeds the
   * `int` range is rejected.
   */
  lemma Int32TriangleRejectsLargeEquilateral(n: int)
    requires IntMax < n + n && n <= IntMax
    ensures IsValidTriangle(n, n, n)
    ensures !IsValidTriangleInt32(n, n, n)
  {
    WrapIntOfNonNegativeSum(n + n);
  }

  /** The Java test overflows: three `int`-min sides pass it. */
  lemma Int32TriangleAcceptsNegativeSides()
    ensures !IsValidTriangle(IntMin, IntMin, IntMin)
    ensures IsValidTriangleInt32(IntMin, IntMin, IntMin)
  {
    assert WrapInt(IntMin + IntMin) == 0 by {
      assert (IntMin + IntMin - IntMin) % IntModulus == IntModulus / 2;
    }
  }

  /**
   * On non-negative `int` sides, which is all the descriptor parser can produce,
   * the Java test only ever errs by rejecting: what it accepts is a real triangle,
   * and the two agree whenever no pairwise sum overflows.
   */
  lemma Int32TriangleOnNonNegative(a: int, b: int, c: int)
    requires 0 <= a <= IntMax && 0 <= b <= IntMax && 0 <= c <= IntMax
    ensures IsValidTriangleInt32(a, b, c) ==> IsValidTriangle(a, b, c)
    ensures IsInt(a + b) && IsInt(a + c) && IsInt(b + c) ==>
      (IsValidTriangleInt32(a, b, c) <==> IsValidTriangle(a, b, c))
  {
    WrapIntOfNonNegativeSum(a + b);
    WrapIntOfNonNegativeSum(a + c);
    WrapIntOfNonNegativeSum(b + c);
  }

  // ---------------------------------------------------------------------------
  // Side order
  // ---------------------------------------------------------------------------

  datatype SideOrder = SideOrder(first: int, second: int, third: int)

  function Max(x: int, y: int): int {
    if x >= y then x else y
  }

  /** Which input side `makeTriangle` drives first: the earliest one that is longest. */
  function LongestIndex(a: int, b: int, c: int): (k: nat)
    ensures k < 3
    ensures a <= [a, b, c][k] && b <= [a, b, c][k] && c <= [a, b, c][k]
    ensures forall j :: 0 <= j < k ==> [a, b, c][j] < [a, b, c][k]
  {
    var longestSide := Max(a, Max(b, c));
    if longestSide == a then 0 else if longestSide == b then 1 else 2
  }

  /**
   * `makeTriangle`'s reordering: the longest side first, the other two in their
   * original relative order.
   */
  function OrderSides(a: int, b: int, c: int): (r: SideOrder)
    ensures var sides, k := [a, b, c], LongestIndex(a, b, c);
      r.first == sides[k] && [r.second, r.third] == sides[..k] + sides[k + 1..]
  {
    var longestSide := Max(a, Max(b, c));
    if longestSide == a then SideOrder(a, b, c)
    else if longestSide == b then SideOrder(b, a, c)
    else SideOrder(c, a, b)
  }

  /**
   * The reordering is a permutation of the input whose first side is a maximum,
   * chosen as the earliest maximum on a tie, with the other two in input order.
   */
  lemma OrderSidesProperties(a: int, b: int, c: int)
    ensures var r := OrderSides(a, b, c);
      && multiset{r.first, r.second, r.third} == multiset{a, b, c}
      && r.first >= a && r.first >= b && r.first >= c
      && (r.first == a || (a < r.first && (r.first == b || b < r.first)))
      && (r.first == a ==> r.second == b && r.third == c)
      && (r.first != a && r.first == b ==> r.second == a && r.third == c)
      && (r.first != a && r.first != b ==> r.second == a && r.third == b)
  {
    var sides, k := [a, b, c], LongestIndex(a, b, c);
    var r := OrderSides(a, b, c);
    if k == 0 {
      assert sides[1..] == [b, c];
    } else if k == 1 {
      assert sides[..1] + sides[2..] == [a, c];
      assert a < b;
    } else {
      assert sides[..2] == [a, b];
      assert a < c && b < c;
    }
  }

  // ---------------------------------------------------------------------------
  // Angles
  // ---------------------------------------------------------------------------

  datatype ExteriorAngles = ExteriorAngles(atFirst: real, atSecond: real, atThird: real)

  /**
   * The exterior angles at the three reordered sides: 180 minus the interior angle,
   * where the third interior angle is whatever makes the interior angles sum to 180.
   */
  function TriangleExteriorAngles(r: SideOrder, angleOpposite: (int, int, int) -> real): (e: ExteriorAngles)
    ensures e.atFirst + e.atSecond + e.atThird == 360.0
  {
    var angleA := angleOpposite(r.first, r.second, r.third);
    var angleB := angleOpposite(r.second, r.first, r.third);
    var angleC := 180.0 - angleA - angleB;
    ExteriorAngles(180.0 - angleA, 180.0 - angleB, 180.0 - angleC)
  }
}
