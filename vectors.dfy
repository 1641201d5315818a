/**
 * Three-dimensional vectors over the reals, standing for the engine's FVector.
 * Only the operations the kart's movement code uses are defined; the
 * square-root based ones (Size, GetSafeNormal) are engine services, see
 * module UnrealEngine.
 */
module Vectors {

  datatype Vec3 = Vec3(x: real, y: real, z: real)

  const Zero := Vec3(0.0, 0.0, 0.0)

  function Add(a: Vec3, b: Vec3): Vec3 {
    Vec3(a.x + b.x, a.y + b.y, a.z + b.z)
  }

  /** Multiplication of a vector by a scalar (FVector * float). */
  function Scale(a: Vec3, k: real): Vec3 {
    Vec3(a.x * k, a.y * k, a.z * k)
  }

  /** Division of a vector by a non-zero scalar (FVector / float). */
  function Div(a: Vec3, k: real): Vec3
    requires k != 0.0
  {
    Vec3(a.x / k, a.y / k, a.z / k)
  }

  function Dot(a: Vec3, b: Vec3): real {
    a.x * b.x + a.y * b.y + a.z * b.z
  }

  function Cross(a: Vec3, b: Vec3): Vec3 {
    Vec3(a.y * b.z - a.z * b.y, a.z * b.x - a.x * b.z, a.x * b.y - a.y * b.x)
  }

  /** The squared length of a vector (FVector::SizeSquared). */
  function SizeSquared(a: Vec3): (r: real)
    ensures r >= 0.0
  {
    SquareNonNegative(a.x);
    SquareNonNegative(a.y);
    SquareNonNegative(a.z);
    a.x * a.x + a.y * a.y + a.z * a.z
  }

  function Square(k: real): real {
    k * k
  }

  lemma SquareNonNegative(k: real)
    ensures k * k >= 0.0
    ensures k != 0.0 ==> k * k > 0.0
  {
    if k < 0.0 {
      var j := -k;
      PositiveSquare(j);
      assert j * j == k * k;
    } else if k > 0.0 {
      PositiveSquare(k);
    }
  }

  lemma PositiveSquare(k: real)
    requires k > 0.0
    ensures k * k > 0.0
  {
  }

  lemma NonNegativeProduct(a: real, b: real)
    requires a >= 0.0 && b >= 0.0
    ensures a * b >= 0.0
  {
  }

  lemma ProductNonPositive(c: real, d: real)
    requires c >= 0.0 && d > 0.0
    ensures -c * d <= 0.0
    ensures c > 0.0 ==> -c * d < 0.0
  {
  }

  /**
   * `f` points exactly against `v`: it lies on the line of `v` and its
   * component along `v` is not positive.
   */
  predicate Opposes(f: Vec3, v: Vec3) {
    Cross(f, v) == Zero && Dot(f, v) <= 0.0
  }

  lemma ScaleByZero(a: Vec3)
    ensures Scale(a, 0.0) == Zero
  {
  }

  lemma ScaleOfZero(k: real)
    ensures Scale(Zero, k) == Zero
  {
  }

  lemma DotWithZero(a: Vec3)
    ensures Dot(a, Zero) == 0.0
  {
  }

  lemma CrossScale(a: Vec3, k: real, b: Vec3)
    ensures Cross(Scale(a, k), b) == Scale(Cross(a, b), k)
  {
  }

  lemma DotScale(a: Vec3, k: real, b: Vec3)
    ensures Dot(Scale(a, k), b) == k * Dot(a, b)
  {
  }

  lemma SizeSquaredScale(a: Vec3, k: real)
    ensures SizeSquared(Scale(a, k)) == Square(k) * SizeSquared(a)
  {
  }

  /**
   * Scaling a unit vector that points along `v` by a non-positive amount
   * `-c` gives a force that opposes `v` and whose length is `c`.
   */
  lemma {:induction false} ScaledUnitOpposes(n: Vec3, v: Vec3, c: real)
    requires SizeSquared(n) == 1.0 && Cross(n, v) == Zero && Dot(n, v) > 0.0
    requires c >= 0.0
    ensures Opposes(Scale(n, -c), v)
    ensures c > 0.0 ==> Dot(Scale(n, -c), v) < 0.0
    ensures SizeSquared(Scale(n, -c)) == Square(c)
  {
    assert Square(-c) == Square(c);
    ScaledAlongLine(n, v, -c);
    ScaledAgainst(n, v, c);
    ScaledUnitSize(n, -c);
  }

  /**
   * A force that is `c` times the negated unit vector along `v` opposes `v`
   * and has length `c`.
   */
  lemma OpposingForce(f: Vec3, n: Vec3, v: Vec3, c: real)
    requires SizeSquared(n) == 1.0 && Cross(n, v) == Zero && Dot(n, v) > 0.0
    requires c >= 0.0 && f == Scale(n, -c)
    ensures Opposes(f, v) && SizeSquared(f) == Square(c)
  {
    ScaledUnitOpposes(n, v, c);
  }

  lemma ScaledAlongLine(n: Vec3, v: Vec3, k: real)
    requires Cross(n, v) == Zero
    ensures Cross(Scale(n, k), v) == Zero
  {
    CrossScale(n, k, v);
    assert Scale(Zero, k) == Zero;
  }

  lemma ScaledAgainst(n: Vec3, v: Vec3, c: real)
    requires Dot(n, v) > 0.0 && c >= 0.0
    ensures Dot(Scale(n, -c), v) <= 0.0
    ensures c > 0.0 ==> Dot(Scale(n, -c), v) < 0.0
  {
    DotScale(n, -c, v);
    ProductNonPositive(c, Dot(n, v));
  }

  lemma ScaledUnitSize(n: Vec3, k: real)
    requires SizeSquared(n) == 1.0
    ensures SizeSquared(Scale(n, k)) == Square(k)
  {
    SizeSquaredScale(n, k);
  }
}
