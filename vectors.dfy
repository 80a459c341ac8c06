// Three-component vectors over exact reals, standing in for the numpy arrays
// that hold each body's position, velocity and the force accumulator.

module Vectors {

  datatype Vec3 = Vec3(x: real, y: real, z: real)

  const Zero: Vec3 := Vec3(0.0, 0.0, 0.0)

  function Add(a: Vec3, b: Vec3): Vec3 {
    Vec3(a.x + b.x, a.y + b.y, a.z + b.z)
  }

  function Sub(a: Vec3, b: Vec3): Vec3 {
    Vec3(a.x - b.x, a.y - b.y, a.z - b.z)
  }

  /** Multiplication of every component by the scalar c. */
  function Scale(v: Vec3, c: real): Vec3 {
    Vec3(v.x * c, v.y * c, v.z * c)
  }

  /** The squared Euclidean length; zero exactly for the zero vector. */
  function NormSq(v: Vec3): (r: real)
    ensures 0.0 <= r
    ensures r == 0.0 <==> v == Zero
  {
    SquareNonNeg(v.x);
    SquareNonNeg(v.y);
    SquareNonNeg(v.z);
    v.x * v.x + v.y * v.y + v.z * v.z
  }

  lemma SquareNonNeg(a: real)
    ensures 0.0 <= a * a
    ensures a * a == 0.0 <==> a == 0.0
  {
    if a < 0.0 {
      assert a * a == (-a) * (-a);
    }
    if a * a == 0.0 {
      ProductZero(a, a);
    }
  }

  lemma ProductZero(a: real, b: real)
    requires a * b == 0.0
    ensures a == 0.0 || b == 0.0
  {
  }

  lemma PositiveProduct(a: real, b: real)
    requires 0.0 < a && 0.0 < b
    ensures 0.0 < a * b
  {
  }

  lemma ScaledSquare(a: real, c: real)
    ensures (a * c) * (a * c) == c * c * (a * a)
  {
  }

  /** `sqrt` returns the non-negative square root of x, if x is non-negative. */
  ghost predicate RootAt(sqrt: real -> real, x: real) {
    0.0 <= x ==> 0.0 <= sqrt(x) && sqrt(x) * sqrt(x) == x
  }

  /**
   * `sqrt` returns the non-negative square root of every non-negative real.
   * The trigger keeps the fact out of the way until a proof asks for RootAt.
   */
  ghost predicate IsSqrt(sqrt: real -> real) {
    forall x: real {:trigger RootAt(sqrt, x)} :: RootAt(sqrt, x)
  }

  /** The Euclidean norm (`np.linalg.norm` of a 3-vector), taken with the given square root. */
  function Norm(sqrt: real -> real, v: Vec3): real {
    sqrt(NormSq(v))
  }

  /** The square root is determined by its defining equation. */
  lemma SqrtUnique(sqrt: real -> real, x: real, y: real)
    requires IsSqrt(sqrt)
    requires 0.0 <= y && y * y == x
    ensures sqrt(x) == y
  {
    var s := sqrt(x);
    assert RootAt(sqrt, x);
    assert (s - y) * (s + y) == s * s - y * y;
    ProductZero(s - y, s + y);
  }

  /** A square root is non-negative and is zero exactly at zero. */
  lemma SqrtZero(sqrt: real -> real, x: real)
    requires IsSqrt(sqrt)
    requires 0.0 <= x
    ensures 0.0 <= sqrt(x)
    ensures sqrt(x) == 0.0 <==> x == 0.0
  {
    var n := sqrt(x);
    assert RootAt(sqrt, x);
    if x == 0.0 {
      ProductZero(n, n);
    }
  }

  /** The norm is a non-negative square root of the squared norm. */
  lemma NormSquared(sqrt: real -> real, v: Vec3)
    requires IsSqrt(sqrt)
    ensures 0.0 <= Norm(sqrt, v)
    ensures Norm(sqrt, v) * Norm(sqrt, v) == NormSq(v)
  {
    assert RootAt(sqrt, NormSq(v));
  }

  /** The norm is non-negative and vanishes exactly on the zero vector. */
  lemma NormZero(sqrt: real -> real, v: Vec3)
    requires IsSqrt(sqrt)
    ensures 0.0 <= Norm(sqrt, v)
    ensures Norm(sqrt, v) == 0.0 <==> v == Zero
  {
    SqrtZero(sqrt, NormSq(v));
  }

  /**
   * The distance between two points is symmetric, non-negative and zero
   * exactly when the points coincide.
   */
  lemma Distance(sqrt: real -> real, a: Vec3, b: Vec3)
    requires IsSqrt(sqrt)
    ensures Norm(sqrt, Sub(a, b)) == Norm(sqrt, Sub(b, a))
    ensures 0.0 <= Norm(sqrt, Sub(a, b))
    ensures Norm(sqrt, Sub(a, b)) == 0.0 <==> a == b
  {
    NormSqSubSym(a, b);
    NormZero(sqrt, Sub(a, b));
    SubZero(a, b);
  }

  lemma NormSqSubSym(a: Vec3, b: Vec3)
    ensures NormSq(Sub(a, b)) == NormSq(Sub(b, a))
  {
    NegatedSquare(a.x - b.x);
    NegatedSquare(a.y - b.y);
    NegatedSquare(a.z - b.z);
  }

  lemma NegatedSquare(d: real)
    ensures (-d) * (-d) == d * d
  {
  }

  lemma SubZero(a: Vec3, b: Vec3)
    ensures Sub(a, b) == Zero <==> a == b
  {
  }

  lemma NormSqScale(v: Vec3, c: real)
    ensures NormSq(Scale(v, c)) == c * c * NormSq(v)
  {
    ScaledSquare(v.x, c);
    ScaledSquare(v.y, c);
    ScaledSquare(v.z, c);
  }

  /** Scaling by a non-negative factor scales the norm by that factor. */
  lemma NormScale(sqrt: real -> real, v: Vec3, c: real)
    requires IsSqrt(sqrt)
    requires 0.0 <= c
    ensures Norm(sqrt, Scale(v, c)) == c * Norm(sqrt, v)
  {
    var n := Norm(sqrt, v);
    NormSquared(sqrt, v);
    NormSqScale(v, c);
    ScaledSquare(n, c);
    PositiveOrZeroProduct(c, n);
    SqrtUnique(sqrt, NormSq(Scale(v, c)), c * n);
  }

  lemma PositiveOrZeroProduct(a: real, b: real)
    requires 0.0 <= a && 0.0 <= b
    ensures 0.0 <= a * b
  {
  }
}
