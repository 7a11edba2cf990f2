/**
 * Three-component vectors over the reals, standing for DirectXMath's XMFLOAT3 /
 * XMVECTOR. Floating-point rounding is not modelled.
 *
 * Dafny has no square root on `real`, so the length of a vector
 * (XMVector3Length) is not defined here: every operation that needs it takes a
 * `length` function as a parameter, and `IsEuclideanLength` states the laws any
 * such function obeys. The scaling law and the behaviour of `Normalize` are
 * then proved from those laws rather than assumed.
 */
module Vectors {

  datatype Vec3 = Vec3(x: real, y: real, z: real)

  const Zero := Vec3(0.0, 0.0, 0.0)

  function Add(a: Vec3, b: Vec3): Vec3 {
    Vec3(a.x + b.x, a.y + b.y, a.z + b.z)
  }

  function Sub(a: Vec3, b: Vec3): Vec3 {
    Vec3(a.x - b.x, a.y - b.y, a.z - b.z)
  }

  function Scale(c: real, v: Vec3): Vec3 {
    Vec3(c * v.x, c * v.y, c * v.z)
  }

  function Dot(a: Vec3, b: Vec3): real {
    a.x * b.x + a.y * b.y + a.z * b.z
  }

  /** XMVector3Cross */
  function Cross(a: Vec3, b: Vec3): Vec3 {
    Vec3(a.y * b.z - a.z * b.y, a.z * b.x - a.x * b.z, a.x * b.y - a.y * b.x)
  }

  function Abs(c: real): real {
    if c < 0.0 then -c else c
  }

  /**
   * The laws of XMVector3Length: never negative, and its square is the dot
   * product. The length of the zero vector follows from these, and is stated
   * outright so that proofs need not rediscover it.
   */
  ghost predicate IsEuclideanLength(length: Vec3 -> real) {
    && length(Zero) == 0.0
    && forall v :: 0.0 <= length(v) && length(v) * length(v) == Dot(v, v)
  }

  /**
   * XMVector3Normalize: the vector divided by its length; DirectXMath returns the
   * zero vector when the length is zero.
   */
  function Normalize(length: Vec3 -> real, v: Vec3): Vec3 {
    if length(v) == 0.0 then Zero else Scale(1.0 / length(v), v)
  }

  predicate IsUnit(v: Vec3) {
    Dot(v, v) == 1.0
  }

  /** A right/up/look camera basis. */
  datatype Frame = Frame(right: Vec3, up: Vec3, look: Vec3)

  predicate Orthonormal(f: Frame) {
    && IsUnit(f.right) && IsUnit(f.up) && IsUnit(f.look)
    && Dot(f.right, f.up) == 0.0 && Dot(f.right, f.look) == 0.0 && Dot(f.up, f.look) == 0.0
  }

  lemma DotScale(c: real, a: Vec3, b: Vec3)
    ensures Dot(Scale(c, a), b) == c * Dot(a, b)
    ensures Dot(a, Scale(c, b)) == c * Dot(a, b)
  {
  }

  lemma DotSymmetric(a: Vec3, b: Vec3)
    ensures Dot(a, b) == Dot(b, a)
  {
  }

  /** Two non-negative reals with the same square are equal. */
  lemma SquareRootUnique(a: real, b: real)
    requires 0.0 <= a && 0.0 <= b && a * a == b * b
    ensures a == b
  {
    assert (a - b) * (a + b) == 0.0;
    if a + b == 0.0 {
      assert a == 0.0 && b == 0.0;
    } else {
      assert a - b == 0.0;
    }
  }

  /** The scaling law: |c v| = |c| |v|. */
  lemma LengthOfScaled(length: Vec3 -> real, c: real, v: Vec3)
    requires IsEuclideanLength(length)
    ensures length(Scale(c, v)) == Abs(c) * length(v)
  {
    var n, m := length(v), length(Scale(c, v));
    assert n * n == Dot(v, v) && m * m == Dot(Scale(c, v), Scale(c, v));
    assert Dot(Scale(c, v), Scale(c, v)) == c * c * Dot(v, v);
    assert (Abs(c) * n) * (Abs(c) * n) == c * c * (n * n);
    assert 0.0 <= Abs(c) * n;
    SquareRootUnique(m, Abs(c) * n);
  }

  /** A unit vector has length one, and a vector of length one is a unit. */
  lemma UnitLength(length: Vec3 -> real, v: Vec3)
    requires IsEuclideanLength(length)
    ensures IsUnit(v) <==> length(v) == 1.0
  {
    assert length(v) * length(v) == Dot(v, v);
    if IsUnit(v) {
      SquareRootUnique(length(v), 1.0);
    }
  }

  /** Normalizing a vector of non-zero length gives a unit vector on the same ray. */
  lemma NormalizeNonZero(length: Vec3 -> real, v: Vec3)
    requires IsEuclideanLength(length) && length(v) != 0.0
    ensures 0.0 < length(v)
    ensures Normalize(length, v) == Scale(1.0 / length(v), v)
    ensures IsUnit(Normalize(length, v))
  {
    var n := length(v);
    assert n * n == Dot(v, v);
    DotScale(1.0 / n, v, v);
    DotScale(1.0 / n, v, Scale(1.0 / n, v));
    assert Dot(Scale(1.0 / n, v), Scale(1.0 / n, v)) == (1.0 / n) * (1.0 / n) * (n * n);
  }

  /** Scaling by a real keeps orthogonality. */
  lemma ScaleKeepsOrthogonal(c: real, a: Vec3, b: Vec3)
    requires Dot(a, b) == 0.0
    ensures Dot(Scale(c, a), b) == 0.0 && Dot(b, Scale(c, a)) == 0.0
  {
    DotScale(c, a, b);
  }

  lemma NormalizeKeepsOrthogonal(length: Vec3 -> real, a: Vec3, b: Vec3)
    requires Dot(a, b) == 0.0
    ensures Dot(Normalize(length, a), b) == 0.0 && Dot(b, Normalize(length, a)) == 0.0
  {
    if length(a) != 0.0 {
      ScaleKeepsOrthogonal(1.0 / length(a), a, b);
    }
  }

  lemma ScaleScale(a: real, b: real, v: Vec3)
    ensures Scale(a, Scale(b, v)) == Scale(a * b, v)
  {
  }

  /** Adding a multiple of a vector to itself stays on its line. */
  lemma AddScaled(c: real, v: Vec3)
    ensures Add(v, Scale(c, v)) == Scale(1.0 + c, v)
  {
  }

  /** Adding k (s v) to v, where k s = c - 1, gives c v. */
  lemma AddAlongItself(k: real, s: real, c: real, v: Vec3)
    requires k * s == c - 1.0
    ensures Add(v, Scale(k, Scale(s, v))) == Scale(c, v)
  {
    ScaleScale(k, s, v);
    AddScaled(c - 1.0, v);
  }

  /** The cross product is orthogonal to both of its factors. */
  lemma CrossOrthogonal(a: Vec3, b: Vec3)
    ensures Dot(Cross(a, b), a) == 0.0 && Dot(Cross(a, b), b) == 0.0
  {
  }

  /** Lagrange's identity: |a x b|^2 = |a|^2 |b|^2 - (a . b)^2. */
  lemma Lagrange(a: Vec3, b: Vec3)
    ensures Dot(Cross(a, b), Cross(a, b)) == Dot(a, a) * Dot(b, b) - Dot(a, b) * Dot(a, b)
  {
  }

  /** The cross product of two orthogonal unit vectors is a unit vector. */
  lemma CrossOfOrthonormal(a: Vec3, b: Vec3)
    requires IsUnit(a) && IsUnit(b) && Dot(a, b) == 0.0
    ensures IsUnit(Cross(a, b))
  {
    Lagrange(a, b);
  }

  /** Rotating the components of a vector: x takes y's place, y takes z's, z takes x's. */
  function Rotated(v: Vec3): Vec3 {
    Vec3(v.y, v.z, v.x)
  }

  /** The x component of the "BAC-CAB" expansion. */
  lemma TripleCrossX(a: Vec3, b: Vec3, c: Vec3)
    ensures Cross(a, Cross(b, c)).x == Dot(a, c) * b.x - Dot(a, b) * c.x
  {
    assert (a.x * c.x) * b.x == (a.x * b.x) * c.x;
  }

  /** Cross and dot products commute with rotating the components. */
  lemma RotatedProducts(a: Vec3, b: Vec3)
    ensures Cross(Rotated(a), Rotated(b)) == Rotated(Cross(a, b))
    ensures Dot(Rotated(a), Rotated(b)) == Dot(a, b)
  {
  }

  /** The "BAC-CAB" expansion of the vector triple product. */
  lemma TripleCross(a: Vec3, b: Vec3, c: Vec3)
    ensures Cross(a, Cross(b, c)) == Sub(Scale(Dot(a, c), b), Scale(Dot(a, b), c))
  {
    TripleCrossX(a, b, c);
    var a1, b1, c1 := Rotated(a), Rotated(b), Rotated(c);
    RotatedProducts(b, c);
    RotatedProducts(a, Cross(b, c));
    RotatedProducts(a, b);
    RotatedProducts(a, c);
    TripleCrossX(a1, b1, c1);
    var a2, b2, c2 := Rotated(a1), Rotated(b1), Rotated(c1);
    RotatedProducts(b1, c1);
    RotatedProducts(a1, Cross(b1, c1));
    RotatedProducts(a1, b1);
    RotatedProducts(a1, c1);
    TripleCrossX(a2, b2, c2);
  }
}
