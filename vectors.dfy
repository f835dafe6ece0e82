/** Three-component real vectors: the (x, y, z) column triples that an instrument keeps
    for positions, velocities, unit vectors and winds in the Earth-centred frames. */
module Vectors {
  import opened RealMath

  datatype Vec3 = Vec3(x: real, y: real, z: real)

  const Zero: Vec3 := Vec3(0.0, 0.0, 0.0)

  function Add(a: Vec3, b: Vec3): Vec3 {
    Vec3(a.x + b.x, a.y + b.y, a.z + b.z)
  }

  function Neg(a: Vec3): Vec3 {
    Vec3(-a.x, -a.y, -a.z)
  }

  function Scale(k: real, a: Vec3): Vec3 {
    Vec3(k * a.x, k * a.y, k * a.z)
  }

  function Dot(a: Vec3, b: Vec3): real {
    a.x * b.x + a.y * b.y + a.z * b.z
  }

  /** Squared Euclidean length. */
  function Norm2(a: Vec3): real {
    Dot(a, a)
  }

  /** The right-handed vector product a × b, component by component as numpy's
      `cross` computes it. */
  function Cross(a: Vec3, b: Vec3): Vec3 {
    Vec3(a.y * b.z - a.z * b.y, a.z * b.x - a.x * b.z, a.x * b.y - a.y * b.x)
  }

  /** The squared length is never negative and vanishes only at the zero vector. */
  lemma Norm2Positive(a: Vec3)
    ensures 0.0 <= Norm2(a)
    ensures a != Zero <==> 0.0 < Norm2(a)
  {
    SquareNonNegative(a.x);
    SquareNonNegative(a.y);
    SquareNonNegative(a.z);
    if a.x != 0.0 {
      SquarePositive(a.x);
    } else if a.y != 0.0 {
      SquarePositive(a.y);
    } else if a.z != 0.0 {
      SquarePositive(a.z);
    } else {
      assert a == Zero;
    }
  }

  lemma Norm2Scale(k: real, a: Vec3)
    ensures Norm2(Scale(k, a)) == k * k * Norm2(a)
  {
    assert (k * a.x) * (k * a.x) == k * k * (a.x * a.x);
    assert (k * a.y) * (k * a.y) == k * k * (a.y * a.y);
    assert (k * a.z) * (k * a.z) == k * k * (a.z * a.z);
  }

  lemma DotScaleLeft(k: real, a: Vec3, b: Vec3)
    ensures Dot(Scale(k, a), b) == k * Dot(a, b)
  {
  }

  lemma DotScaleRight(k: real, a: Vec3, b: Vec3)
    ensures Dot(a, Scale(k, b)) == k * Dot(a, b)
  {
  }

  lemma DotAddLeft(a: Vec3, b: Vec3, c: Vec3)
    ensures Dot(Add(a, b), c) == Dot(a, c) + Dot(b, c)
  {
  }

  lemma DotSymmetric(a: Vec3, b: Vec3)
    ensures Dot(a, b) == Dot(b, a)
  {
  }

  /** Scaling either factor scales the vector product. */
  lemma CrossScale(j: real, a: Vec3, k: real, b: Vec3)
    ensures Cross(Scale(j, a), Scale(k, b)) == Scale(j * k, Cross(a, b))
  {
    var l, r := Cross(Scale(j, a), Scale(k, b)), Scale(j * k, Cross(a, b));
    assert l.x == r.x by {
      assert (j * a.y) * (k * b.z) == (j * k) * (a.y * b.z);
      assert (j * a.z) * (k * b.y) == (j * k) * (a.z * b.y);
    }
    assert l.y == r.y by {
      assert (j * a.z) * (k * b.x) == (j * k) * (a.z * b.x);
      assert (j * a.x) * (k * b.z) == (j * k) * (a.x * b.z);
    }
    assert l.z == r.z by {
      assert (j * a.x) * (k * b.y) == (j * k) * (a.x * b.y);
      assert (j * a.y) * (k * b.x) == (j * k) * (a.y * b.x);
    }
  }

  /** Scaling by a non-zero factor keeps a vector away from zero. */
  lemma ScaleNonZero(k: real, a: Vec3)
    requires k != 0.0
    ensures Scale(k, a) == Zero <==> a == Zero
  {
    if Scale(k, a) == Zero {
      assert k * a.x == 0.0 && k * a.y == 0.0 && k * a.z == 0.0;
      assert a == Zero;
    }
  }

  /** a × b is orthogonal to both of its factors. */
  lemma CrossOrthogonal(a: Vec3, b: Vec3)
    ensures Dot(Cross(a, b), a) == 0.0 && Dot(Cross(a, b), b) == 0.0
  {
  }

  /** Swapping the factors reverses the vector product. */
  lemma CrossAntisymmetric(a: Vec3, b: Vec3)
    ensures Cross(b, a) == Neg(Cross(a, b))
  {
  }

  /** Lagrange's identity: |a × b|² = |a|²|b|² − (a·b)². */
  lemma Lagrange(a: Vec3, b: Vec3)
    ensures Norm2(Cross(a, b)) == Norm2(a) * Norm2(b) - Dot(a, b) * Dot(a, b)
  {
  }
}
