/**
 * Three-component vector algebra of the rasterizer (vec3.c), over ideal
 * real arithmetic: `real` stands for C `float`.
 *
 * `sqrtf` is not definable here, so the operations that normalise take the
 * square root as a parameter `sqrt`.  Only the factor `1/sqrt(dot(v, v))`
 * matters to the rest of the model.
 */
module Vec {

  datatype Vec3 = Vec3(x: real, y: real, z: real)

  const Zero: Vec3 := Vec3(0.0, 0.0, 0.0)

  function Dot(a: Vec3, b: Vec3): real
  {
    a.x * b.x + a.y * b.y + a.z * b.z
  }

  /** The cross product is orthogonal to both of its inputs. */
  function Cross(v1: Vec3, v2: Vec3): (r: Vec3)
    ensures Dot(r, v1) == 0.0 && Dot(r, v2) == 0.0
  {
    Vec3(v1.y * v2.z - v1.z * v2.y, v1.z * v2.x - v1.x * v2.z, v1.x * v2.y - v1.y * v2.x)
  }

  /** Negation is the additive inverse. */
  function Neg(v: Vec3): (r: Vec3)
    ensures Add(v, r) == Zero
  {
    Vec3(-v.x, -v.y, -v.z)
  }

  /** Subtraction undoes addition: `add(sub(a, b), b) == a`. */
  function Sub(a: Vec3, b: Vec3): (r: Vec3)
    ensures Add(r, b) == a
  {
    Vec3(a.x - b.x, a.y - b.y, a.z - b.z)
  }

  function Add(a: Vec3, b: Vec3): Vec3
  {
    Vec3(a.x + b.x, a.y + b.y, a.z + b.z)
  }

  /** Scaling a vector scales every dot product with it by the same factor. */
  function Mulf(v: Vec3, f: real): (r: Vec3)
    ensures forall w: Vec3 {:trigger Dot(r, w)} :: Dot(r, w) == f * Dot(v, w)
  {
    Vec3(v.x * f, v.y * f, v.z * f)
  }

  /**
   * The factor `1.0f / sqrtf(x*x + y*y + z*z)` both normalisations multiply
   * by.  For the zero vector C divides by zero (an infinity, then NaN
   * components); the model uses the factor 0 there instead.
   */
  function InvLength(v: Vec3, sqrt: real -> real): real
  {
    var len := sqrt(Dot(v, v));
    if len == 0.0 then 0.0 else 1.0 / len
  }

  /** The by-value normalisation: every component times the same factor. */
  function Normalized(v: Vec3, sqrt: real -> real): (r: Vec3)
    ensures r == Mulf(v, InvLength(v, sqrt))
    ensures PositiveRoot(sqrt) && v != Zero ==> InvLength(v, sqrt) > 0.0
  {
    var invLen := InvLength(v, sqrt);
    assert PositiveRoot(sqrt) && v != Zero ==> Dot(v, v) > 0.0 by {
      if v != Zero { NonZeroHasPositiveSquare(v); }
    }
    Vec3(v.x * invLen, v.y * invLen, v.z * invLen)
  }

  /** `sqrt` is positive on positive arguments, as `sqrtf` is. */
  ghost predicate PositiveRoot(sqrt: real -> real)
  {
    forall t: real {:trigger sqrt(t)} :: t > 0.0 ==> sqrt(t) > 0.0
  }

  /**
   * The in-place normalisation works on the pointee of a `Vec3*`, which this
   * class stands for.
   */
  class Vec3Var {
    var x: real
    var y: real
    var z: real

    function Value(): Vec3
      reads this
    {
      Vec3(x, y, z)
    }

    constructor (v: Vec3)
      ensures Value() == v
    {
      x, y, z := v.x, v.y, v.z;
    }

    /** In-place and by-value normalisation agree. */
    method Normalize(sqrt: real -> real)
      modifies this
      ensures Value() == Normalized(old(Value()), sqrt)
    {
      var len := sqrt(x * x + y * y + z * z);
      var invLen := if len == 0.0 then 0.0 else 1.0 / len;
      assert Dot(Value(), Value()) == x * x + y * y + z * z;
      assert invLen == InvLength(Value(), sqrt);
      x := x * invLen;
      y := y * invLen;
      z := z * invLen;
    }
  }

  lemma NonZeroHasPositiveSquare(v: Vec3)
    requires v != Zero
    ensures Dot(v, v) > 0.0
  {
    assert v.x != 0.0 || v.y != 0.0 || v.z != 0.0;
    calc {
      Dot(v, v);
    ==
      v.x * v.x + v.y * v.y + v.z * v.z;
    > { SumOfSquaresPositive(v.x, v.y, v.z); }
      0.0;
    }
  }

  lemma SumOfSquaresPositive(a: real, b: real, c: real)
    requires a != 0.0 || b != 0.0 || c != 0.0
    ensures a * a + b * b + c * c > 0.0
  {
    SquareNonNegative(a);
    SquareNonNegative(b);
    SquareNonNegative(c);
    if a != 0.0 {
      SquarePositive(a);
    } else if b != 0.0 {
      SquarePositive(b);
    } else {
      SquarePositive(c);
    }
  }

  lemma SquareNonNegative(a: real)
    ensures a * a >= 0.0
  {
    if a < 0.0 {
      assert a * a == (-a) * (-a);
    }
  }

  lemma SquarePositive(a: real)
    requires a != 0.0
    ensures a * a > 0.0
  {
    if a < 0.0 {
      assert a * a == (-a) * (-a);
    }
  }

  /** When `sqrt` returns a true square root, the normalised vector has unit length. */
  lemma NormalizedIsUnit(v: Vec3, sqrt: real -> real)
    requires sqrt(Dot(v, v)) > 0.0
    requires sqrt(Dot(v, v)) * sqrt(Dot(v, v)) == Dot(v, v)
    ensures Dot(Normalized(v, sqrt), Normalized(v, sqrt)) == 1.0
  {
    var len := sqrt(Dot(v, v));
    var k := 1.0 / len;
    var n := Normalized(v, sqrt);
    assert n == Mulf(v, k);
    assert Dot(n, n) == k * k * Dot(v, v) by {
      assert Dot(n, n) == k * Dot(v, n);
      assert Dot(v, n) == Dot(n, v) == k * Dot(v, v);
    }
    assert k * len == 1.0;
    calc {
      k * k * Dot(v, v);
      k * k * (len * len);
      (k * len) * (k * len);
      1.0;
    }
  }

  lemma CrossAntiCommutative(a: Vec3, b: Vec3)
    ensures Cross(a, b) == Neg(Cross(b, a))
  {
  }

  lemma DotSymmetric(v: Vec3, w: Vec3)
    ensures Dot(v, w) == Dot(w, v)
  {
  }

  lemma SubIsAddNeg(a: Vec3, b: Vec3)
    ensures Sub(a, b) == Add(a, Neg(b))
  {
  }

  lemma NegInvolution(v: Vec3)
    ensures Neg(Neg(v)) == v
  {
  }

  /** Dot product with a difference is the difference of dot products. */
  lemma DotSub(n: Vec3, a: Vec3, b: Vec3)
    ensures Dot(n, Sub(a, b)) == Dot(n, a) - Dot(n, b)
  {
  }

  /** `|a x b|^2 = |a|^2 |b|^2 - (a . b)^2` (Lagrange's identity). */
  lemma Lagrange(a: Vec3, b: Vec3)
    ensures Dot(Cross(a, b), Cross(a, b)) == Dot(a, a) * Dot(b, b) - Dot(a, b) * Dot(a, b)
  {
  }

  /** The scalar triple product is invariant under rotating its arguments. */
  lemma TripleCyclic(a: Vec3, b: Vec3, c: Vec3)
    ensures Dot(Cross(a, b), c) == Dot(Cross(c, a), b)
  {
  }

  /** The point with coordinates (a, b, c) in the frame x, y, z. */
  function InFrame(x: Vec3, y: Vec3, z: Vec3, a: real, b: real, c: real): Vec3
  {
    Add(Add(Mulf(x, a), Mulf(y, b)), Mulf(z, c))
  }

  /** The determinant of the 3x3 matrix with rows (u1, u2, u3), (v1, v2, v3), (w1, w2, w3). */
  function Det3(u1: real, u2: real, u3: real, v1: real, v2: real, v3: real, w1: real, w2: real, w3: real): real
  {
    u1 * (v2 * w3 - v3 * w2) - u2 * (v1 * w3 - v3 * w1) + u3 * (v1 * w2 - v2 * w1)
  }

  /**
   * The triple product of three points given by coordinates in a frame is
   * the determinant of the coordinates times the frame's own triple product.
   */
  lemma TripleInFrame(x: Vec3, y: Vec3, z: Vec3, u1: real, u2: real, u3: real, v1: real, v2: real, v3: real,
                      w1: real, w2: real, w3: real)
    ensures Dot(Cross(InFrame(x, y, z, u1, u2, u3), InFrame(x, y, z, v1, v2, v3)), InFrame(x, y, z, w1, w2, w3))
         == Det3(u1, u2, u3, v1, v2, v3, w1, w2, w3) * Dot(Cross(x, y), z)
  {
    DetOfFrame(x, y, z, u1, u2, u3, v1, v2, v3, w1, w2, w3);
    TripleScales(InFrame(x, y, z, u1, u2, u3), InFrame(x, y, z, v1, v2, v3), InFrame(x, y, z, w1, w2, w3), x, y, z,
                 Det3(u1, u2, u3, v1, v2, v3, w1, w2, w3));
  }

  /** Triple products scale as the determinants of their components do. */
  lemma TripleScales(u: Vec3, v: Vec3, w: Vec3, x: Vec3, y: Vec3, z: Vec3, d: real)
    requires Det3(u.x, u.y, u.z, v.x, v.y, v.z, w.x, w.y, w.z) == d * Det3(x.x, x.y, x.z, y.x, y.y, y.z, z.x, z.y, z.z)
    ensures Dot(Cross(u, v), w) == d * Dot(Cross(x, y), z)
  {
    TripleIsDet(u, v, w);
    TripleIsDet(x, y, z);
  }

  lemma TripleIsDet(u: Vec3, v: Vec3, w: Vec3)
    ensures Dot(Cross(u, v), w) == Det3(u.x, u.y, u.z, v.x, v.y, v.z, w.x, w.y, w.z)
  {
  }

  lemma InFrameIs(x: Vec3, y: Vec3, z: Vec3, a: real, b: real, c: real)
    ensures InFrame(x, y, z, a, b, c)
         == Vec3(x.x * a + y.x * b + z.x * c, x.y * a + y.y * b + z.y * c, x.z * a + y.z * b + z.z * c)
  {
  }

  lemma DetOfFrame(x: Vec3, y: Vec3, z: Vec3, u1: real, u2: real, u3: real, v1: real, v2: real, v3: real,
                   w1: real, w2: real, w3: real)
    ensures var u, v, w := InFrame(x, y, z, u1, u2, u3), InFrame(x, y, z, v1, v2, v3), InFrame(x, y, z, w1, w2, w3);
      Det3(u.x, u.y, u.z, v.x, v.y, v.z, w.x, w.y, w.z)
      == Det3(u1, u2, u3, v1, v2, v3, w1, w2, w3) * Det3(x.x, x.y, x.z, y.x, y.y, y.z, z.x, z.y, z.z)
  {
    DetProduct(u1, u2, u3, v1, v2, v3, w1, w2, w3, x.x, x.y, x.z, y.x, y.y, y.z, z.x, z.y, z.z);
    DetOfFrameComponents(x, y, z, u1, u2, u3, v1, v2, v3, w1, w2, w3);
  }

  lemma DetOfFrameComponents(x: Vec3, y: Vec3, z: Vec3, u1: real, u2: real, u3: real, v1: real, v2: real, v3: real,
                             w1: real, w2: real, w3: real)
    ensures var u, v, w := InFrame(x, y, z, u1, u2, u3), InFrame(x, y, z, v1, v2, v3), InFrame(x, y, z, w1, w2, w3);
      Det3(u.x, u.y, u.z, v.x, v.y, v.z, w.x, w.y, w.z)
      == Det3(x.x * u1 + y.x * u2 + z.x * u3, x.y * u1 + y.y * u2 + z.y * u3, x.z * u1 + y.z * u2 + z.z * u3,
                x.x * v1 + y.x * v2 + z.x * v3, x.y * v1 + y.y * v2 + z.y * v3, x.z * v1 + y.z * v2 + z.z * v3,
                x.x * w1 + y.x * w2 + z.x * w3, x.y * w1 + y.y * w2 + z.y * w3, x.z * w1 + y.z * w2 + z.z * w3)
  {
    var u, v, w := InFrame(x, y, z, u1, u2, u3), InFrame(x, y, z, v1, v2, v3), InFrame(x, y, z, w1, w2, w3);
    InFrameIs(x, y, z, u1, u2, u3);
    InFrameIs(x, y, z, v1, v2, v3);
    InFrameIs(x, y, z, w1, w2, w3);
    Det3Congruent(u.x, u.y, u.z, v.x, v.y, v.z, w.x, w.y, w.z,
                x.x * u1 + y.x * u2 + z.x * u3, x.y * u1 + y.y * u2 + z.y * u3, x.z * u1 + y.z * u2 + z.z * u3,
                x.x * v1 + y.x * v2 + z.x * v3, x.y * v1 + y.y * v2 + z.y * v3, x.z * v1 + y.z * v2 + z.z * v3,
                x.x * w1 + y.x * w2 + z.x * w3, x.y * w1 + y.y * w2 + z.y * w3, x.z * w1 + y.z * w2 + z.z * w3);
  }

  /** det(C B) = det(C) det(B), for the coordinate matrix C and the frame B. */
  lemma DetProduct(u1: real, u2: real, u3: real, v1: real, v2: real, v3: real, w1: real, w2: real, w3: real,
                   x1: real, x2: real, x3: real, y1: real, y2: real, y3: real, z1: real, z2: real, z3: real)
    ensures Det3(x1 * u1 + y1 * u2 + z1 * u3, x2 * u1 + y2 * u2 + z2 * u3, x3 * u1 + y3 * u2 + z3 * u3,
                 x1 * v1 + y1 * v2 + z1 * v3, x2 * v1 + y2 * v2 + z2 * v3, x3 * v1 + y3 * v2 + z3 * v3,
                 x1 * w1 + y1 * w2 + z1 * w3, x2 * w1 + y2 * w2 + z2 * w3, x3 * w1 + y3 * w2 + z3 * w3)
         == Det3(u1, u2, u3, v1, v2, v3, w1, w2, w3) * Det3(x1, x2, x3, y1, y2, y3, z1, z2, z3)
  {
  }

  lemma Det3Congruent(p1: real, p2: real, p3: real, q1: real, q2: real, q3: real, r1: real, r2: real, r3: real,
                      p1': real, p2': real, p3': real, q1': real, q2': real, q3': real,
                      r1': real, r2': real, r3': real)
    requires p1 == p1' && p2 == p2' && p3 == p3'
    requires q1 == q1' && q2 == q2' && q3 == q3'
    requires r1 == r1' && r2 == r2' && r3 == r3'
    ensures Det3(p1, p2, p3, q1, q2, q3, r1, r2, r3) == Det3(p1', p2', p3', q1', q2', q3', r1', r2', r3')
  {
  }

  /** Products of non-negative and of positive reals keep their sign. */
  lemma NonNegativeProduct(a: real, b: real)
    requires a >= 0.0 && b >= 0.0
    ensures a * b >= 0.0
  {
  }

  lemma PositiveProduct(a: real, b: real)
    requires a > 0.0 && b > 0.0
    ensures a * b > 0.0
  {
  }
}
