/**
 * Integer helpers and 4x4 matrix utilities (mymath.c).
 *
 * A `Matrix44` is sixteen floats in row-major order.  Procedures that write
 * an out-matrix take it as an `array<real>` of length 16, so that an
 * out-matrix may be the same array as an input, as in the C; matrix values
 * are `seq<real>` of length 16.  `sinf`, `cosf` and `tanf` are parameters.
 */
module MyMath {
  import opened Vec

  /** Viewport size in pixels, fixed for the process: 1920/2 by 1080/2. */
  const Width: int := 960
  const Height: int := 540

  /** The value of pi written in `makeProjection` and in the frustum code. */
  const Pi: real := 3.14159265358979
  /** The shorter value of pi written in `makeRotationXYZ`. */
  const PiRotation: real := 3.1415926535

  function Mini(i1: int, i2: int): (r: int)
    ensures r <= i1 && r <= i2
    ensures r == i1 || r == i2
  {
    if i1 < i2 then i1 else i2
  }

  function Maxi(i1: int, i2: int): (r: int)
    ensures r >= i1 && r >= i2
    ensures r == i1 || r == i2
  {
    if i1 > i2 then i1 else i2
  }

  /** Clamping with `maxi(0, mini(i, n - 1))` lands in `[0, n - 1]` and keeps in-range values. */
  lemma ClampInRange(i: int, n: int)
    requires n >= 1
    ensures 0 <= Maxi(0, Mini(i, n - 1)) <= n - 1
    ensures 0 <= i <= n - 1 ==> Maxi(0, Mini(i, n - 1)) == i
  {
  }

  predicate IsMatrix(m: seq<real>)
  {
    |m| == 16
  }

  /** The identity matrix: ones at indices 0, 5, 10 and 15. */
  function Identity(): (m: seq<real>)
    ensures IsMatrix(m)
  {
    seq(16, k => if k == 0 || k == 5 || k == 10 || k == 15 then 1.0 else 0.0)
  }

  /**
   * The sum of the first `n` terms `a[rowStart + k] * b[4k + j]` of an entry
   * of `a * b`, in the order the SSE code accumulates them; `rowStart` is the
   * index of the row's first entry.
   */
  function PartialEntry(a: seq<real>, b: seq<real>, rowStart: int, j: int, n: int): real
    requires IsMatrix(a) && IsMatrix(b)
    requires 0 <= rowStart <= 12 && 0 <= j < 4 && 0 <= n <= 4
  {
    if n == 0 then 0.0 else b[(n - 1) * 4 + j] * a[rowStart + n - 1] + PartialEntry(a, b, rowStart, j, n - 1)
  }

  /** Entry (i, j) of the row-major product `a * b`. */
  function ProductEntry(a: seq<real>, b: seq<real>, i: int, j: int): real
    requires IsMatrix(a) && IsMatrix(b)
    requires 0 <= i < 4 && 0 <= j < 4
  {
    PartialEntry(a, b, i * 4, j, 4)
  }

  /** The four-term formula `multiply` evaluates for one entry. */
  lemma ProductEntryFormula(a: seq<real>, b: seq<real>, i: int, j: int)
    requires IsMatrix(a) && IsMatrix(b)
    requires 0 <= i < 4 && 0 <= j < 4
    ensures ProductEntry(a, b, i, j) ==
      a[i * 4 + 0] * b[0 * 4 + j] + a[i * 4 + 1] * b[1 * 4 + j] +
      a[i * 4 + 2] * b[2 * 4 + j] + a[i * 4 + 3] * b[3 * 4 + j]
  {
    assert PartialEntry(a, b, i * 4, j, 0) == 0.0;
    assert PartialEntry(a, b, i * 4, j, 1) == b[j] * a[i * 4];
    assert PartialEntry(a, b, i * 4, j, 2) == b[4 + j] * a[i * 4 + 1] + b[j] * a[i * 4];
    assert PartialEntry(a, b, i * 4, j, 3) == b[8 + j] * a[i * 4 + 2] + b[4 + j] * a[i * 4 + 1] + b[j] * a[i * 4];
  }

  function Product(a: seq<real>, b: seq<real>): (r: seq<real>)
    requires IsMatrix(a) && IsMatrix(b)
    ensures IsMatrix(r)
  {
    [ProductEntry(a, b, 0, 0), ProductEntry(a, b, 0, 1), ProductEntry(a, b, 0, 2), ProductEntry(a, b, 0, 3),
     ProductEntry(a, b, 1, 0), ProductEntry(a, b, 1, 1), ProductEntry(a, b, 1, 2), ProductEntry(a, b, 1, 3),
     ProductEntry(a, b, 2, 0), ProductEntry(a, b, 2, 1), ProductEntry(a, b, 2, 2), ProductEntry(a, b, 2, 3),
     ProductEntry(a, b, 3, 0), ProductEntry(a, b, 3, 1), ProductEntry(a, b, 3, 2), ProductEntry(a, b, 3, 3)]
  }

  /** An affine matrix: last column (0, 0, 0, 1). */
  predicate IsAffine(m: seq<real>)
    requires IsMatrix(m)
  {
    m[3] == 0.0 && m[7] == 0.0 && m[11] == 0.0 && m[15] == 1.0
  }

  method MakeIdentity(mat: array<real>)
    requires mat.Length == 16
    modifies mat
    ensures mat[..] == Identity()
  {
    for i := 0 to 15
      invariant forall k :: 0 <= k < i ==> mat[k] == 0.0
    {
      mat[i] := 0.0;
    }
    mat[0], mat[5], mat[10], mat[15] := 1.0, 1.0, 1.0, 1.0;
  }

  /** The sixteen entries `makeProjection` writes, for `f = 1/tan(fov/2)`. */
  function ProjectionEntries(f: real, aspect: real, nearDepth: real, farDepth: real): (m: seq<real>)
    requires aspect != 0.0 && nearDepth != farDepth
    ensures IsMatrix(m)
  {
    [ f / aspect, 0.0, 0.0, 0.0,
      0.0, -f, 0.0, 0.0,
      0.0, 0.0, farDepth / (nearDepth - farDepth), -1.0,
      0.0, 0.0, (nearDepth * farDepth) / (nearDepth - farDepth), 0.0 ]
  }

  /** Half the field of view, in radians. */
  function HalfFovRadians(fovDegrees: real): real
  {
    (0.5 * fovDegrees) * Pi / 180.0
  }

  /** The perspective projection for a vertical field of view in degrees. */
  function Projection(fovDegrees: real, aspect: real, nearDepth: real, farDepth: real, tan: real -> real): (m: seq<real>)
    requires tan(HalfFovRadians(fovDegrees)) != 0.0
    requires aspect != 0.0 && nearDepth != farDepth
    ensures IsMatrix(m)
  {
    ProjectionEntries(1.0 / tan(HalfFovRadians(fovDegrees)), aspect, nearDepth, farDepth)
  }

  method MakeProjection(fovDegrees: real, aspect: real, nearDepth: real, farDepth: real,
                        tan: real -> real, outMatrix: array<real>)
    requires outMatrix.Length == 16
    requires tan(HalfFovRadians(fovDegrees)) != 0.0
    requires aspect != 0.0 && nearDepth != farDepth
    modifies outMatrix
    ensures outMatrix[..] == Projection(fovDegrees, aspect, nearDepth, farDepth, tan)
  {
    var f := 1.0 / tan(HalfFovRadians(fovDegrees));
    assert Projection(fovDegrees, aspect, nearDepth, farDepth, tan) == ProjectionEntries(f, aspect, nearDepth, farDepth);
    var proj := ProjectionEntries(f, aspect, nearDepth, farDepth);
    for i := 0 to 16
      invariant outMatrix[..i] == proj[..i]
    {
      outMatrix[i] := proj[i];
    }
    assert outMatrix[..] == outMatrix[..16];
  }

  /** The sixteen entries `makeRotationXYZ` writes, from the sines and cosines of the three angles. */
  function RotationEntries(sx: real, sy: real, sz: real, cx: real, cy: real, cz: real): (m: seq<real>)
    ensures IsMatrix(m)
  {
    [ cy * cz, cz * sx * sy - cx * sz, cx * cz * sy + sx * sz, 0.0,
      cy * sz, cx * cz + sx * sy * sz, -cz * sx + cx * sy * sz, 0.0,
      -sy, cy * sx, cx * cy, 0.0,
      0.0, 0.0, 0.0, 1.0 ]
  }

  /** Degrees to radians, with the value of pi `makeRotationXYZ` uses. */
  const RotationDegToRad: real := PiRotation / 180.0

  /** The rotation about x, then y, then z, by angles given in degrees. */
  function Rotation(xDeg: real, yDeg: real, zDeg: real, sin: real -> real, cos: real -> real): (m: seq<real>)
    ensures IsMatrix(m)
  {
    RotationEntries(sin(xDeg * RotationDegToRad), sin(yDeg * RotationDegToRad), sin(zDeg * RotationDegToRad),
                    cos(xDeg * RotationDegToRad), cos(yDeg * RotationDegToRad), cos(zDeg * RotationDegToRad))
  }

  method MakeRotationXYZ(xDeg: real, yDeg: real, zDeg: real,
                         sin: real -> real, cos: real -> real, outMat: array<real>)
    requires outMat.Length == 16
    modifies outMat
    ensures outMat[..] == Rotation(xDeg, yDeg, zDeg, sin, cos)
  {
    var sx := sin(xDeg * RotationDegToRad);
    var sy := sin(yDeg * RotationDegToRad);
    var sz := sin(zDeg * RotationDegToRad);
    var cx := cos(xDeg * RotationDegToRad);
    var cy := cos(yDeg * RotationDegToRad);
    var cz := cos(zDeg * RotationDegToRad);
    assert Rotation(xDeg, yDeg, zDeg, sin, cos) == RotationEntries(sx, sy, sz, cx, cy, cz);

    outMat[0] := cy * cz;
    outMat[1] := cz * sx * sy - cx * sz;
    outMat[2] := cx * cz * sy + sx * sz;
    outMat[3] := 0.0;
    outMat[4] := cy * sz;
    outMat[5] := cx * cz + sx * sy * sz;
    outMat[6] := -cz * sx + cx * sy * sz;
    outMat[7] := 0.0;
    outMat[8] := -sy;
    outMat[9] := cy * sx;
    outMat[10] := cx * cy;
    outMat[11] := 0.0;
    outMat[12] := 0.0;
    outMat[13] := 0.0;
    outMat[14] := 0.0;
    outMat[15] := 1.0;
    RotationEntriesWritten(outMat[..], sx, sy, sz, cx, cy, cz);
  }

  /** Sixteen individually written entries make up the rotation matrix. */
  lemma RotationEntriesWritten(s: seq<real>, sx: real, sy: real, sz: real, cx: real, cy: real, cz: real)
    requires |s| == 16
    requires s[0] == cy * cz
    requires s[1] == cz * sx * sy - cx * sz
    requires s[2] == cx * cz * sy + sx * sz
    requires s[3] == 0.0
    requires s[4] == cy * sz
    requires s[5] == cx * cz + sx * sy * sz
    requires s[6] == -cz * sx + cx * sy * sz
    requires s[7] == 0.0
    requires s[8] == -sy
    requires s[9] == cy * sx
    requires s[10] == cx * cy
    requires s[11] == 0.0
    requires s[12] == 0.0
    requires s[13] == 0.0
    requires s[14] == 0.0
    requires s[15] == 1.0
    ensures s == RotationEntries(sx, sy, sz, cx, cy, cz)
  {
    var m := RotationEntries(sx, sy, sz, cx, cy, cz);
    forall k | 0 <= k < 16
      ensures s[k] == m[k]
    {
      assert k in {0, 1, 2, 3, 4, 5, 6, 7, 8, 9, 10, 11, 12, 13, 14, 15};
    }
  }

  /**
   * Row-major product.  The result is built in a temporary and copied last,
   * so it is correct when `result` is the same array as `a` or `b`.
   */
  method Multiply(a: array<real>, b: array<real>, result: array<real>)
    requires a.Length == 16 && b.Length == 16 && result.Length == 16
    modifies result
    ensures result[..] == Product(old(a[..]), old(b[..]))
  {
    ghost var A, B := a[..], b[..];
    var tmp := new real[16];
    for i := 0 to 4
      invariant a[..] == A && b[..] == B
      invariant forall r, c :: 0 <= r < i && 0 <= c < 4 ==> tmp[r * 4 + c] == ProductEntry(A, B, r, c)
    {
      for j := 0 to 4
        invariant a[..] == A && b[..] == B
        invariant forall r, c :: 0 <= r < i && 0 <= c < 4 ==> tmp[r * 4 + c] == ProductEntry(A, B, r, c)
        invariant forall c :: 0 <= c < j ==> tmp[i * 4 + c] == ProductEntry(A, B, i, c)
      {
        ProductEntryFormula(A, B, i, j);
        tmp[i * 4 + j] := a[i * 4 + 0] * b[0 * 4 + j] +
          a[i * 4 + 1] * b[1 * 4 + j] +
          a[i * 4 + 2] * b[2 * 4 + j] +
          a[i * 4 + 3] * b[3 * 4 + j];
      }
    }

    ghost var P := tmp[..];
    for i := 0 to 16
      invariant tmp[..] == P
      invariant forall k :: 0 <= k < i ==> result[k] == P[k]
    {
      result[i] := tmp[i];
    }
    assert result[..] == P;
    EntriesMakeProduct(P, A, B);
  }

  /** A 128-bit SSE register as four float lanes. */
  datatype M128 = M128(l0: real, l1: real, l2: real, l3: real)

  /** `_mm_set1_ps`: broadcast one value to all lanes. */
  function Set1(v: real): M128
  {
    M128(v, v, v, v)
  }

  /** `_mm_mul_ps`: lane-wise product. */
  function MulPs(a: M128, b: M128): M128
  {
    M128(a.l0 * b.l0, a.l1 * b.l1, a.l2 * b.l2, a.l3 * b.l3)
  }

  /** `_mm_add_ps`: lane-wise sum. */
  function AddPs(a: M128, b: M128): M128
  {
    M128(a.l0 + b.l0, a.l1 + b.l1, a.l2 + b.l2, a.l3 + b.l3)
  }

  /** `_mm_load_ps`: four consecutive floats. */
  function LoadPs(m: seq<real>, offset: int): M128
    requires 0 <= offset && offset + 4 <= |m|
  {
    M128(m[offset], m[offset + 1], m[offset + 2], m[offset + 3])
  }

  /** The four lanes of the row starting at `rowStart` after the first `n` steps. */
  function PartialRow(a: seq<real>, b: seq<real>, rowStart: int, n: int): M128
    requires IsMatrix(a) && IsMatrix(b)
    requires 0 <= rowStart <= 12 && 0 <= n <= 4
  {
    M128(PartialEntry(a, b, rowStart, 0, n), PartialEntry(a, b, rowStart, 1, n),
         PartialEntry(a, b, rowStart, 2, n), PartialEntry(a, b, rowStart, 3, n))
  }

  /**
   * The body of the SSE row loop: with `a[i..i+4]` broadcast one entry at a
   * time and `b` loaded one row at a time, the accumulated lanes are row
   * `i / 4` of `a * b`.
   */
  method RowSSE(a: seq<real>, b: seq<real>, i: int) returns (rLine: M128)
    requires IsMatrix(a) && IsMatrix(b)
    requires 0 <= i <= 12
    ensures rLine == PartialRow(a, b, i, 4)
  {
    // The first step is unrolled so that rLine need not start at zero.
    var aLine := LoadPs(b, 0);
    var bLine := Set1(a[i]);
    rLine := MulPs(aLine, bLine);
    assert rLine == PartialRow(a, b, i, 1) by {
      assert PartialEntry(a, b, i, 0, 0) == 0.0 && PartialEntry(a, b, i, 1, 0) == 0.0;
      assert PartialEntry(a, b, i, 2, 0) == 0.0 && PartialEntry(a, b, i, 3, 0) == 0.0;
    }

    for j := 1 to 4
      invariant rLine == PartialRow(a, b, i, j)
    {
      aLine := LoadPs(b, j * 4);
      bLine := Set1(a[i + j]);
      PartialRowStep(a, b, i, j);
      rLine := AddPs(MulPs(aLine, bLine), rLine);
    }
  }

  /** One step of the row loop adds row `n` of `b` scaled by `a[rowStart + n]`. */
  lemma PartialRowStep(a: seq<real>, b: seq<real>, rowStart: int, n: int)
    requires IsMatrix(a) && IsMatrix(b)
    requires 0 <= rowStart <= 12 && 0 <= n < 4
    ensures PartialRow(a, b, rowStart, n + 1)
         == AddPs(MulPs(LoadPs(b, n * 4), Set1(a[rowStart + n])), PartialRow(a, b, rowStart, n))
  {
  }

  /**
   * The SSE multiply: for each row, broadcast each entry of `ma`, multiply
   * by the matching row of `mb` and accumulate lane-wise.  Under real
   * arithmetic it yields the same sixteen entries as `Multiply`, and it is
   * correct when `out` is the same array as an input.
   */
  method MultiplySSE(ma: array<real>, mb: array<real>, out: array<real>)
    requires ma.Length == 16 && mb.Length == 16 && out.Length == 16
    modifies out
    ensures out[..] == Product(old(ma[..]), old(mb[..]))
  {
    // The local arrays are sequence values, updated entry by entry.
    var result: seq<real> := seq(16, _ => 0.0);
    var matA: seq<real> := seq(16, _ => 0.0);
    for i := 0 to 16
      invariant |matA| == 16
      invariant forall k :: 0 <= k < i ==> matA[k] == ma[k]
    {
      matA := matA[i := ma[i]];
    }
    var matB: seq<real> := seq(16, _ => 0.0);
    for i := 0 to 16
      invariant |matB| == 16
      invariant forall k :: 0 <= k < i ==> matB[k] == mb[k]
    {
      matB := matB[i := mb[i]];
    }
    assert matA == ma[..] && matB == mb[..];

    var i := 0;
    ghost var row := 0;
    while i < 16
      invariant 0 <= row <= 4 && i == row * 4
      invariant |result| == 16
      invariant forall r, c :: 0 <= r < row && 0 <= c < 4 ==> result[r * 4 + c] == ProductEntry(matA, matB, r, c)
    {
      var rLine := RowSSE(matA, matB, i);
      // _mm_store_ps( &result[ i ], r_line )
      result := result[i := rLine.l0][i + 1 := rLine.l1][i + 2 := rLine.l2][i + 3 := rLine.l3];
      i, row := i + 4, row + 1;
    }

    for i := 0 to 16
      invariant forall k :: 0 <= k < i ==> out[k] == result[k]
    {
      out[i] := result[i];
    }
    assert out[..] == result;
    EntriesMakeProduct(result, matA, matB);
  }

  /** Sixteen entries that agree with `ProductEntry` row by row make up the product. */
  lemma EntriesMakeProduct(s: seq<real>, a: seq<real>, b: seq<real>)
    requires IsMatrix(s) && IsMatrix(a) && IsMatrix(b)
    requires forall r, c :: 0 <= r < 4 && 0 <= c < 4 ==> s[r * 4 + c] == ProductEntry(a, b, r, c)
    ensures s == Product(a, b)
  {
    forall k | 0 <= k < 16
      ensures s[k] == Product(a, b)[k]
    {
      var r, c := k / 4, k % 4;
      assert k == r * 4 + c;
      assert s[r * 4 + c] == ProductEntry(a, b, r, c);
      assert Product(a, b)[r * 4 + c] == ProductEntry(a, b, r, c) by { ProductAt(a, b, r, c); }
    }
  }

  /** Entry `(i, j)` of the product sits at index `i * 4 + j`. */
  lemma ProductAt(a: seq<real>, b: seq<real>, i: int, j: int)
    requires IsMatrix(a) && IsMatrix(b) && 0 <= i < 4 && 0 <= j < 4
    ensures Product(a, b)[i * 4 + j] == ProductEntry(a, b, i, j)
  {
    var P := Product(a, b);
    if i == 0 {
      assert P[j] == ProductEntry(a, b, 0, j) by {
        assert j in {0, 1, 2, 3};
      }
    } else if i == 1 {
      assert P[4 + j] == ProductEntry(a, b, 1, j) by {
        assert j in {0, 1, 2, 3};
      }
    } else if i == 2 {
      assert P[8 + j] == ProductEntry(a, b, 2, j) by {
        assert j in {0, 1, 2, 3};
      }
    } else {
      assert P[12 + j] == ProductEntry(a, b, 3, j) by {
        assert j in {0, 1, 2, 3};
      }
    }
  }

  /**
   * `point * mat` for the point (x, y, z, 1); only the first three columns
   * are used, and the origin goes to the translation row.
   */
  function TransformPoint(point: Vec3, mat: seq<real>): (r: Vec3)
    requires IsMatrix(mat)
    ensures point == Zero ==> r == Vec3(mat[12], mat[13], mat[14])
  {
    Vec3(mat[0] * point.x + mat[4] * point.y + mat[8] * point.z + mat[12],
         mat[1] * point.x + mat[5] * point.y + mat[9] * point.z + mat[13],
         mat[2] * point.x + mat[6] * point.y + mat[10] * point.z + mat[14])
  }

  /**
   * Projects a local-space vertex to raster space: a perspective divide by
   * the transformed z, which is kept as the output z.  The divide is exact,
   * so the clip-space x and y can be recovered from the output.
   */
  function LocalToRaster(v: Vec3, localToClip: seq<real>): (r: Vec3)
    requires IsMatrix(localToClip)
    requires TransformPoint(v, localToClip).z != 0.0
    ensures var ndc := TransformPoint(v, localToClip);
      && r.z == ndc.z
      && (r.x - Width as real * 0.5) * ndc.z == ndc.x * Width as real * 0.5
      && (r.y - Height as real * 0.5) * ndc.z == ndc.y * Height as real * 0.5
  {
    var vertexNDC := TransformPoint(v, localToClip);
    Vec3(Width as real * 0.5 + vertexNDC.x * Width as real * 0.5 / vertexNDC.z,
         Height as real * 0.5 + vertexNDC.y * Height as real * 0.5 / vertexNDC.z,
         vertexNDC.z)
  }

  /** A point on the clip-space z axis lands on the centre of the viewport. */
  lemma RasterCentre(v: Vec3, localToClip: seq<real>)
    requires IsMatrix(localToClip)
    requires TransformPoint(v, localToClip).z != 0.0
    requires TransformPoint(v, localToClip).x == 0.0 && TransformPoint(v, localToClip).y == 0.0
    ensures LocalToRaster(v, localToClip) == Vec3(480.0, 270.0, TransformPoint(v, localToClip).z)
  {
  }

  lemma {:induction false} ProductIdentityLeft(m: seq<real>)
    requires IsMatrix(m)
    ensures Product(Identity(), m) == m
  {
    var I := Identity();
    forall k | 0 <= k < 16
      ensures Product(I, m)[k] == m[k]
    {
      var i, j := k / 4, k % 4;
      assert k == i * 4 + j;
      ProductAt(I, m, i, j);
      ProductEntryFormula(I, m, i, j);
      if i == 0 {
        assert ProductEntry(I, m, i, j) == m[j];
      } else if i == 1 {
        assert ProductEntry(I, m, i, j) == m[4 + j];
      } else if i == 2 {
        assert ProductEntry(I, m, i, j) == m[8 + j];
      } else {
        assert ProductEntry(I, m, i, j) == m[12 + j];
      }
    }
  }

  lemma {:induction false} ProductIdentityRight(m: seq<real>)
    requires IsMatrix(m)
    ensures Product(m, Identity()) == m
  {
    var I := Identity();
    forall k | 0 <= k < 16
      ensures Product(m, I)[k] == m[k]
    {
      var i, j := k / 4, k % 4;
      assert k == i * 4 + j;
      ProductAt(m, I, i, j);
      ProductEntryFormula(m, I, i, j);
      if j == 0 {
        assert ProductEntry(m, I, i, j) == m[i * 4];
      } else if j == 1 {
        assert ProductEntry(m, I, i, j) == m[i * 4 + 1];
      } else if j == 2 {
        assert ProductEntry(m, I, i, j) == m[i * 4 + 2];
      } else {
        assert ProductEntry(m, I, i, j) == m[i * 4 + 3];
      }
    }
  }

  /** The identity matrix maps every point to itself. */
  lemma TransformIdentity(p: Vec3)
    ensures TransformPoint(p, Identity()) == p
  {
  }

  /** Entries 3, 7, 11 and 15 (the last column) never influence a transformed point. */
  lemma TransformIgnoresLastColumn(p: Vec3, m: seq<real>, n: seq<real>)
    requires IsMatrix(m) && IsMatrix(n)
    requires forall k :: 0 <= k < 16 && k != 3 && k != 7 && k != 11 && k != 15 ==> m[k] == n[k]
    ensures TransformPoint(p, m) == TransformPoint(p, n)
  {
    assert m[0] == n[0] && m[1] == n[1] && m[2] == n[2];
    assert m[4] == n[4] && m[5] == n[5] && m[6] == n[6];
    assert m[8] == n[8] && m[9] == n[9] && m[10] == n[10];
    assert m[12] == n[12] && m[13] == n[13] && m[14] == n[14];
    assert TransformPoint(p, m).x == TransformPoint(p, n).x;
    assert TransformPoint(p, m).y == TransformPoint(p, n).y;
    assert TransformPoint(p, m).z == TransformPoint(p, n).z;
  }

  /**
   * `multiply(a, b)` means "apply a, then b": transforming by the product is
   * transforming by `a` and then by `b`, when `a` is affine.
   */
  lemma TransformByProduct(p: Vec3, a: seq<real>, b: seq<real>)
    requires IsMatrix(a) && IsMatrix(b) && IsAffine(a)
    ensures TransformPoint(p, Product(a, b)) == TransformPoint(TransformPoint(p, a), b)
  {
    var ab := Product(a, b);
    var q := TransformPoint(p, a);
    var r, s := TransformPoint(p, ab), TransformPoint(q, b);
    assert r.x == s.x by {
      AffineColumn(p, q, a, b, 0, ab[0], ab[4], ab[8], ab[12], r.x, s.x);
    }
    assert r.y == s.y by {
      AffineColumn(p, q, a, b, 1, ab[1], ab[5], ab[9], ab[13], r.y, s.y);
    }
    assert r.z == s.z by {
      AffineColumn(p, q, a, b, 2, ab[2], ab[6], ab[10], ab[14], r.z, s.z);
    }
  }

  /**
   * One output component `j` of `TransformByProduct`: `lhs` is that
   * component of `p` transformed by the product, whose column `j` is
   * `c0..c3`, and `rhs` the same component of `q`, `p` transformed by `a`,
   * transformed by `b`.
   */
  lemma AffineColumn(p: Vec3, q: Vec3, a: seq<real>, b: seq<real>, j: int,
                     c0: real, c1: real, c2: real, c3: real, lhs: real, rhs: real)
    requires IsMatrix(a) && IsMatrix(b) && IsAffine(a) && 0 <= j < 4
    requires c0 == ProductEntry(a, b, 0, j) && c1 == ProductEntry(a, b, 1, j)
    requires c2 == ProductEntry(a, b, 2, j) && c3 == ProductEntry(a, b, 3, j)
    requires q == TransformPoint(p, a)
    requires lhs == c0 * p.x + c1 * p.y + c2 * p.z + c3
    requires rhs == b[j] * q.x + b[4 + j] * q.y + b[8 + j] * q.z + b[12 + j]
    ensures lhs == rhs
  {
    ProductEntryFormula(a, b, 0, j);
    ProductEntryFormula(a, b, 1, j);
    ProductEntryFormula(a, b, 2, j);
    ProductEntryFormula(a, b, 3, j);
  }

  /** With zero angles (sines 0, cosines 1) the rotation is the identity. */
  lemma RotationOfZeroAnglesIsIdentity()
    ensures RotationEntries(0.0, 0.0, 0.0, 1.0, 1.0, 1.0) == Identity()
  {
  }

  /**
   * Whatever the angles, `makeRotationXYZ` writes the last column
   * (0, 0, 0, 1) and a zero translation row.
   */
  lemma RotationFixedEntries(xDeg: real, yDeg: real, zDeg: real, sin: real -> real, cos: real -> real)
    ensures var m := Rotation(xDeg, yDeg, zDeg, sin, cos);
      IsAffine(m) && m[12] == 0.0 && m[13] == 0.0 && m[14] == 0.0
  {
  }

  /** Whatever the field of view and depths, `makeProjection` writes -1 at index 11 and 0 at index 15. */
  lemma ProjectionFixedEntries(fovDegrees: real, aspect: real, nearDepth: real, farDepth: real, tan: real -> real)
    requires tan(HalfFovRadians(fovDegrees)) != 0.0
    requires aspect != 0.0 && nearDepth != farDepth
    ensures var m := Projection(fovDegrees, aspect, nearDepth, farDepth, tan);
      m[11] == -1.0 && m[15] == 0.0 && m[3] == 0.0 && m[7] == 0.0 && m[12] == 0.0 && m[13] == 0.0
  {
  }

  /**
   * The projection sends view depth `-nearDepth` to clip z 0 and
   * `-farDepth` to clip z `farDepth`; its -1 at index 11 is never read by
   * `TransformPoint`.
   */
  lemma ProjectionDepthRange(f: real, aspect: real, nearDepth: real, farDepth: real, x: real, y: real)
    requires aspect != 0.0 && nearDepth != farDepth
    ensures var m := ProjectionEntries(f, aspect, nearDepth, farDepth);
      && TransformPoint(Vec3(x, y, -nearDepth), m).z == 0.0
      && TransformPoint(Vec3(x, y, -farDepth), m).z == farDepth
      && TransformPoint(Vec3(x, y, -nearDepth), m).x == f / aspect * x
  {
    var m := ProjectionEntries(f, aspect, nearDepth, farDepth);
    var k := nearDepth - farDepth;
    assert m[2] == 0.0 && m[6] == 0.0 && m[10] == farDepth / k && m[14] == (nearDepth * farDepth) / k;
    DepthRow(nearDepth, farDepth, m[10], m[14]);
    assert TransformPoint(Vec3(x, y, -nearDepth), m).z == m[10] * -nearDepth + m[14];
    assert TransformPoint(Vec3(x, y, -farDepth), m).z == m[10] * -farDepth + m[14];
  }

  /** The third column's depth entries map `-nearDepth` to 0 and `-farDepth` to `farDepth`. */
  lemma DepthRow(nearDepth: real, farDepth: real, a: real, b: real)
    requires nearDepth != farDepth
    requires a == farDepth / (nearDepth - farDepth) && b == (nearDepth * farDepth) / (nearDepth - farDepth)
    ensures a * -nearDepth + b == 0.0
    ensures a * -farDepth + b == farDepth
  {
    var k := nearDepth - farDepth;
    assert a * k == farDepth;
    assert b * k == nearDepth * farDepth;
    assert (a * -nearDepth + b) * k == 0.0 by {
      calc {
        (a * -nearDepth + b) * k;
        -nearDepth * (a * k) + b * k;
        -nearDepth * farDepth + nearDepth * farDepth;
        0.0;
      }
    }
    assert (a * -farDepth + b) * k == farDepth * k by {
      calc {
        (a * -farDepth + b) * k;
        -farDepth * (a * k) + b * k;
        -farDepth * farDepth + nearDepth * farDepth;
        farDepth * k;
      }
    }
  }
}
