/**
 * Triangle scan conversion and the per-face driver (renderer.c).
 *
 * Both triangle routines write a depth buffer and a colour buffer of
 * `WIDTH * HEIGHT` entries (see module Raster; the row pitch is taken to be
 * exactly `WIDTH` pixels).  `float` arithmetic is ideal real arithmetic; the
 * float-to-int conversions of the C are written out (`Trunc`, `Round`).
 *
 * Each routine is specified pixel by pixel: `Drawn2` (the optimised
 * `drawTriangle2`) and `DrawnRef` (the reference `drawTriangle`) say what a
 * pixel holds afterwards, given what it held before; `MapPixels` lifts that
 * to whole buffers, and the methods are proved to compute exactly that.
 */
module Renderer {
  import opened Vec
  import MyMath
  import opened Raster

  /** A projected vertex: raster x and y, depth z, texture coordinates. */
  datatype Vertex = Vertex(x: real, y: real, z: real, u: real, v: real)

  /** A texture coordinate pair. */
  datatype UV = UV(u: real, v: real)

  /** An `unsigned short`. */
  type UShort = i: int | 0 <= i < 65536

  /** The three vertex indices of a face. */
  datatype VertexInd = VertexInd(a: UShort, b: UShort, c: UShort)

  /** The three vertices handed to a triangle routine, in order. */
  datatype Triangle = Triangle(v1: Vertex, v2: Vertex, v3: Vertex)

  /** A mesh: per-vertex arrays and the faces indexing them. */
  class Mesh {
    var positions: array<Vec3>
    var vertexCount: nat
    var normals: array<Vec3>
    var uvs: array<UV>
    var faces: array<VertexInd>
    var faceCount: nat
    var aabbMin: Vec3
    var aabbMax: Vec3

    constructor (positions: array<Vec3>, normals: array<Vec3>, uvs: array<UV>, faces: array<VertexInd>)
      ensures this.positions == positions && this.normals == normals
      ensures this.uvs == uvs && this.faces == faces
      ensures vertexCount == 0 && faceCount == 0
      ensures aabbMin == Zero && aabbMax == Zero
    {
      this.positions := positions;
      this.normals := normals;
      this.uvs := uvs;
      this.faces := faces;
      vertexCount := 0;
      faceCount := 0;
      aabbMin := Zero;
      aabbMax := Zero;
    }
  }

  // ---------------------------------------------------------------------
  // Edge functions

  /** `edgeFunction`: which side of the edge a -> b the point c lies on. */
  function EdgeFunction(x1: real, y1: real, x2: real, y2: real, x3: real, y3: real): (r: real)
    ensures r == -Orient2D(x1, y1, x2, y2, x3, y3)
  {
    (x3 - x1) * (y2 - y1) - (y3 - y1) * (x2 - x1)
  }

  /**
   * `orient2D`: twice the signed area of the triangle a, b, c, which is 0
   * when two of the points coincide.
   */
  function Orient2D(x1: real, y1: real, x2: real, y2: real, x3: real, y3: real): (r: real)
    ensures x1 == x2 && y1 == y2 ==> r == 0.0
    ensures x2 == x3 && y2 == y3 ==> r == 0.0
    ensures x3 == x1 && y3 == y1 ==> r == 0.0
  {
    (x2 - x1) * (y3 - y1) - (y2 - y1) * (x3 - x1)
  }

  /** The signed area does not depend on which vertex is named first. */
  lemma Orient2DCyclic(x1: real, y1: real, x2: real, y2: real, x3: real, y3: real)
    ensures Orient2D(x1, y1, x2, y2, x3, y3) == Orient2D(x2, y2, x3, y3, x1, y1)
    ensures Orient2D(x1, y1, x2, y2, x3, y3) == Orient2D(x3, y3, x1, y1, x2, y2)
  {
  }

  /** Swapping two vertices flips the sign. */
  lemma Orient2DSwap(x1: real, y1: real, x2: real, y2: real, x3: real, y3: real)
    ensures Orient2D(x2, y2, x1, y1, x3, y3) == -Orient2D(x1, y1, x2, y2, x3, y3)
  {
  }

  /**
   * One pixel to the right adds `y1 - y2`, one row down adds `x2 - x1`:
   * the steps `drawTriangle2` accumulates.
   */
  lemma Orient2DSteps(x1: real, y1: real, x2: real, y2: real, x3: real, y3: real)
    ensures Orient2D(x1, y1, x2, y2, x3 + 1.0, y3) == Orient2D(x1, y1, x2, y2, x3, y3) + (y1 - y2)
    ensures Orient2D(x1, y1, x2, y2, x3, y3 + 1.0) == Orient2D(x1, y1, x2, y2, x3, y3) + (x2 - x1)
  {
  }

  /** The three sub-triangles at any point add up to the whole triangle. */
  lemma EdgeFunctionsSum(x1: real, y1: real, x2: real, y2: real, x3: real, y3: real, px: real, py: real)
    ensures EdgeFunction(x2, y2, x3, y3, px, py) + EdgeFunction(x3, y3, x1, y1, px, py)
          + EdgeFunction(x1, y1, x2, y2, px, py) == EdgeFunction(x1, y1, x2, y2, x3, y3)
  {
  }

  // ---------------------------------------------------------------------
  // Conversions

  /** C's float-to-int conversion: truncation toward zero. */
  function Trunc(r: real): (i: int)
    ensures r >= 0.0 ==> 0 <= i && i as real <= r < i as real + 1.0
    ensures r < 0.0 ==> i <= 0 && i as real - 1.0 < r <= i as real
  {
    if r >= 0.0 then r.Floor else -((-r).Floor)
  }

  /** C's `round`: to nearest, halfway cases away from zero. */
  function Round(r: real): (i: int)
    ensures r >= 0.0 ==> i as real - 0.5 <= r < i as real + 0.5
    ensures r < 0.0 ==> i as real - 0.5 < r <= i as real + 0.5
  {
    if r >= 0.0 then (r + 0.5).Floor else -((-r + 0.5).Floor)
  }

  /** `fmin` and `fmax` on finite values. */
  function RMin(a: real, b: real): (r: real)
    ensures r <= a && r <= b && (r == a || r == b)
  {
    if a < b then a else b
  }

  function RMax(a: real, b: real): (r: real)
    ensures r >= a && r >= b && (r == a || r == b)
  {
    if a > b then a else b
  }

  /** `maxi(0, mini(i, texDim - 1))`. */
  function ClampTexel(i: int, texDim: int): (r: int)
    requires texDim >= 1
    ensures 0 <= r < texDim
    ensures 0 <= i < texDim ==> r == i
  {
    MyMath.ClampInRange(i, texDim);
    MyMath.Maxi(0, MyMath.Mini(i, texDim - 1))
  }

  /** A texel at clamped coordinates lies inside the texture. */
  lemma TexelInRange(ix: int, iy: int, texDim: int)
    requires 0 <= ix < texDim && 0 <= iy < texDim
    ensures 0 <= iy * texDim + ix < texDim * texDim
  {
    assert iy * texDim <= (texDim - 1) * texDim by {
      assert (texDim - 1 - iy) * texDim >= 0;
    }
  }

  // ---------------------------------------------------------------------
  // Interpolation shared by both routines

  predicate NonZeroDepths(t: Triangle)
  {
    t.v1.z != 0.0 && t.v2.z != 0.0 && t.v3.z != 0.0
  }

  /** The three per-vertex values `a1 .. a3` weighted by `w0 .. w2`. */
  function Blend(w0: real, w1: real, w2: real, a1: real, a2: real, a3: real): real
  {
    w0 * a1 + w1 * a2 + w2 * a3
  }

  /**
   * Weights `w0 .. w2` give a depth: `w0 * z1 + w1 * z2 + w2 * z3`, with
   * `zi = 1 / vi.z`, is defined and non-zero.
   */
  predicate HasDepth(t: Triangle, w0: real, w1: real, w2: real)
  {
    NonZeroDepths(t) && Blend(w0, w1, w2, 1.0 / t.v1.z, 1.0 / t.v2.z, 1.0 / t.v3.z) != 0.0
  }

  /** The interpolated depth for weights `w0 .. w2`. */
  function DepthOf(t: Triangle, w0: real, w1: real, w2: real): real
    requires HasDepth(t, w0, w1, w2)
  {
    1.0 / Blend(w0, w1, w2, 1.0 / t.v1.z, 1.0 / t.v2.z, 1.0 / t.v3.z)
  }

  /**
   * Perspective-correct interpolation: the weights applied to attributes
   * already divided by depth, times the interpolated depth.
   */
  function Interpolate(t: Triangle, w0: real, w1: real, w2: real, a1: real, a2: real, a3: real): real
    requires HasDepth(t, w0, w1, w2)
  {
    Blend(w0, w1, w2, a1, a2, a3) * DepthOf(t, w0, w1, w2)
  }

  /** The interpolated `u` and `v`. */
  function InterpolateU(t: Triangle, w0: real, w1: real, w2: real): real
    requires HasDepth(t, w0, w1, w2)
  {
    Interpolate(t, w0, w1, w2, t.v1.u / t.v1.z, t.v2.u / t.v2.z, t.v3.u / t.v3.z)
  }

  function InterpolateV(t: Triangle, w0: real, w1: real, w2: real): real
    requires HasDepth(t, w0, w1, w2)
  {
    Interpolate(t, w0, w1, w2, t.v1.v / t.v1.z, t.v2.v / t.v2.z, t.v3.v / t.v3.z)
  }

  /** `s * (texDim - 1) + 0.5` converted to int: a coordinate scaled and rounded to a texel. */
  function RawTexelCoord(s: real, texDim: int): int
  {
    Trunc(s * (texDim as real - 1.0) + 0.5)
  }

  /** A coordinate in [0, 1] lands on a texel without clamping. */
  lemma RawTexelCoordInRange(s: real, texDim: int)
    requires 0.0 <= s <= 1.0 && texDim >= 1
    ensures 0 <= RawTexelCoord(s, texDim) < texDim
  {
    var n := texDim as real - 1.0;
    NonNegativeProduct(s, n);
    NonNegativeProduct(1.0 - s, n);
    var r := s * n + 0.5;
    assert 0.5 <= r <= n + 0.5;
    var i := Trunc(r);
    assert i as real <= r;
    assert i as real < texDim as real;
  }



  /** The loop's interpolation of an attribute is `Interpolate`. */
  lemma InterpolateIs(t: Triangle, w0: real, w1: real, w2: real, z: real, a1: real, a2: real, a3: real, sum: real)
    requires HasDepth(t, w0, w1, w2) && z == DepthOf(t, w0, w1, w2)
    requires sum == w0 * a1 + w1 * a2 + w2 * a3
    ensures sum * z == Interpolate(t, w0, w1, w2, a1, a2, a3)
  {
  }

  /**
   * With positive depths, positive weights and texture coordinates in
   * [0, 1], there is a depth and the interpolated coordinates stay in
   * [0, 1]: they are convex combinations of the vertices' coordinates.
   */
  lemma ConvexInterpolation(t: Triangle, w0: real, w1: real, w2: real)
    requires t.v1.z > 0.0 && t.v2.z > 0.0 && t.v3.z > 0.0
    requires w0 > 0.0 && w1 > 0.0 && w2 > 0.0
    requires UnitUVs(t)
    ensures HasDepth(t, w0, w1, w2) && DepthOf(t, w0, w1, w2) > 0.0
    ensures 0.0 <= InterpolateU(t, w0, w1, w2) <= 1.0
    ensures 0.0 <= InterpolateV(t, w0, w1, w2) <= 1.0
  {
    var c1, c2, c3 := w0 * (1.0 / t.v1.z), w1 * (1.0 / t.v2.z), w2 * (1.0 / t.v3.z);
    PositiveProduct(w0, 1.0 / t.v1.z);
    PositiveProduct(w1, 1.0 / t.v2.z);
    PositiveProduct(w2, 1.0 / t.v3.z);
    var d := Blend(w0, w1, w2, 1.0 / t.v1.z, 1.0 / t.v2.z, 1.0 / t.v3.z);
    assert d == c1 + c2 + c3 > 0.0;
    ConvexCoordinate(t, w0, w1, w2, c1, c2, c3, t.v1.u, t.v2.u, t.v3.u);
    ConvexCoordinate(t, w0, w1, w2, c1, c2, c3, t.v1.v, t.v2.v, t.v3.v);
  }

  /** Texture coordinates in [0, 1] at all three vertices. */
  predicate UnitUVs(t: Triangle)
  {
    0.0 <= t.v1.u <= 1.0 && 0.0 <= t.v2.u <= 1.0 && 0.0 <= t.v3.u <= 1.0 &&
    0.0 <= t.v1.v <= 1.0 && 0.0 <= t.v2.v <= 1.0 && 0.0 <= t.v3.v <= 1.0
  }

  lemma ConvexCoordinate(t: Triangle, w0: real, w1: real, w2: real, c1: real, c2: real, c3: real,
                         a1: real, a2: real, a3: real)
    requires t.v1.z > 0.0 && t.v2.z > 0.0 && t.v3.z > 0.0
    requires c1 == w0 * (1.0 / t.v1.z) && c2 == w1 * (1.0 / t.v2.z) && c3 == w2 * (1.0 / t.v3.z)
    requires c1 > 0.0 && c2 > 0.0 && c3 > 0.0
    requires 0.0 <= a1 <= 1.0 && 0.0 <= a2 <= 1.0 && 0.0 <= a3 <= 1.0
    ensures HasDepth(t, w0, w1, w2)
    ensures 0.0 <= Interpolate(t, w0, w1, w2, a1 / t.v1.z, a2 / t.v2.z, a3 / t.v3.z) <= 1.0
  {
    var d := c1 + c2 + c3;
    var n := Blend(w0, w1, w2, a1 / t.v1.z, a2 / t.v2.z, a3 / t.v3.z);
    assert n == c1 * a1 + c2 * a2 + c3 * a3 by {
      ScaledTerm(w0, a1, t.v1.z, c1);
      ScaledTerm(w1, a2, t.v2.z, c2);
      ScaledTerm(w2, a3, t.v3.z, c3);
    }
    ConvexSum(c1, c2, c3, a1, a2, a3);
    FractionInUnit(n, d);
  }

  /** Weights times values in [0, 1] add up to at most the weights' sum. */
  lemma ConvexSum(c1: real, c2: real, c3: real, a1: real, a2: real, a3: real)
    requires c1 > 0.0 && c2 > 0.0 && c3 > 0.0
    requires 0.0 <= a1 <= 1.0 && 0.0 <= a2 <= 1.0 && 0.0 <= a3 <= 1.0
    ensures 0.0 <= c1 * a1 + c2 * a2 + c3 * a3 <= c1 + c2 + c3
  {
    WeightedBetween(c1, a1);
    WeightedBetween(c2, a2);
    WeightedBetween(c3, a3);
    var p1, p2, p3 := c1 * a1, c2 * a2, c3 * a3;
    assert p1 <= c1 && p2 <= c2 && p3 <= c3;
    assert p1 + p2 + p3 <= c1 + c2 + c3;
  }

  lemma ScaledTerm(w: real, a: real, z: real, c: real)
    requires z != 0.0 && c == w * (1.0 / z)
    ensures w * (a / z) == c * a
  {
  }

  lemma WeightedBetween(c: real, a: real)
    requires c > 0.0 && 0.0 <= a <= 1.0
    ensures 0.0 <= c * a <= c
  {
    NonNegativeProduct(c, a);
    NonNegativeProduct(c, 1.0 - a);
  }

  lemma FractionInUnit(n: real, d: real)
    requires d > 0.0 && 0.0 <= n <= d
    ensures 0.0 <= n * (1.0 / d) <= 1.0
  {
    NonNegativeProduct(n, 1.0 / d);
    NonNegativeProduct(d - n, 1.0 / d);
    assert d * (1.0 / d) == 1.0;
  }

  /**
   * For a triangle at one constant depth `c`, weights summing to `sum`
   * give the depth `c / sum`.
   */
  lemma FlatDepth(t: Triangle, w0: real, w1: real, w2: real, c: real)
    requires t.v1.z == c && t.v2.z == c && t.v3.z == c && c != 0.0
    requires w0 + w1 + w2 != 0.0
    ensures HasDepth(t, w0, w1, w2)
    ensures DepthOf(t, w0, w1, w2) == c / (w0 + w1 + w2)
  {
    assert Blend(w0, w1, w2, 1.0 / c, 1.0 / c, 1.0 / c) == (w0 + w1 + w2) * (1.0 / c);
  }

  // ---------------------------------------------------------------------
  // drawTriangle2: the bounding box

  /**
   * The box `drawTriangle2` scans: minimum coordinates rounded, maximum
   * ones truncated, then clipped to the screen.  Every pixel in it is on
   * the screen.
   */
  function Box2(t: Triangle): (b: Box)
    ensures 0 <= b.minx && b.maxx <= MyMath.Width - 1
    ensures 0 <= b.miny && b.maxy <= MyMath.Height - 1
    ensures forall x, y :: InBox(b, x, y) ==> OnScreen(x, y)
  {
    var minx := Round(RMin(t.v1.x, RMin(t.v2.x, t.v3.x)));
    var miny := Round(RMin(t.v1.y, RMin(t.v2.y, t.v3.y)));
    var maxx := Trunc(RMax(t.v1.x, RMax(t.v2.x, t.v3.x)));
    var maxy := Trunc(RMax(t.v1.y, RMax(t.v2.y, t.v3.y)));
    Box(MyMath.Maxi(minx, 0), MyMath.Maxi(miny, 0),
        MyMath.Mini(maxx, MyMath.Width - 1), MyMath.Mini(maxy, MyMath.Height - 1))
  }

  // ---------------------------------------------------------------------
  // drawTriangle2: one pixel

  /** The fill-convention offset: 0 for an edge whose `a` is negative, else -1. */
  function Bias(a: real): int
  {
    if a < 0.0 then 0 else -1
  }

  /**
   * The three accumulated edge values at pixel (x, y).  As in the source,
   * the offset added to the v2 -> v3 edge is computed from `a01 = y1 - y2`,
   * the offset of the v3 -> v1 edge from `a12`, and that of v1 -> v2 from
   * `a20`.
   */
  function W0(t: Triangle, x: int, y: int): real
  {
    Orient2D(t.v2.x, t.v2.y, t.v3.x, t.v3.y, x as real, y as real) + Bias(t.v1.y - t.v2.y) as real
  }

  function W1(t: Triangle, x: int, y: int): real
  {
    Orient2D(t.v3.x, t.v3.y, t.v1.x, t.v1.y, x as real, y as real) + Bias(t.v2.y - t.v3.y) as real
  }

  function W2(t: Triangle, x: int, y: int): real
  {
    Orient2D(t.v1.x, t.v1.y, t.v2.x, t.v2.y, x as real, y as real) + Bias(t.v3.y - t.v1.y) as real
  }

  /** The accumulated edge values step as the edge functions do. */
  lemma EdgeSteps(t: Triangle, x: int, y: int)
    ensures W0(t, x + 1, y) == W0(t, x, y) + (t.v2.y - t.v3.y)
    ensures W1(t, x + 1, y) == W1(t, x, y) + (t.v3.y - t.v1.y)
    ensures W2(t, x + 1, y) == W2(t, x, y) + (t.v1.y - t.v2.y)
    ensures W0(t, x, y + 1) == W0(t, x, y) + (t.v3.x - t.v2.x)
    ensures W1(t, x, y + 1) == W1(t, x, y) + (t.v1.x - t.v3.x)
    ensures W2(t, x, y + 1) == W2(t, x, y) + (t.v2.x - t.v1.x)
  {
    assert (x + 1) as real == x as real + 1.0;
    assert (y + 1) as real == y as real + 1.0;
    Orient2DSteps(t.v2.x, t.v2.y, t.v3.x, t.v3.y, x as real, y as real);
    Orient2DSteps(t.v3.x, t.v3.y, t.v1.x, t.v1.y, x as real, y as real);
    Orient2DSteps(t.v1.x, t.v1.y, t.v2.x, t.v2.y, x as real, y as real);
  }

  /**
   * The accumulated edge values are not normalised: they add up to the
   * doubled signed area plus the three offsets, whatever the pixel.
   */
  lemma EdgeValuesSum(t: Triangle, x: int, y: int)
    ensures W0(t, x, y) + W1(t, x, y) + W2(t, x, y) ==
      Orient2D(t.v1.x, t.v1.y, t.v2.x, t.v2.y, t.v3.x, t.v3.y)
      + (Bias(t.v1.y - t.v2.y) + Bias(t.v2.y - t.v3.y) + Bias(t.v3.y - t.v1.y)) as real
  {
    EdgeFunctionsSum(t.v1.x, t.v1.y, t.v2.x, t.v2.y, t.v3.x, t.v3.y, x as real, y as real);
  }

  /**
   * For a triangle at one constant depth `c` the depth `drawTriangle2`
   * stores is `c` divided by that sum, not `c`.
   */
  lemma FlatDepth2(t: Triangle, x: int, y: int, c: real)
    requires t.v1.z == c && t.v2.z == c && t.v3.z == c && c != 0.0
    requires Orient2D(t.v1.x, t.v1.y, t.v2.x, t.v2.y, t.v3.x, t.v3.y)
      + (Bias(t.v1.y - t.v2.y) + Bias(t.v2.y - t.v3.y) + Bias(t.v3.y - t.v1.y)) as real != 0.0
    ensures HasDepth(t, W0(t, x, y), W1(t, x, y), W2(t, x, y))
    ensures DepthOf(t, W0(t, x, y), W1(t, x, y), W2(t, x, y)) ==
      c / (Orient2D(t.v1.x, t.v1.y, t.v2.x, t.v2.y, t.v3.x, t.v3.y)
           + (Bias(t.v1.y - t.v2.y) + Bias(t.v2.y - t.v3.y) + Bias(t.v3.y - t.v1.y)) as real)
  {
    EdgeValuesSum(t, x, y);
    FlatDepth(t, W0(t, x, y), W1(t, x, y), W2(t, x, y), c);
  }

  /** A texture coordinate scaled, rounded and clamped to an edge texel. */
  function TexelCoord(s: real, texDim: int): (i: int)
    requires texDim >= 1
    ensures 0 <= i < texDim
  {
    ClampTexel(RawTexelCoord(s, texDim), texDim)
  }

  /** The texel `drawTriangle2` reads for edge values `w0 .. w2` lies in the texture. */
  function TexelIndex2(t: Triangle, texDim: int, w0: real, w1: real, w2: real): (k: int)
    requires HasDepth(t, w0, w1, w2) && texDim >= 1
    ensures 0 <= k < texDim * texDim
  {
    var ix := TexelCoord(InterpolateU(t, w0, w1, w2), texDim);
    var iy := TexelCoord(InterpolateV(t, w0, w1, w2), texDim);
    TexelInRange(ix, iy, texDim);
    iy * texDim + ix
  }

  /**
   * One pixel with edge values `w0 .. w2`, from the pixel before: written
   * when the interpolated depth is greater than the stored one and the
   * pixel is on the inner side of all three edges.  For a flat triangle
   * that depth grows with the triangle's z, so the farther surface passes
   * (see `Shade2KeepsFarther`).
   */
  function Shade2(t: Triangle, texture: seq<int>, texDim: int, w0: real, w1: real, w2: real, p: Pixel): Pixel
    requires HasDepth(t, w0, w1, w2) && texDim >= 1 && |texture| == texDim * texDim
  {
    if DepthOf(t, w0, w1, w2) > p.depth && w0 >= 0.0 && w1 >= 0.0 && w2 >= 0.0 then
      Pixel(DepthOf(t, w0, w1, w2), texture[TexelIndex2(t, texDim, w0, w1, w2)])
    else
      p
  }

  /** Pixel (x, y) has a depth. */
  predicate Defined2(t: Triangle, x: int, y: int)
  {
    HasDepth(t, W0(t, x, y), W1(t, x, y), W2(t, x, y))
  }

  /** Every pixel of box `b` has a depth. */
  ghost predicate DrawableIn(t: Triangle, b: Box)
  {
    forall x, y :: InBox(b, x, y) ==> Defined2(t, x, y)
  }

  /** What `drawTriangle2` needs in order not to divide by zero. */
  ghost predicate Drawable2(t: Triangle)
  {
    NonZeroDepths(t) && DrawableIn(t, Box2(t))
  }

  /** Pixel (x, y) after scanning box `b`, from the pixel before. */
  function Drawn2(t: Triangle, b: Box, texture: seq<int>, texDim: int, x: int, y: int, p: Pixel): Pixel
    requires DrawableIn(t, b) && texDim >= 1 && |texture| == texDim * texDim
  {
    if InBox(b, x, y) then Shade2(t, texture, texDim, W0(t, x, y), W1(t, x, y), W2(t, x, y), p) else p
  }

  /** The update scanning box `b` applies to each pixel: the box only, and idempotent. */
  function Draw2(t: Triangle, b: Box, texture: seq<int>, texDim: int): (g: (int, int, Pixel) -> Pixel)
    requires DrawableIn(t, b) && texDim >= 1 && |texture| == texDim * texDim
    ensures KeepsOutside(g, b) && Idempotent(g)
    ensures forall x, y, p :: g(x, y, p) == Drawn2(t, b, texture, texDim, x, y, p)
  {
    (x, y, p) => Drawn2(t, b, texture, texDim, x, y, p)
  }

  /** `drawTriangle2` on whole buffers. */
  function DrawTriangle2Frame(t: Triangle, texture: seq<int>, texDim: int, f: Frame): Frame
    requires Drawable2(t) && texDim >= 1 && |texture| == texDim * texDim && IsFrame(f)
  {
    MapPixels(Draw2(t, Box2(t), texture, texDim), f)
  }

  // ---------------------------------------------------------------------
  // drawTriangle2: properties

  /** The depth test only lets greater values in: depth never decreases. */
  lemma Drawn2DepthNeverDecreases(t: Triangle, b: Box, texture: seq<int>, texDim: int, x: int, y: int, p: Pixel)
    requires DrawableIn(t, b) && texDim >= 1 && |texture| == texDim * texDim
    ensures Drawn2(t, b, texture, texDim, x, y, p).depth >= p.depth
  {
  }

  /**
   * A pixel changes exactly when it lies in the box, is on the inner side
   * of all three edges and has a greater depth; it then holds the interpolated depth
   * and the clamped texel.
   */
  lemma Drawn2Written(t: Triangle, b: Box, texture: seq<int>, texDim: int, x: int, y: int, p: Pixel)
    requires DrawableIn(t, b) && texDim >= 1 && |texture| == texDim * texDim
    ensures Drawn2(t, b, texture, texDim, x, y, p) != p <==>
      InBox(b, x, y) && W0(t, x, y) >= 0.0 && W1(t, x, y) >= 0.0 && W2(t, x, y) >= 0.0 &&
      DepthOf(t, W0(t, x, y), W1(t, x, y), W2(t, x, y)) > p.depth
    ensures Drawn2(t, b, texture, texDim, x, y, p) != p ==>
      Drawn2(t, b, texture, texDim, x, y, p) ==
        Pixel(DepthOf(t, W0(t, x, y), W1(t, x, y), W2(t, x, y)),
              texture[TexelIndex2(t, texDim, W0(t, x, y), W1(t, x, y), W2(t, x, y))])
  {
  }

  /**
   * Drawing the same triangle twice is drawing it once: the second time no
   * pixel has a depth strictly greater than what the first time stored.
   */
  lemma {:induction false} DrawTriangle2Idempotent(t: Triangle, texture: seq<int>, texDim: int, f: Frame)
    requires Drawable2(t) && texDim >= 1 && |texture| == texDim * texDim && IsFrame(f)
    ensures var g := DrawTriangle2Frame(t, texture, texDim, f);
            DrawTriangle2Frame(t, texture, texDim, g) == g
  {
    MapPixelsIdempotent(Draw2(t, Box2(t), texture, texDim), f);
  }

  /** On whole buffers: no depth decreases, and nothing outside `Box2` changes. */
  lemma DrawTriangle2Frame_Monotone(t: Triangle, texture: seq<int>, texDim: int, f: Frame)
    requires Drawable2(t) && texDim >= 1 && |texture| == texDim * texDim && IsFrame(f)
    ensures forall x, y :: OnScreen(x, y) ==>
      PixelAt(DrawTriangle2Frame(t, texture, texDim, f), x, y).depth >= PixelAt(f, x, y).depth
    ensures forall x, y :: OnScreen(x, y) && !InBox(Box2(t), x, y) ==>
      PixelAt(DrawTriangle2Frame(t, texture, texDim, f), x, y) == PixelAt(f, x, y)
  {
  }

  /** An empty clipped box leaves both buffers as they were. */
  lemma DrawTriangle2EmptyBox(t: Triangle, texture: seq<int>, texDim: int, f: Frame)
    requires Drawable2(t) && texDim >= 1 && |texture| == texDim * texDim && IsFrame(f)
    requires Box2(t).minx > Box2(t).maxx || Box2(t).miny > Box2(t).maxy
    ensures DrawTriangle2Frame(t, texture, texDim, f) == f
  {
    FramesEqualByPixel(DrawTriangle2Frame(t, texture, texDim, f), f);
  }

  // ---------------------------------------------------------------------
  // drawTriangle2: the depth test keeps the farther surface

  /** The screen triangle (0, 0), (10, 0), (0, 10), all three corners at depth `c`. */
  function FlatExampleTriangle(c: real): Triangle
  {
    Triangle(Vertex(0.0, 0.0, c, 0.0, 0.0), Vertex(10.0, 0.0, c, 0.0, 0.0), Vertex(0.0, 10.0, c, 0.0, 0.0))
  }

  /**
   * As written, the depth test keeps the farther of two surfaces: at pixel
   * (1, 1) the edge values of `FlatExampleTriangle` sum to 98, so the copy at
   * depth 1 stores 1/98, and the copy at depth 10 drawn after it passes the
   * test and stores 10/98, exactly as if it had been drawn alone.
   */
  lemma Shade2KeepsFarther()
    ensures var near, far := FlatExampleTriangle(1.0), FlatExampleTriangle(10.0);
      && HasDepth(near, W0(near, 1, 1), W1(near, 1, 1), W2(near, 1, 1))
      && HasDepth(far, W0(far, 1, 1), W1(far, 1, 1), W2(far, 1, 1))
      && var first := Shade2(near, [0], 1, W0(near, 1, 1), W1(near, 1, 1), W2(near, 1, 1), Pixel(0.0, 0));
         var second := Shade2(far, [0], 1, W0(far, 1, 1), W1(far, 1, 1), W2(far, 1, 1), first);
         && first.depth == 1.0 / 98.0
         && second.depth == 10.0 / 98.0
         && second == Shade2(far, [0], 1, W0(far, 1, 1), W1(far, 1, 1), W2(far, 1, 1), Pixel(0.0, 0))
  {
    var near, far := FlatExampleTriangle(1.0), FlatExampleTriangle(10.0);
    assert W0(near, 1, 1) == 79.0 && W1(near, 1, 1) == 10.0 && W2(near, 1, 1) == 9.0;
    assert W0(far, 1, 1) == 79.0 && W1(far, 1, 1) == 10.0 && W2(far, 1, 1) == 9.0;
    FlatDepth(near, 79.0, 10.0, 9.0, 1.0);
    FlatDepth(far, 79.0, 10.0, 9.0, 10.0);
  }

  /**
   * The interpolated reciprocal depth: the edge values applied to `1 / z`
   * at the corners, divided by their sum.
   */
  function InverseDepthOf(t: Triangle, w0: real, w1: real, w2: real): real
    requires NonZeroDepths(t) && w0 + w1 + w2 != 0.0
  {
    Blend(w0, w1, w2, 1.0 / t.v1.z, 1.0 / t.v2.z, 1.0 / t.v3.z) / (w0 + w1 + w2)
  }

  /**
   * The depth test corrected: the buffer holds reciprocal depths (a cleared
   * buffer of zeros is infinitely far), and a greater reciprocal depth,
   * that is a nearer surface, passes.
   */
  function Shade2Nearer(t: Triangle, texture: seq<int>, texDim: int, w0: real, w1: real, w2: real, p: Pixel): Pixel
    requires HasDepth(t, w0, w1, w2) && w0 + w1 + w2 != 0.0 && texDim >= 1 && |texture| == texDim * texDim
  {
    if InverseDepthOf(t, w0, w1, w2) > p.depth && w0 >= 0.0 && w1 >= 0.0 && w2 >= 0.0 then
      Pixel(InverseDepthOf(t, w0, w1, w2), texture[TexelIndex2(t, texDim, w0, w1, w2)])
    else
      p
  }

  /** A flat triangle at depth `c` has reciprocal depth `1 / c` at every pixel. */
  lemma FlatInverseDepth(t: Triangle, w0: real, w1: real, w2: real, c: real)
    requires t.v1.z == c && t.v2.z == c && t.v3.z == c && c != 0.0
    requires w0 + w1 + w2 != 0.0
    ensures NonZeroDepths(t) && InverseDepthOf(t, w0, w1, w2) == 1.0 / c
  {
    var sum := w0 + w1 + w2;
    assert Blend(w0, w1, w2, 1.0 / c, 1.0 / c, 1.0 / c) == sum * (1.0 / c);
    assert (sum * (1.0 / c)) / sum == 1.0 / c;
  }

  /** Of two positive depths, the nearer has the greater reciprocal. */
  lemma ReciprocalDecreasing(a: real, b: real)
    requires 0.0 < a < b
    ensures 1.0 / b < 1.0 / a
  {
  }

  /**
   * With the corrected test, of two flat triangles covering a pixel the
   * nearer one is what remains, whichever is drawn first: drawing the
   * farther one after it changes nothing, and drawing the nearer one after
   * the farther one gives what drawing the nearer one alone gives.
   */
  lemma Shade2NearerKeepsNearest(near: Triangle, far: Triangle, cNear: real, cFar: real,
                                 u0: real, u1: real, u2: real, v0: real, v1: real, v2: real,
                                 texture: seq<int>, texDim: int, p: Pixel)
    requires near.v1.z == cNear && near.v2.z == cNear && near.v3.z == cNear
    requires far.v1.z == cFar && far.v2.z == cFar && far.v3.z == cFar
    requires 0.0 < cNear < cFar
    requires u0 >= 0.0 && u1 >= 0.0 && u2 >= 0.0 && u0 + u1 + u2 > 0.0
    requires v0 >= 0.0 && v1 >= 0.0 && v2 >= 0.0 && v0 + v1 + v2 > 0.0
    requires texDim >= 1 && |texture| == texDim * texDim
    ensures HasDepth(near, u0, u1, u2) && HasDepth(far, v0, v1, v2)
    ensures Shade2Nearer(far, texture, texDim, v0, v1, v2, Shade2Nearer(near, texture, texDim, u0, u1, u2, p)) ==
            Shade2Nearer(near, texture, texDim, u0, u1, u2, p)
    ensures Shade2Nearer(near, texture, texDim, u0, u1, u2, Shade2Nearer(far, texture, texDim, v0, v1, v2, p)) ==
            Shade2Nearer(near, texture, texDim, u0, u1, u2, p)
  {
    FlatDepth(near, u0, u1, u2, cNear);
    FlatDepth(far, v0, v1, v2, cFar);
    FlatInverseDepth(near, u0, u1, u2, cNear);
    FlatInverseDepth(far, v0, v1, v2, cFar);
    ReciprocalDecreasing(cNear, cFar);
  }

  // ---------------------------------------------------------------------
  // drawTriangle2: the fill rule on a shared edge

  /** The three edge tests of `drawTriangle2` at pixel (x, y), with the offsets as written. */
  predicate Covered2(t: Triangle, x: int, y: int)
  {
    W0(t, x, y) >= 0.0 && W1(t, x, y) >= 0.0 && W2(t, x, y) >= 0.0
  }

  /** The square (0, 0), (10, 10) cut along its diagonal into two triangles of positive orientation. */
  function LowerHalf(): Triangle
  {
    Triangle(Vertex(0.0, 0.0, 1.0, 0.0, 0.0), Vertex(10.0, 0.0, 1.0, 0.0, 0.0), Vertex(0.0, 10.0, 1.0, 0.0, 0.0))
  }

  function UpperHalf(): Triangle
  {
    Triangle(Vertex(10.0, 0.0, 1.0, 0.0, 0.0), Vertex(10.0, 10.0, 1.0, 0.0, 0.0), Vertex(0.0, 10.0, 1.0, 0.0, 0.0))
  }

  /**
   * As written, the offsets leave a gap: every pixel strictly inside the
   * diagonal shared by `LowerHalf` and `UpperHalf` fails one edge test of
   * each, so neither `drawTriangle2` call changes it, whatever it held.
   */
  lemma SharedEdgeGap(p: Pixel)
    ensures Orient2D(0.0, 0.0, 10.0, 0.0, 0.0, 10.0) > 0.0 && Orient2D(10.0, 0.0, 10.0, 10.0, 0.0, 10.0) > 0.0
    ensures forall x, y :: 1 <= x <= 9 && x + y == 10 ==>
      && W0(LowerHalf(), x, y) == -1.0 && !Covered2(LowerHalf(), x, y)
      && W1(UpperHalf(), x, y) == -1.0 && !Covered2(UpperHalf(), x, y)
    ensures forall x, y :: 1 <= x <= 9 && x + y == 10 ==>
      && HasDepth(LowerHalf(), W0(LowerHalf(), x, y), W1(LowerHalf(), x, y), W2(LowerHalf(), x, y))
      && HasDepth(UpperHalf(), W0(UpperHalf(), x, y), W1(UpperHalf(), x, y), W2(UpperHalf(), x, y))
      && Shade2(LowerHalf(), [0], 1, W0(LowerHalf(), x, y), W1(LowerHalf(), x, y), W2(LowerHalf(), x, y), p) == p
      && Shade2(UpperHalf(), [0], 1, W0(UpperHalf(), x, y), W1(UpperHalf(), x, y), W2(UpperHalf(), x, y), p) == p
  {
    forall x, y | 1 <= x <= 9 && x + y == 10
      ensures W0(LowerHalf(), x, y) == -1.0 && W1(UpperHalf(), x, y) == -1.0
      ensures HasDepth(LowerHalf(), W0(LowerHalf(), x, y), W1(LowerHalf(), x, y), W2(LowerHalf(), x, y))
      ensures HasDepth(UpperHalf(), W0(UpperHalf(), x, y), W1(UpperHalf(), x, y), W2(UpperHalf(), x, y))
    {
      var lo, up := LowerHalf(), UpperHalf();
      assert y as real == 10.0 - x as real;
      assert W1(lo, x, y) == 10.0 * x as real && W2(lo, x, y) == 99.0 - 10.0 * x as real;
      assert W0(up, x, y) == 10.0 * x as real && W2(up, x, y) == 99.0 - 10.0 * x as real;
      FlatDepth(lo, W0(lo, x, y), W1(lo, x, y), W2(lo, x, y), 1.0);
      FlatDepth(up, W0(up, x, y), W1(up, x, y), W2(up, x, y), 1.0);
    }
  }

  /**
   * The offset for an edge with `a = y1 - y2` and `b = x2 - x1`: 0 for a
   * top or left edge, -1 otherwise, as the commented-out alternative in
   * the source decides.
   */
  function TopLeftBias(a: real, b: real): int
  {
    if a < 0.0 || (a == 0.0 && b < 0.0) then 0 else -1
  }

  /** The edge value of the edge (x1, y1) -> (x2, y2) at pixel (x, y), offset by that edge's own bias. */
  function EdgeValue(x1: real, y1: real, x2: real, y2: real, x: int, y: int): real
  {
    Orient2D(x1, y1, x2, y2, x as real, y as real) + TopLeftBias(y1 - y2, x2 - x1) as real
  }

  /**
   * The edge tests corrected: each accumulator takes the offset of the
   * edge it measures (`a12`, `b12` for v2 -> v3, `a20`, `b20` for v3 -> v1,
   * `a01`, `b01` for v1 -> v2).
   */
  predicate CoveredFixed(t: Triangle, x: int, y: int)
  {
    && EdgeValue(t.v2.x, t.v2.y, t.v3.x, t.v3.y, x, y) >= 0.0
    && EdgeValue(t.v3.x, t.v3.y, t.v1.x, t.v1.y, x, y) >= 0.0
    && EdgeValue(t.v1.x, t.v1.y, t.v2.x, t.v2.y, x, y) >= 0.0
  }

  /**
   * With integer vertices, an edge and the same edge walked the other way
   * split the pixels: at every pixel exactly one of the two edge tests
   * passes, so two triangles sharing the edge never both take, and never
   * both leave, a pixel that their other edges admit.
   */
  lemma EdgeTestsPartition(x1: int, y1: int, x2: int, y2: int, x: int, y: int)
    requires x1 != x2 || y1 != y2
    ensures (EdgeValue(x1 as real, y1 as real, x2 as real, y2 as real, x, y) >= 0.0) !=
            (EdgeValue(x2 as real, y2 as real, x1 as real, y1 as real, x, y) >= 0.0)
  {
    var o := (x2 - x1) * (y - y1) - (y2 - y1) * (x - x1);
    assert Orient2D(x1 as real, y1 as real, x2 as real, y2 as real, x as real, y as real) == o as real;
    assert Orient2D(x2 as real, y2 as real, x1 as real, y1 as real, x as real, y as real) == -o as real;
    var b := TopLeftBias((y1 - y2) as real, (x2 - x1) as real);
    var b' := TopLeftBias((y2 - y1) as real, (x1 - x2) as real);
    assert b + b' == -1;
  }

  /**
   * With the corrected offsets, every pixel strictly inside the shared
   * diagonal is painted by exactly one of the two triangles.
   */
  lemma SharedEdgeOnceFixed()
    ensures forall x, y :: 1 <= x <= 9 && x + y == 10 ==> CoveredFixed(LowerHalf(), x, y) && !CoveredFixed(UpperHalf(), x, y)
  {
    forall x, y | 1 <= x <= 9 && x + y == 10
      ensures CoveredFixed(LowerHalf(), x, y) && !CoveredFixed(UpperHalf(), x, y)
    {
      assert y as real == 10.0 - x as real;
    }
  }

  // ---------------------------------------------------------------------
  // drawTriangle2: the code

  /** The loop's texel is `TexelIndex2`. */
  lemma TexelIndex2Is(t: Triangle, texDim: int, w0: real, w1: real, w2: real, s: real, tc: real)
    requires HasDepth(t, w0, w1, w2) && texDim >= 1
    requires s == InterpolateU(t, w0, w1, w2) && tc == InterpolateV(t, w0, w1, w2)
    ensures TexelIndex2(t, texDim, w0, w1, w2) == TexelCoord(tc, texDim) * texDim + TexelCoord(s, texDim)
  {
  }

  /**
   * The body of the inner loop of `drawTriangle2` at pixel (x, y), whose
   * row starts at `target`: depth and edge test, then depth and texel
   * written.  The per-triangle quotients `s1 .. t3` and `z1 .. z3` the
   * source hoists out of the loops are recomputed here.
   */
  method ShadePixel2(tri: Triangle, x: int, y: int, w0: real, w1: real, w2: real,
                     texture: seq<int>, texDim: int, zBuffer: array<real>, outBuffer: array<int>, target: int)
    requires zBuffer.Length == ScreenSize && outBuffer.Length == ScreenSize
    requires texDim >= 1 && |texture| == texDim * texDim
    requires OnScreen(x, y) && target == y * MyMath.Width
    requires HasDepth(tri, w0, w1, w2)
    modifies zBuffer, outBuffer
    ensures FrameOf(zBuffer, outBuffer) ==
      SetPixel(old(FrameOf(zBuffer, outBuffer)), x, y,
        Shade2(tri, texture, texDim, w0, w1, w2, old(PixelAt(FrameOf(zBuffer, outBuffer), x, y))))
  {
    ghost var cur := FrameOf(zBuffer, outBuffer);
    ghost var shaded := Shade2(tri, texture, texDim, w0, w1, w2, PixelAt(cur, x, y));
    var s1, s2, s3 := tri.v1.u / tri.v1.z, tri.v2.u / tri.v2.z, tri.v3.u / tri.v3.z;
    var t1, t2, t3 := tri.v1.v / tri.v1.z, tri.v2.v / tri.v2.z, tri.v3.v / tri.v3.z;
    var z1, z2, z3 := 1.0 / tri.v1.z, 1.0 / tri.v2.z, 1.0 / tri.v3.z;
    PixelOfIndex(x, y);
    assert Index(x, y) == target + x;
    var z := 1.0 / (w0 * z1 + w1 * z2 + w2 * z3);
    assert z == DepthOf(tri, w0, w1, w2);
    if z > zBuffer[target + x] && w0 >= 0.0 && w1 >= 0.0 && w2 >= 0.0 {
      zBuffer[target + x] := z;
      var s := w0 * s1 + w1 * s2 + w2 * s3;
      var t := w0 * t1 + w1 * t2 + w2 * t3;
      InterpolateIs(tri, w0, w1, w2, z, s1, s2, s3, s);
      InterpolateIs(tri, w0, w1, w2, z, t1, t2, t3, t);
      s := s * z;
      t := t * z;
      TexelIndex2Is(tri, texDim, w0, w1, w2, s, t);
      var ix := RawTexelCoord(s, texDim);
      var iy := RawTexelCoord(t, texDim);
      ix := MyMath.Maxi(0, MyMath.Mini(ix, texDim - 1));
      iy := MyMath.Maxi(0, MyMath.Mini(iy, texDim - 1));
      outBuffer[target + x] := texture[iy * texDim + ix];
      assert FrameOf(zBuffer, outBuffer) == SetPixel(cur, x, y, shaded);
    } else {
      SetPixelSame(cur, x, y);
    }
  }

  /**
   * The inner loop of `drawTriangle2` over row `y` of box `box`: shade each
   * pixel, then step the edge values by `a12`, `a20` and `a01`.
   */
  method ScanRow2(tri: Triangle, box: Box, y: int, w0row: real, w1row: real, w2row: real,
                  a12: real, a20: real, a01: real, target: int, texture: seq<int>, texDim: int,
                  zBuffer: array<real>, outBuffer: array<int>, ghost f0: Frame)
    requires zBuffer.Length == ScreenSize && outBuffer.Length == ScreenSize && IsFrame(f0)
    requires texDim >= 1 && |texture| == texDim * texDim
    requires 0 <= box.minx <= box.maxx < MyMath.Width && box.miny <= y <= box.maxy && OnScreen(box.minx, y)
    requires DrawableIn(tri, box) && target == y * MyMath.Width
    requires a12 == tri.v2.y - tri.v3.y && a20 == tri.v3.y - tri.v1.y && a01 == tri.v1.y - tri.v2.y
    requires w0row == W0(tri, box.minx, y) && w1row == W1(tri, box.minx, y) && w2row == W2(tri, box.minx, y)
    requires ScannedUpTo(Draw2(tri, box, texture, texDim), f0, FrameOf(zBuffer, outBuffer), box.minx, y)
    modifies zBuffer, outBuffer
    ensures ScannedUpTo(Draw2(tri, box, texture, texDim), f0, FrameOf(zBuffer, outBuffer), box.minx, y + 1)
  {
    ghost var g := Draw2(tri, box, texture, texDim);
    var w0, w1, w2 := w0row, w1row, w2row;
    var x := box.minx;
    while x <= box.maxx
      invariant box.minx <= x <= box.maxx + 1
      invariant w0 == W0(tri, x, y) && w1 == W1(tri, x, y) && w2 == W2(tri, x, y)
      invariant ScannedUpTo(g, f0, FrameOf(zBuffer, outBuffer), x, y)
    {
      ghost var cur := FrameOf(zBuffer, outBuffer);
      ScanStep(g, f0, cur, x, y);
      assert InBox(box, x, y) && Defined2(tri, x, y);
      ShadePixel2(tri, x, y, w0, w1, w2, texture, texDim, zBuffer, outBuffer, target);
      EdgeSteps(tri, x, y);
      w0 := w0 + a12;
      w1 := w1 + a20;
      w2 := w2 + a01;
      x := x + 1;
    }
    ScanNextRow(g, box, f0, FrameOf(zBuffer, outBuffer), x, y);
  }

  /**
   * The two nested loops of `drawTriangle2` over a non-empty on-screen box:
   * step the three edge values incrementally, and shade every pixel.
   */
  method ScanBox2(v1: Vertex, v2: Vertex, v3: Vertex, minx: int, miny: int, maxx: int, maxy: int,
                  texture: seq<int>, texDim: int, zBuffer: array<real>, outBuffer: array<int>)
    requires zBuffer.Length == ScreenSize && outBuffer.Length == ScreenSize
    requires texDim >= 1 && |texture| == texDim * texDim
    requires 0 <= minx <= maxx < MyMath.Width && 0 <= miny <= maxy < MyMath.Height
    requires DrawableIn(Triangle(v1, v2, v3), Box(minx, miny, maxx, maxy))
    modifies zBuffer, outBuffer
    ensures FrameOf(zBuffer, outBuffer) ==
      MapPixels(Draw2(Triangle(v1, v2, v3), Box(minx, miny, maxx, maxy), texture, texDim),
                old(FrameOf(zBuffer, outBuffer)))
  {
    var tri := Triangle(v1, v2, v3);
    var box := Box(minx, miny, maxx, maxy);
    ghost var g := Draw2(tri, box, texture, texDim);
    ghost var f0 := FrameOf(zBuffer, outBuffer);
    var x1, x2, x3 := v1.x, v2.x, v3.x;
    var y1, y2, y3 := v1.y, v2.y, v3.y;

    var a01, b01 := y1 - y2, x2 - x1;
    var a12, b12 := y2 - y3, x3 - x2;
    var a20, b20 := y3 - y1, x1 - x3;
    var bias0 := if a01 < 0.0 then 0 else -1;
    var bias1 := if a12 < 0.0 then 0 else -1;
    var bias2 := if a20 < 0.0 then 0 else -1;

    var w0row := Orient2D(x2, y2, x3, y3, minx as real, miny as real) + bias0 as real;
    var w1row := Orient2D(x3, y3, x1, y1, minx as real, miny as real) + bias1 as real;
    var w2row := Orient2D(x1, y1, x2, y2, minx as real, miny as real) + bias2 as real;
    var target := miny * MyMath.Width;

    ScanStart(g, box, f0);
    var y := miny;
    while y <= maxy
      invariant miny <= y <= maxy + 1
      invariant target == y * MyMath.Width
      invariant w0row == W0(tri, minx, y) && w1row == W1(tri, minx, y) && w2row == W2(tri, minx, y)
      invariant ScannedUpTo(g, f0, FrameOf(zBuffer, outBuffer), minx, y)
    {
      ScanRow2(tri, box, y, w0row, w1row, w2row, a12, a20, a01, target, texture, texDim, zBuffer, outBuffer, f0);
      EdgeSteps(tri, minx, y);
      w0row := w0row + b12;
      w1row := w1row + b20;
      w2row := w2row + b01;
      target := target + MyMath.Width;
      y := y + 1;
    }
    ScanEnd(g, box, f0, FrameOf(zBuffer, outBuffer), minx, y);
  }

  /**
   * `drawTriangle2`: clip the bounding box to the screen, stop when it is
   * empty, otherwise scan it.
   */
  method DrawTriangle2(v1: Vertex, v2: Vertex, v3: Vertex, texture: seq<int>, texDim: int,
                       zBuffer: array<real>, outBuffer: array<int>)
    requires zBuffer.Length == ScreenSize && outBuffer.Length == ScreenSize
    requires texDim >= 1 && |texture| == texDim * texDim
    requires Drawable2(Triangle(v1, v2, v3))
    modifies zBuffer, outBuffer
    ensures FrameOf(zBuffer, outBuffer) ==
      DrawTriangle2Frame(Triangle(v1, v2, v3), texture, texDim, old(FrameOf(zBuffer, outBuffer)))
  {
    var minx := Round(RMin(v1.x, RMin(v2.x, v3.x)));
    var miny := Round(RMin(v1.y, RMin(v2.y, v3.y)));
    var maxx := Trunc(RMax(v1.x, RMax(v2.x, v3.x)));
    var maxy := Trunc(RMax(v1.y, RMax(v2.y, v3.y)));
    minx := MyMath.Maxi(minx, 0);
    miny := MyMath.Maxi(miny, 0);
    maxx := MyMath.Mini(maxx, MyMath.Width - 1);
    maxy := MyMath.Mini(maxy, MyMath.Height - 1);
    assert Box(minx, miny, maxx, maxy) == Box2(Triangle(v1, v2, v3));

    if minx > maxx || miny > maxy {
      DrawTriangle2EmptyBox(Triangle(v1, v2, v3), texture, texDim, FrameOf(zBuffer, outBuffer));
      return;
    }
    // The other two early exits of the source cannot fire once clipped.
    assert !(minx > MyMath.Width || miny > MyMath.Height);
    assert !(maxx < 0 || maxy < 0);

    ScanBox2(v1, v2, v3, minx, miny, maxx, maxy, texture, texDim, zBuffer, outBuffer);
  }

  // ---------------------------------------------------------------------
  // drawTriangle (the reference version): specification

  /** The box `drawTriangle` scans: all four bounds truncated, then clipped to the screen. */
  function BoxRef(t: Triangle): (b: Box)
    ensures 0 <= b.minx && b.maxx <= MyMath.Width - 1
    ensures 0 <= b.miny && b.maxy <= MyMath.Height - 1
    ensures forall x, y :: InBox(b, x, y) ==> OnScreen(x, y)
  {
    var minx := Trunc(RMin(t.v1.x, RMin(t.v2.x, t.v3.x)));
    var miny := Trunc(RMin(t.v1.y, RMin(t.v2.y, t.v3.y)));
    var maxx := Trunc(RMax(t.v1.x, RMax(t.v2.x, t.v3.x)));
    var maxy := Trunc(RMax(t.v1.y, RMax(t.v2.y, t.v3.y)));
    Box(MyMath.Maxi(minx, 0), MyMath.Maxi(miny, 0),
        MyMath.Mini(maxx, MyMath.Width - 1), MyMath.Mini(maxy, MyMath.Height - 1))
  }

  /** Twice the signed area `drawTriangle` divides by. */
  function Area(t: Triangle): real
  {
    EdgeFunction(t.v1.x, t.v1.y, t.v2.x, t.v2.y, t.v3.x, t.v3.y)
  }

  /** The edge functions of the three edges at point (px, py). */
  function E0(t: Triangle, px: real, py: real): real
  {
    EdgeFunction(t.v2.x, t.v2.y, t.v3.x, t.v3.y, px, py)
  }

  function E1(t: Triangle, px: real, py: real): real
  {
    EdgeFunction(t.v3.x, t.v3.y, t.v1.x, t.v1.y, px, py)
  }

  function E2(t: Triangle, px: real, py: real): real
  {
    EdgeFunction(t.v1.x, t.v1.y, t.v2.x, t.v2.y, px, py)
  }

  /** The inside test of `drawTriangle`, with the three conditions as the source writes them. */
  predicate InsideRef(t: Triangle, px: real, py: real)
  {
    (t.v1.x - t.v2.x) * (py - t.v1.y) - (t.v1.y - t.v2.y) * (px - t.v1.x) > 0.0 &&
    (t.v2.x - t.v3.x) * (py - t.v2.y) - (t.v2.y - t.v3.y) * (px - t.v2.x) > 0.0 &&
    (t.v3.x - t.v1.x) * (py - t.v3.y) - (t.v3.y - t.v1.y) * (px - t.v3.x) > 0.0
  }

  /**
   * The inside test is the edge-function test: strictly on the positive
   * side of all three edges.  Inside, the area is then positive and is the
   * sum of the three edge values.
   */
  lemma InsideRefIsEdgeTest(t: Triangle, px: real, py: real)
    ensures InsideRef(t, px, py) <==> E0(t, px, py) > 0.0 && E1(t, px, py) > 0.0 && E2(t, px, py) > 0.0
    ensures E0(t, px, py) + E1(t, px, py) + E2(t, px, py) == Area(t)
    ensures InsideRef(t, px, py) ==> Area(t) > 0.0
  {
    EdgeFunctionsSum(t.v1.x, t.v1.y, t.v2.x, t.v2.y, t.v3.x, t.v3.y, px, py);
  }

  /** The edge values divided by the area: the barycentric weights. */
  function NW0(t: Triangle, px: real, py: real): real
    requires Area(t) != 0.0
  {
    E0(t, px, py) / Area(t)
  }

  function NW1(t: Triangle, px: real, py: real): real
    requires Area(t) != 0.0
  {
    E1(t, px, py) / Area(t)
  }

  function NW2(t: Triangle, px: real, py: real): real
    requires Area(t) != 0.0
  {
    E2(t, px, py) / Area(t)
  }

  /** Inside, the weights are positive and add up to one. */
  lemma WeightsNormalised(t: Triangle, px: real, py: real)
    requires InsideRef(t, px, py)
    ensures Area(t) > 0.0
    ensures NW0(t, px, py) > 0.0 && NW1(t, px, py) > 0.0 && NW2(t, px, py) > 0.0
    ensures NW0(t, px, py) + NW1(t, px, py) + NW2(t, px, py) == 1.0
  {
    InsideRefIsEdgeTest(t, px, py);
    var a := Area(t);
    assert NW0(t, px, py) + NW1(t, px, py) + NW2(t, px, py) == (E0(t, px, py) + E1(t, px, py) + E2(t, px, py)) / a;
  }

  /** The texel `drawTriangle` reads, without clamping. */
  function TexelIndexRef(t: Triangle, texDim: int, w0: real, w1: real, w2: real): int
    requires HasDepth(t, w0, w1, w2)
  {
    RawTexelCoord(InterpolateV(t, w0, w1, w2), texDim) * texDim + RawTexelCoord(InterpolateU(t, w0, w1, w2), texDim)
  }

  /** Weights `w0 .. w2` give a depth and a texel inside the texture. */
  predicate ReadyAt(t: Triangle, texDim: int, w0: real, w1: real, w2: real)
  {
    HasDepth(t, w0, w1, w2) && 0 <= TexelIndexRef(t, texDim, w0, w1, w2) < texDim * texDim
  }

  /** `drawTriangle` can shade the point (px, py): no division by zero, no read outside the texture. */
  predicate RefReady(t: Triangle, texDim: int, px: real, py: real)
  {
    Area(t) != 0.0 && ReadyAt(t, texDim, NW0(t, px, py), NW1(t, px, py), NW2(t, px, py))
  }

  /** What `drawTriangle` stores for weights `w0 .. w2`. */
  function ShadeRef(t: Triangle, texture: seq<int>, texDim: int, w0: real, w1: real, w2: real): Pixel
    requires ReadyAt(t, texDim, w0, w1, w2) && |texture| == texDim * texDim
  {
    Pixel(DepthOf(t, w0, w1, w2), texture[TexelIndexRef(t, texDim, w0, w1, w2)])
  }

  /** Pixel (x, y) of the box, from the pixel before: overwritten when inside, whatever its depth. */
  function PixelRef(t: Triangle, texture: seq<int>, texDim: int, px: real, py: real, p: Pixel): Pixel
    requires |texture| == texDim * texDim
    requires InsideRef(t, px, py) ==> RefReady(t, texDim, px, py)
  {
    if InsideRef(t, px, py) then
      ShadeRef(t, texture, texDim, NW0(t, px, py), NW1(t, px, py), NW2(t, px, py))
    else
      p
  }

  /** Every inside pixel of box `b` can be shaded. */
  ghost predicate DrawableRefIn(t: Triangle, b: Box, texDim: int)
  {
    forall x, y :: InBox(b, x, y) && InsideRef(t, x as real, y as real) ==>
      RefReady(t, texDim, x as real, y as real)
  }

  /** What `drawTriangle` needs in order not to divide by zero or read outside the texture. */
  ghost predicate DrawableRef(t: Triangle, texDim: int)
  {
    NonZeroDepths(t) && DrawableRefIn(t, BoxRef(t), texDim)
  }

  /** Pixel (x, y) after scanning box `b`, from the pixel before. */
  function DrawnRef(t: Triangle, b: Box, texture: seq<int>, texDim: int, x: int, y: int, p: Pixel): Pixel
    requires DrawableRefIn(t, b, texDim) && |texture| == texDim * texDim
  {
    if InBox(b, x, y) then PixelRef(t, texture, texDim, x as real, y as real, p) else p
  }

  /** The update scanning box `b` applies to each pixel: the box only, and idempotent. */
  function DrawRef(t: Triangle, b: Box, texture: seq<int>, texDim: int): (g: (int, int, Pixel) -> Pixel)
    requires DrawableRefIn(t, b, texDim) && |texture| == texDim * texDim
    ensures KeepsOutside(g, b) && Idempotent(g)
    ensures forall x, y, p :: g(x, y, p) == DrawnRef(t, b, texture, texDim, x, y, p)
  {
    (x, y, p) => DrawnRef(t, b, texture, texDim, x, y, p)
  }

  /** `drawTriangle` on whole buffers. */
  function DrawTriangleFrame(t: Triangle, texture: seq<int>, texDim: int, f: Frame): Frame
    requires DrawableRef(t, texDim) && |texture| == texDim * texDim && IsFrame(f)
  {
    MapPixels(DrawRef(t, BoxRef(t), texture, texDim), f)
  }

  // ---------------------------------------------------------------------
  // drawTriangle: properties

  /**
   * With its depth test commented out, `drawTriangle` overwrites every
   * inside pixel of the box whatever depth it held, and leaves every other
   * pixel alone.
   */
  lemma DrawnRefIgnoresDepth(t: Triangle, b: Box, texture: seq<int>, texDim: int, x: int, y: int, p: Pixel, q: Pixel)
    requires DrawableRefIn(t, b, texDim) && |texture| == texDim * texDim
    ensures InBox(b, x, y) && InsideRef(t, x as real, y as real) ==>
      DrawnRef(t, b, texture, texDim, x, y, p) == DrawnRef(t, b, texture, texDim, x, y, q)
    ensures !(InBox(b, x, y) && InsideRef(t, x as real, y as real)) ==>
      DrawnRef(t, b, texture, texDim, x, y, p) == p
  {
  }

  /** Drawing the same triangle twice with `drawTriangle` is drawing it once. */
  lemma {:induction false} DrawTriangleIdempotent(t: Triangle, texture: seq<int>, texDim: int, f: Frame)
    requires DrawableRef(t, texDim) && |texture| == texDim * texDim && IsFrame(f)
    ensures var g := DrawTriangleFrame(t, texture, texDim, f);
            DrawTriangleFrame(t, texture, texDim, g) == g
  {
    MapPixelsIdempotent(DrawRef(t, BoxRef(t), texture, texDim), f);
  }

  /**
   * Positive depths and texture coordinates in [0, 1] are enough for
   * `drawTriangle` at every inside point: the weights are a convex
   * combination, so the depth is defined and the unclamped texel
   * coordinates stay in [0, texDim - 1].
   */
  lemma RefReadyFromPositiveDepths(t: Triangle, texDim: int, px: real, py: real)
    requires t.v1.z > 0.0 && t.v2.z > 0.0 && t.v3.z > 0.0 && UnitUVs(t) && texDim >= 1
    requires InsideRef(t, px, py)
    ensures RefReady(t, texDim, px, py)
  {
    WeightsNormalised(t, px, py);
    var w0, w1, w2 := NW0(t, px, py), NW1(t, px, py), NW2(t, px, py);
    ConvexInterpolation(t, w0, w1, w2);
    RawTexelCoordInRange(InterpolateU(t, w0, w1, w2), texDim);
    RawTexelCoordInRange(InterpolateV(t, w0, w1, w2), texDim);
    TexelInRange(RawTexelCoord(InterpolateU(t, w0, w1, w2), texDim),
                 RawTexelCoord(InterpolateV(t, w0, w1, w2), texDim), texDim);
  }

  /** Hence such a triangle can be drawn over any box. */
  lemma DrawableRefFromPositiveDepths(t: Triangle, b: Box, texDim: int)
    requires t.v1.z > 0.0 && t.v2.z > 0.0 && t.v3.z > 0.0 && UnitUVs(t) && texDim >= 1
    ensures DrawableRefIn(t, b, texDim)
  {
    forall x, y | InBox(b, x, y) && InsideRef(t, x as real, y as real)
      ensures RefReady(t, texDim, x as real, y as real)
    {
      RefReadyFromPositiveDepths(t, texDim, x as real, y as real);
    }
  }

  /** For a triangle at one constant depth `c`, `drawTriangle` stores exactly `c` inside it. */
  lemma FlatDepthRef(t: Triangle, px: real, py: real, c: real)
    requires t.v1.z == c && t.v2.z == c && t.v3.z == c && c != 0.0
    requires InsideRef(t, px, py)
    ensures Area(t) != 0.0 && HasDepth(t, NW0(t, px, py), NW1(t, px, py), NW2(t, px, py))
    ensures DepthOf(t, NW0(t, px, py), NW1(t, px, py), NW2(t, px, py)) == c
  {
    WeightsNormalised(t, px, py);
    FlatDepth(t, NW0(t, px, py), NW1(t, px, py), NW2(t, px, py), c);
  }

  /**
   * The two routines use opposite orientations: where `drawTriangle` finds
   * a pixel inside, `drawTriangle2` on the same three vertices finds it
   * outside; `drawTriangle2` on the vertices in order v1, v3, v2 covers only
   * points on the closed inner side of all three edges of v1, v2, v3.
   */
  lemma OppositeOrientation(t: Triangle, x: int, y: int)
    ensures InsideRef(t, x as real, y as real) ==> !(W0(t, x, y) >= 0.0 && W1(t, x, y) >= 0.0 && W2(t, x, y) >= 0.0)
    ensures var s := Triangle(t.v1, t.v3, t.v2);
      W0(s, x, y) >= 0.0 && W1(s, x, y) >= 0.0 && W2(s, x, y) >= 0.0 ==>
        E0(t, x as real, y as real) >= 0.0 && E1(t, x as real, y as real) >= 0.0 && E2(t, x as real, y as real) >= 0.0
  {
    var px, py := x as real, y as real;
    InsideRefIsEdgeTest(t, px, py);
    assert W0(t, x, y) <= -E0(t, px, py) && W1(t, x, y) <= -E1(t, px, py) && W2(t, x, y) <= -E2(t, px, py);
    var s := Triangle(t.v1, t.v3, t.v2);
    Orient2DSwap(t.v2.x, t.v2.y, t.v3.x, t.v3.y, px, py);
    Orient2DSwap(t.v1.x, t.v1.y, t.v2.x, t.v2.y, px, py);
    Orient2DSwap(t.v3.x, t.v3.y, t.v1.x, t.v1.y, px, py);
    assert W0(s, x, y) <= E0(t, px, py) && W1(s, x, y) <= E2(t, px, py) && W2(s, x, y) <= E1(t, px, py);
  }

  // ---------------------------------------------------------------------
  // drawTriangle: the code

  /** The loop's texel is `TexelIndexRef`. */
  lemma TexelIndexRefIs(t: Triangle, texDim: int, w0: real, w1: real, w2: real, s: real, tc: real)
    requires HasDepth(t, w0, w1, w2)
    requires s == InterpolateU(t, w0, w1, w2) && tc == InterpolateV(t, w0, w1, w2)
    ensures TexelIndexRef(t, texDim, w0, w1, w2) == RawTexelCoord(tc, texDim) * texDim + RawTexelCoord(s, texDim)
  {
  }

  /** The inside test as the loop writes it. */
  lemma InsideRefIs(t: Triangle, px: real, py: real)
    ensures InsideRef(t, px, py) <==>
      (t.v1.x - t.v2.x) * (py - t.v1.y) - (t.v1.y - t.v2.y) * (px - t.v1.x) > 0.0 &&
      (t.v2.x - t.v3.x) * (py - t.v2.y) - (t.v2.y - t.v3.y) * (px - t.v2.x) > 0.0 &&
      (t.v3.x - t.v1.x) * (py - t.v3.y) - (t.v3.y - t.v1.y) * (px - t.v3.x) > 0.0
  {
  }

  /** The loop's normalised weights are `NW0 .. NW2`. */
  lemma WeightsAre(t: Triangle, px: real, py: real, w0: real, w1: real, w2: real, area: real)
    requires w0 == E0(t, px, py) && w1 == E1(t, px, py) && w2 == E2(t, px, py) && area == Area(t)
    requires area != 0.0
    ensures w0 / area == NW0(t, px, py) && w1 / area == NW1(t, px, py) && w2 / area == NW2(t, px, py)
  {
  }

  /** The loop's depth is `DepthOf`. */
  lemma DepthIs(t: Triangle, w0: real, w1: real, w2: real, z1: real, z2: real, z3: real, sum: real)
    requires HasDepth(t, w0, w1, w2)
    requires z1 == 1.0 / t.v1.z && z2 == 1.0 / t.v2.z && z3 == 1.0 / t.v3.z
    requires sum == w0 * z1 + w1 * z2 + w2 * z3
    ensures sum != 0.0 && 1.0 / sum == DepthOf(t, w0, w1, w2)
  {
  }

  /**
   * The body of the inner loop of `drawTriangle` at pixel (x, y), whose row
   * starts at `target`: the inside test, then depth and texel written.  The
   * area and the per-triangle quotients the source computes once are
   * recomputed here.
   */
  method ShadePixelRef(tri: Triangle, x: int, y: int, texture: seq<int>, texDim: int,
                       zBuffer: array<real>, outBuffer: array<int>, target: int)
    requires zBuffer.Length == ScreenSize && outBuffer.Length == ScreenSize
    requires |texture| == texDim * texDim && NonZeroDepths(tri)
    requires OnScreen(x, y) && target == y * MyMath.Width
    requires InsideRef(tri, x as real, y as real) ==> RefReady(tri, texDim, x as real, y as real)
    modifies zBuffer, outBuffer
    ensures FrameOf(zBuffer, outBuffer) ==
      SetPixel(old(FrameOf(zBuffer, outBuffer)), x, y,
        PixelRef(tri, texture, texDim, x as real, y as real, old(PixelAt(FrameOf(zBuffer, outBuffer), x, y))))
  {
    ghost var cur := FrameOf(zBuffer, outBuffer);
    var px, py := x as real, y as real;
    var s1, s2, s3 := tri.v1.u / tri.v1.z, tri.v2.u / tri.v2.z, tri.v3.u / tri.v3.z;
    var t1, t2, t3 := tri.v1.v / tri.v1.z, tri.v2.v / tri.v2.z, tri.v3.v / tri.v3.z;
    var z1, z2, z3 := 1.0 / tri.v1.z, 1.0 / tri.v2.z, 1.0 / tri.v3.z;
    var area := EdgeFunction(tri.v1.x, tri.v1.y, tri.v2.x, tri.v2.y, tri.v3.x, tri.v3.y);
    PixelOfIndex(x, y);
    assert Index(x, y) == target + x;
    InsideRefIs(tri, px, py);
    if (tri.v1.x - tri.v2.x) * (py - tri.v1.y) - (tri.v1.y - tri.v2.y) * (px - tri.v1.x) > 0.0 &&
       (tri.v2.x - tri.v3.x) * (py - tri.v2.y) - (tri.v2.y - tri.v3.y) * (px - tri.v2.x) > 0.0 &&
       (tri.v3.x - tri.v1.x) * (py - tri.v3.y) - (tri.v3.y - tri.v1.y) * (px - tri.v3.x) > 0.0
    {
      assert InsideRef(tri, px, py);
      InsideRefIsEdgeTest(tri, px, py);
      var w0 := EdgeFunction(tri.v2.x, tri.v2.y, tri.v3.x, tri.v3.y, px, py);
      var w1 := EdgeFunction(tri.v3.x, tri.v3.y, tri.v1.x, tri.v1.y, px, py);
      var w2 := EdgeFunction(tri.v1.x, tri.v1.y, tri.v2.x, tri.v2.y, px, py);
      // The source's `continue` for a negative edge value cannot fire inside.
      assert !(w0 < 0.0 || w1 < 0.0 || w2 < 0.0);
      WeightsAre(tri, px, py, w0, w1, w2, area);
      w0 := w0 / area;
      w1 := w1 / area;
      w2 := w2 / area;
      ghost var shaded := ShadeRef(tri, texture, texDim, w0, w1, w2);
      var s := w0 * s1 + w1 * s2 + w2 * s3;
      var t := w0 * t1 + w1 * t2 + w2 * t3;
      DepthIs(tri, w0, w1, w2, z1, z2, z3, w0 * z1 + w1 * z2 + w2 * z3);
      var z := 1.0 / (w0 * z1 + w1 * z2 + w2 * z3);
      zBuffer[target + x] := z;
      InterpolateIs(tri, w0, w1, w2, z, s1, s2, s3, s);
      InterpolateIs(tri, w0, w1, w2, z, t1, t2, t3, t);
      s := s * z;
      t := t * z;
      TexelIndexRefIs(tri, texDim, w0, w1, w2, s, t);
      var ix := RawTexelCoord(s, texDim);
      var iy := RawTexelCoord(t, texDim);
      outBuffer[target + x] := texture[iy * texDim + ix];
      assert PixelRef(tri, texture, texDim, px, py, PixelAt(cur, x, y)) == shaded;
      assert FrameOf(zBuffer, outBuffer) == SetPixel(cur, x, y, shaded);
    } else {
      assert PixelRef(tri, texture, texDim, px, py, PixelAt(cur, x, y)) == PixelAt(cur, x, y);
      SetPixelSame(cur, x, y);
    }
  }

  /** The two nested loops of `drawTriangle` over an on-screen box, possibly empty. */
  method ScanBoxRef(tri: Triangle, minx: int, miny: int, maxx: int, maxy: int,
                    texture: seq<int>, texDim: int, zBuffer: array<real>, outBuffer: array<int>)
    requires zBuffer.Length == ScreenSize && outBuffer.Length == ScreenSize
    requires |texture| == texDim * texDim && NonZeroDepths(tri)
    requires 0 <= minx && maxx < MyMath.Width && 0 <= miny && maxy < MyMath.Height
    requires DrawableRefIn(tri, Box(minx, miny, maxx, maxy), texDim)
    modifies zBuffer, outBuffer
    ensures FrameOf(zBuffer, outBuffer) ==
      MapPixels(DrawRef(tri, Box(minx, miny, maxx, maxy), texture, texDim), old(FrameOf(zBuffer, outBuffer)))
  {
    ghost var box := Box(minx, miny, maxx, maxy);
    ghost var g := DrawRef(tri, box, texture, texDim);
    ghost var f0 := FrameOf(zBuffer, outBuffer);
    var target := miny * MyMath.Width;

    ScanStart(g, box, f0);
    var y := miny;
    while y <= maxy
      invariant miny <= y
      invariant target == y * MyMath.Width
      invariant ScannedUpTo(g, f0, FrameOf(zBuffer, outBuffer), minx, y)
    {
      var x := minx;
      while x <= maxx
        invariant minx <= x
        invariant ScannedUpTo(g, f0, FrameOf(zBuffer, outBuffer), x, y)
      {
        ghost var cur := FrameOf(zBuffer, outBuffer);
        ScanStep(g, f0, cur, x, y);
        assert InBox(box, x, y);
        ShadePixelRef(tri, x, y, texture, texDim, zBuffer, outBuffer, target);
        x := x + 1;
      }
      ScanNextRow(g, box, f0, FrameOf(zBuffer, outBuffer), x, y);
      target := target + MyMath.Width;
      y := y + 1;
    }
    ScanEnd(g, box, f0, FrameOf(zBuffer, outBuffer), minx, y);
  }

  /** `drawTriangle`: clip the bounding box to the screen and scan it. */
  method DrawTriangle(v1: Vertex, v2: Vertex, v3: Vertex, texture: seq<int>, texDim: int,
                      zBuffer: array<real>, outBuffer: array<int>)
    requires zBuffer.Length == ScreenSize && outBuffer.Length == ScreenSize
    requires |texture| == texDim * texDim
    requires DrawableRef(Triangle(v1, v2, v3), texDim)
    modifies zBuffer, outBuffer
    ensures FrameOf(zBuffer, outBuffer) ==
      DrawTriangleFrame(Triangle(v1, v2, v3), texture, texDim, old(FrameOf(zBuffer, outBuffer)))
  {
    var minx := Trunc(RMin(v1.x, RMin(v2.x, v3.x)));
    var miny := Trunc(RMin(v1.y, RMin(v2.y, v3.y)));
    var maxx := Trunc(RMax(v1.x, RMax(v2.x, v3.x)));
    var maxy := Trunc(RMax(v1.y, RMax(v2.y, v3.y)));
    minx := MyMath.Maxi(minx, 0);
    miny := MyMath.Maxi(miny, 0);
    maxx := MyMath.Mini(maxx, MyMath.Width - 1);
    maxy := MyMath.Mini(maxy, MyMath.Height - 1);
    assert Box(minx, miny, maxx, maxy) == BoxRef(Triangle(v1, v2, v3));
    ScanBoxRef(Triangle(v1, v2, v3), minx, miny, maxx, maxy, texture, texDim, zBuffer, outBuffer);
  }

  // ---------------------------------------------------------------------
  // renderMesh

  /** A face's vertex indices reach into both vertex arrays and project to a non-zero depth. */
  predicate FaceProjectable(positions: seq<Vec3>, uvs: seq<UV>, face: VertexInd, localToClip: seq<real>)
  {
    MyMath.IsMatrix(localToClip) &&
    face.a < |positions| && face.b < |positions| && face.c < |positions| &&
    face.a < |uvs| && face.b < |uvs| && face.c < |uvs| &&
    MyMath.TransformPoint(positions[face.a], localToClip).z != 0.0 &&
    MyMath.TransformPoint(positions[face.b], localToClip).z != 0.0 &&
    MyMath.TransformPoint(positions[face.c], localToClip).z != 0.0
  }

  /** Vertex `i` projected to raster space, with the texture coordinates stored at the same index. */
  function RasterVertex(positions: seq<Vec3>, uvs: seq<UV>, i: int, localToClip: seq<real>): Vertex
    requires 0 <= i < |positions| && i < |uvs| && MyMath.IsMatrix(localToClip)
    requires MyMath.TransformPoint(positions[i], localToClip).z != 0.0
  {
    var v := MyMath.LocalToRaster(positions[i], localToClip);
    Vertex(v.x, v.y, v.z, uvs[i].u, uvs[i].v)
  }

  /** The triangle `renderMesh` draws for a face: its corners a, c, b in that order. */
  function FaceTriangle(positions: seq<Vec3>, uvs: seq<UV>, face: VertexInd, localToClip: seq<real>): Triangle
    requires FaceProjectable(positions, uvs, face, localToClip)
  {
    Triangle(RasterVertex(positions, uvs, face.a, localToClip),
             RasterVertex(positions, uvs, face.c, localToClip),
             RasterVertex(positions, uvs, face.b, localToClip))
  }

  /** The back-face test, on the triangle's three vertices in order. */
  predicate Culled(isBackface: (real, real, real, real, real, real) -> bool, t: Triangle)
  {
    isBackface(t.v1.x, t.v1.y, t.v2.x, t.v2.y, t.v3.x, t.v3.y)
  }

  /** The first `n` faces can all be projected. */
  ghost predicate Projectable(positions: seq<Vec3>, uvs: seq<UV>, faces: seq<VertexInd>, n: int, localToClip: seq<real>)
  {
    0 <= n <= |faces| &&
    forall i :: 0 <= i < n ==> FaceProjectable(positions, uvs, faces[i], localToClip)
  }

  /**
   * `vx` is the raster-space projection of `position`, carrying the texture
   * coordinates `uv`.
   */
  predicate ProjectsTo(vx: Vertex, position: Vec3, uv: UV, localToClip: seq<real>)
    requires MyMath.IsMatrix(localToClip) && MyMath.TransformPoint(position, localToClip).z != 0.0
  {
    MyMath.LocalToRaster(position, localToClip) == Vec3(vx.x, vx.y, vx.z) && UV(vx.u, vx.v) == uv
  }

  /** The triangles of the first `n` faces, in face order. */
  function FaceTriangles(positions: seq<Vec3>, uvs: seq<UV>, faces: seq<VertexInd>, n: int,
                         localToClip: seq<real>): (ts: seq<Triangle>)
    requires Projectable(positions, uvs, faces, n, localToClip)
    ensures |ts| == n
    ensures forall i :: 0 <= i < n ==> ts[i] == FaceTriangle(positions, uvs, faces[i], localToClip)
  {
    seq(n, i requires 0 <= i < n => FaceTriangle(positions, uvs, faces[i], localToClip))
  }

  /**
   * Triangle `i` has as its first, second and third vertex the projections
   * of face `i`'s corners a, c and b, each with the texture coordinates
   * stored at its own index.
   */
  lemma FaceTrianglesProject(positions: seq<Vec3>, uvs: seq<UV>, faces: seq<VertexInd>, n: int,
                             localToClip: seq<real>)
    requires Projectable(positions, uvs, faces, n, localToClip)
    ensures var ts := FaceTriangles(positions, uvs, faces, n, localToClip);
      forall i :: 0 <= i < n ==>
        && ProjectsTo(ts[i].v1, positions[faces[i].a], uvs[faces[i].a], localToClip)
        && ProjectsTo(ts[i].v2, positions[faces[i].c], uvs[faces[i].c], localToClip)
        && ProjectsTo(ts[i].v3, positions[faces[i].b], uvs[faces[i].b], localToClip)
  {
  }

  /** Every triangle the back-face test keeps can be drawn. */
  ghost predicate DrawableFaces(isBackface: (real, real, real, real, real, real) -> bool, ts: seq<Triangle>)
  {
    forall i :: 0 <= i < |ts| && !Culled(isBackface, ts[i]) ==> Drawable2(ts[i])
  }

  /** Rendering one more triangle: draw it on what the earlier ones left, unless it is culled. */
  lemma RenderTrianglesNext(ts: seq<Triangle>, k: int, isBackface: (real, real, real, real, real, real) -> bool,
                            texture: seq<int>, texDim: int, f: Frame)
    requires DrawableFaces(isBackface, ts) && 0 <= k < |ts|
    requires texDim >= 1 && |texture| == texDim * texDim && IsFrame(f)
    ensures DrawableFaces(isBackface, ts[..k]) && DrawableFaces(isBackface, ts[..k + 1])
    ensures !Culled(isBackface, ts[k]) ==> Drawable2(ts[k])
    ensures RenderTriangles(ts[..k + 1], isBackface, texture, texDim, f) ==
      var prev := RenderTriangles(ts[..k], isBackface, texture, texDim, f);
      if Culled(isBackface, ts[k]) then prev else DrawTriangle2Frame(ts[k], texture, texDim, prev)
  {
    assert ts[..k + 1][..k] == ts[..k];
  }

  /** The buffers after drawing the triangles `ts` in order, skipping the culled ones. */
  function RenderTriangles(ts: seq<Triangle>, isBackface: (real, real, real, real, real, real) -> bool,
                           texture: seq<int>, texDim: int, f: Frame): (r: Frame)
    requires DrawableFaces(isBackface, ts)
    requires texDim >= 1 && |texture| == texDim * texDim && IsFrame(f)
    ensures IsFrame(r)
  {
    if |ts| == 0 then f
    else
      var prev := RenderTriangles(ts[..|ts| - 1], isBackface, texture, texDim, f);
      var t := ts[|ts| - 1];
      if Culled(isBackface, t) then prev else DrawTriangle2Frame(t, texture, texDim, prev)
  }

  /** Over a whole mesh, no depth ever decreases. */
  lemma {:induction false} RenderTrianglesDepthNeverDecreases(
    ts: seq<Triangle>, isBackface: (real, real, real, real, real, real) -> bool,
    texture: seq<int>, texDim: int, f: Frame, x: int, y: int)
    requires DrawableFaces(isBackface, ts)
    requires texDim >= 1 && |texture| == texDim * texDim && IsFrame(f) && OnScreen(x, y)
    ensures PixelAt(RenderTriangles(ts, isBackface, texture, texDim, f), x, y).depth >= PixelAt(f, x, y).depth
    decreases |ts|
  {
    if |ts| > 0 {
      var init := ts[..|ts| - 1];
      RenderTrianglesDepthNeverDecreases(init, isBackface, texture, texDim, f, x, y);
      var t := ts[|ts| - 1];
      if !Culled(isBackface, t) {
        DrawTriangle2Frame_Monotone(t, texture, texDim, RenderTriangles(init, isBackface, texture, texDim, f));
      }
    }
  }

  /**
   * The three raster vertices `renderMesh` builds for face `f`: each corner
   * projected, with the uv stored at the same index.
   */
  method ProjectFace(mesh: Mesh, f: int, localToClip: seq<real>) returns (cv0: Vertex, cv1: Vertex, cv2: Vertex)
    requires 0 <= f < mesh.faces.Length
    requires FaceProjectable(mesh.positions[..], mesh.uvs[..], mesh.faces[f], localToClip)
    ensures Triangle(cv0, cv2, cv1) == FaceTriangle(mesh.positions[..], mesh.uvs[..], mesh.faces[f], localToClip)
  {
    var face := mesh.faces[f];
    var v := MyMath.LocalToRaster(mesh.positions[face.a], localToClip);
    cv0 := Vertex(v.x, v.y, v.z, mesh.uvs[face.a].u, mesh.uvs[face.a].v);
    v := MyMath.LocalToRaster(mesh.positions[face.b], localToClip);
    cv1 := Vertex(v.x, v.y, v.z, mesh.uvs[face.b].u, mesh.uvs[face.b].v);
    v := MyMath.LocalToRaster(mesh.positions[face.c], localToClip);
    cv2 := Vertex(v.x, v.y, v.z, mesh.uvs[face.c].u, mesh.uvs[face.c].v);
  }

  /**
   * One iteration of the face loop of `renderMesh`, on the triangle
   * (cv0, cv2, cv1): unless the back-face test culls it, it is drawn on
   * what the earlier faces left.
   */
  method RenderFace(ghost ts: seq<Triangle>, f: int, cv0: Vertex, cv1: Vertex, cv2: Vertex,
                    isBackface: (real, real, real, real, real, real) -> bool,
                    texture: seq<int>, texDim: int, ghost f0: Frame, zBuffer: array<real>, outBuffer: array<int>)
    requires zBuffer.Length == ScreenSize && outBuffer.Length == ScreenSize
    requires texDim >= 1 && |texture| == texDim * texDim && IsFrame(f0)
    requires DrawableFaces(isBackface, ts) && 0 <= f < |ts| && ts[f] == Triangle(cv0, cv2, cv1)
    requires FrameOf(zBuffer, outBuffer) == RenderTriangles(ts[..f], isBackface, texture, texDim, f0)
    modifies zBuffer, outBuffer
    ensures FrameOf(zBuffer, outBuffer) == RenderTriangles(ts[..f + 1], isBackface, texture, texDim, f0)
  {
    RenderTrianglesNext(ts, f, isBackface, texture, texDim, f0);
    if !isBackface(cv0.x, cv0.y, cv2.x, cv2.y, cv1.x, cv1.y) {
      DrawTriangle2(cv0, cv2, cv1, texture, texDim, zBuffer, outBuffer);
    }
  }

  /**
   * `renderMesh`: project each face's three corners, and draw it with
   * `drawTriangle2` unless the back-face test on (a, c, b) says to cull it.
   */
  method RenderMesh(mesh: Mesh, localToClip: seq<real>, isBackface: (real, real, real, real, real, real) -> bool,
                    texture: seq<int>, texDim: int, zBuffer: array<real>, outBuffer: array<int>)
    requires zBuffer.Length == ScreenSize && outBuffer.Length == ScreenSize
    requires texDim >= 1 && |texture| == texDim * texDim
    requires Projectable(mesh.positions[..], mesh.uvs[..], mesh.faces[..], mesh.faceCount, localToClip)
    requires DrawableFaces(isBackface,
      FaceTriangles(mesh.positions[..], mesh.uvs[..], mesh.faces[..], mesh.faceCount, localToClip))
    modifies zBuffer, outBuffer
    ensures FrameOf(zBuffer, outBuffer) ==
      RenderTriangles(FaceTriangles(mesh.positions[..], mesh.uvs[..], mesh.faces[..], mesh.faceCount, localToClip),
                      isBackface, texture, texDim, old(FrameOf(zBuffer, outBuffer)))
  {
    ghost var positions, uvs, faces := mesh.positions[..], mesh.uvs[..], mesh.faces[..];
    ghost var ts := FaceTriangles(positions, uvs, faces, mesh.faceCount, localToClip);
    ghost var f0 := FrameOf(zBuffer, outBuffer);
    var f := 0;
    while f < mesh.faceCount
      invariant 0 <= f <= mesh.faceCount
      invariant FrameOf(zBuffer, outBuffer) == RenderTriangles(ts[..f], isBackface, texture, texDim, f0)
    {
      assert FaceProjectable(positions, uvs, faces[f], localToClip);
      var cv0, cv1, cv2 := ProjectFace(mesh, f, localToClip);
      RenderFace(ts, f, cv0, cv1, cv2, isBackface, texture, texDim, f0, zBuffer, outBuffer);
      f := f + 1;
    }
    assert ts[..f] == ts;
  }
}
