/**
 * View-frustum culling (frustum.c): six planes built from the camera, and
 * the positive-vertex test of an axis-aligned box against them.
 *
 * A plane is the pair (normal, d); a point's signed distance is
 * `dot(normal, point) + d`, non-negative on the side the normal points to
 * ("inside").  `sqrtf`, hidden in `normalize`, is the parameter `sqrt`, and
 * `tanf` the parameter `tan`.
 */
module FrustumCulling {
  import opened Vec
  import MyMath

  /** The equation of a plane: its normal and offset. */
  datatype PlaneEq = PlaneEq(normal: Vec3, d: real)

  /** `planeDistance`: signed distance, up to the length of the normal. */
  function Dist(pl: PlaneEq, point: Vec3): real
  {
    Dot(pl.normal, point) + pl.d
  }

  /**
   * The plane `planeSetNormalAndPoint` builds: the normalised `normal`
   * through `point`.
   */
  function PlaneFromNormalAndPoint(normal: Vec3, point: Vec3, sqrt: real -> real): (r: PlaneEq)
    ensures r.normal == Normalized(normal, sqrt)
    ensures Dist(r, point) == 0.0
  {
    var n := Normalized(normal, sqrt);
    PlaneEq(n, -Dot(n, point))
  }

  /**
   * The plane `calculateNormal` builds through `a`, `b` and `c`: normal
   * `cross(c - b, a - b)`, normalised, and `b` on the plane.
   */
  function PlaneFromPoints(a: Vec3, b: Vec3, c: Vec3, sqrt: real -> real): (r: PlaneEq)
    ensures r.normal == Normalized(Cross(Sub(c, b), Sub(a, b)), sqrt)
    ensures Dist(r, a) == 0.0 && Dist(r, b) == 0.0 && Dist(r, c) == 0.0
  {
    var v1 := Sub(a, b);
    var v2 := Sub(c, b);
    var n := Normalized(Cross(v2, v1), sqrt);
    var pl := PlaneEq(n, -Dot(n, b));
    DistanceFromPointOnPlane(n, b, a);
    DistanceFromPointOnPlane(n, b, c);
    assert Dot(n, v1) == 0.0 && Dot(n, v2) == 0.0 by {
      assert Dot(n, v1) == InvLength(Cross(v2, v1), sqrt) * Dot(Cross(v2, v1), v1);
      assert Dot(n, v2) == InvLength(Cross(v2, v1), sqrt) * Dot(Cross(v2, v1), v2);
    }
    pl
  }

  /** The distance to a plane through `p0` is the dot product with the offset from `p0`. */
  lemma DistanceFromPointOnPlane(n: Vec3, p0: Vec3, q: Vec3)
    ensures Dist(PlaneEq(n, -Dot(n, p0)), q) == Dot(n, Sub(q, p0))
  {
    DotSub(n, q, p0);
  }

  /**
   * The plane through `point` with normal `normal` measures the offset from
   * `point` along `normal`, scaled by the positive normalisation factor:
   * the inside is the half-space the given normal points into.
   */
  lemma DistanceAlongNormal(normal: Vec3, point: Vec3, q: Vec3, sqrt: real -> real)
    ensures Dist(PlaneFromNormalAndPoint(normal, point, sqrt), q)
         == InvLength(normal, sqrt) * Dot(normal, Sub(q, point))
    ensures PositiveRoot(sqrt) && normal != Zero ==> InvLength(normal, sqrt) > 0.0
  {
    var n := Normalized(normal, sqrt);
    DistanceFromPointOnPlane(n, point, q);
    assert Dot(n, Sub(q, point)) == InvLength(normal, sqrt) * Dot(normal, Sub(q, point));
  }

  /**
   * A `Plane` record, updated in place through a pointer: its three defining
   * points, its normal (pointing inside the frustum) and its offset.
   */
  class Plane {
    var a: Vec3
    var b: Vec3
    var c: Vec3
    var normal: Vec3
    var d: real

    function Eq(): PlaneEq
      reads this
    {
      PlaneEq(normal, d)
    }

    constructor ()
      ensures a == Zero && b == Zero && c == Zero && Eq() == PlaneEq(Zero, 0.0)
    {
      a, b, c, normal, d := Zero, Zero, Zero, Zero, 0.0;
    }

    /** `planeDistance`. */
    function Distance(point: Vec3): (r: real)
      reads this
      ensures r == Dist(Eq(), point)
    {
      Dot(normal, point) + d
    }

    /** `planeSetNormalAndPoint`: the defining points are left as they were. */
    method SetNormalAndPoint(n: Vec3, point: Vec3, sqrt: real -> real)
      modifies this
      ensures Eq() == PlaneFromNormalAndPoint(n, point, sqrt)
      ensures a == old(a) && b == old(b) && c == old(c)
      ensures Distance(point) == 0.0
    {
      normal := n;
      normal := Normalized(normal, sqrt);
      d := -Dot(normal, point);
    }

    /** `calculateNormal`: the plane through the three defining points. */
    method CalculateNormal(sqrt: real -> real)
      modifies this
      ensures Eq() == PlaneFromPoints(a, b, c, sqrt)
      ensures a == old(a) && b == old(b) && c == old(c)
      ensures Distance(a) == 0.0 && Distance(b) == 0.0 && Distance(c) == 0.0
    {
      var v1 := Sub(a, b);
      var v2 := Sub(c, b);
      normal := Cross(v2, v1);
      normal := Normalized(normal, sqrt);
      d := -Dot(normal, b);
    }
  }

  /** The slots of `planes[]`, in the order of the `FrustumPlane` enumeration. */
  const Far: int := 0
  const Near: int := 1
  const Bottom: int := 2
  const Top: int := 3
  const Left: int := 4
  const Right: int := 5

  /** The four corners of a near or far section. */
  datatype Section = Section(topLeft: Vec3, topRight: Vec3, bottomLeft: Vec3, bottomRight: Vec3)

  /**
   * The corners of a section centred on `center`, `height` along `yAxis`
   * and `width` along `xAxis` from the centre: diagonal corners average to
   * the centre, and the top edge is `2 * width` along `xAxis`.
   */
  function SectionCorners(center: Vec3, xAxis: Vec3, yAxis: Vec3, width: real, height: real): (s: Section)
    ensures Add(s.topLeft, s.bottomRight) == Mulf(center, 2.0)
    ensures Add(s.topRight, s.bottomLeft) == Mulf(center, 2.0)
    ensures Sub(s.topRight, s.topLeft) == Mulf(xAxis, 2.0 * width)
    ensures Sub(s.topLeft, s.bottomLeft) == Mulf(yAxis, 2.0 * height)
  {
    var up := Mulf(yAxis, height);
    var right := Mulf(xAxis, width);
    Section(Sub(Add(center, up), right), Add(Add(center, up), right),
            Sub(Sub(center, up), right), Add(Sub(center, up), right))
  }

  /** The camera's x axis: `normalize(cross(up, zAxis))` with up = (0, 1, 0). */
  function CameraX(zAxis: Vec3, sqrt: real -> real): Vec3
  {
    Normalized(Cross(Vec3(0.0, 1.0, 0.0), zAxis), sqrt)
  }

  /** The camera's y axis: `normalize(cross(zAxis, xAxis))`. */
  function CameraY(zAxis: Vec3, sqrt: real -> real): Vec3
  {
    Normalized(Cross(zAxis, CameraX(zAxis, sqrt)), sqrt)
  }

  /** The centre of a section at `depth` along `zAxis` in front of the camera. */
  function SectionCenter(cameraPosition: Vec3, zAxis: Vec3, depth: real): Vec3
  {
    Sub(cameraPosition, Mulf(zAxis, depth))
  }

  /**
   * The six planes `updateFrustum` builds, in slot order: Far and Near
   * through the section centres facing each other along the axis, and the
   * four sides each through two near corners and one far corner.
   */
  function FrustumPlanes(cameraPosition: Vec3, zAxis: Vec3, zNear: real, zFar: real,
                         nearWidth: real, nearHeight: real, farWidth: real, farHeight: real,
                         sqrt: real -> real): seq<PlaneEq>
  {
    var xAxis, yAxis := CameraX(zAxis, sqrt), CameraY(zAxis, sqrt);
    var nearCenter := SectionCenter(cameraPosition, zAxis, zNear);
    var farCenter := SectionCenter(cameraPosition, zAxis, zFar);
    var ns := SectionCorners(nearCenter, xAxis, yAxis, nearWidth, nearHeight);
    var fs := SectionCorners(farCenter, xAxis, yAxis, farWidth, farHeight);
    [PlaneFromNormalAndPoint(zAxis, farCenter, sqrt),
     PlaneFromNormalAndPoint(Neg(zAxis), nearCenter, sqrt),
     PlaneFromPoints(ns.bottomLeft, ns.bottomRight, fs.bottomRight, sqrt),
     PlaneFromPoints(ns.topRight, ns.topLeft, fs.topLeft, sqrt),
     PlaneFromPoints(ns.topLeft, ns.bottomLeft, fs.bottomLeft, sqrt),
     PlaneFromPoints(ns.bottomRight, ns.topRight, fs.bottomRight, sqrt)]
  }

  /** `3.14159265358979f / 180.0f`, as `frustumSetProjection` writes it. */
  const DegToRad: real := MyMath.Pi / 180.0

  /**
   * The positive vertex of the box [vMin, vMax] for `normal`: per axis, the
   * maximum where the normal's component is non-negative, else the minimum.
   */
  function PositiveVertex(normal: Vec3, vMin: Vec3, vMax: Vec3): (pos: Vec3)
    ensures pos.x == (if normal.x >= 0.0 then vMax.x else vMin.x)
    ensures pos.y == (if normal.y >= 0.0 then vMax.y else vMin.y)
    ensures pos.z == (if normal.z >= 0.0 then vMax.z else vMin.z)
  {
    var pos := vMin;
    var pos := if normal.x >= 0.0 then pos.(x := vMax.x) else pos;
    var pos := if normal.y >= 0.0 then pos.(y := vMax.y) else pos;
    if normal.z >= 0.0 then pos.(z := vMax.z) else pos
  }

  /** `q` lies in the box spanned by `vMin` and `vMax`. */
  predicate InBox(q: Vec3, vMin: Vec3, vMax: Vec3)
  {
    vMin.x <= q.x <= vMax.x && vMin.y <= q.y <= vMax.y && vMin.z <= q.z <= vMax.z
  }

  /** A plane keeps the box when the box's positive vertex is not behind it (0 counts as inside). */
  predicate PlaneKeepsBox(pl: PlaneEq, vMin: Vec3, vMax: Vec3)
  {
    Dist(pl, PositiveVertex(pl.normal, vMin, vMax)) >= 0.0
  }

  /** What `boxInFrustum` answers: every plane keeps the box. */
  predicate BoxAccepted(planes: seq<PlaneEq>, vMin: Vec3, vMax: Vec3)
  {
    forall i :: 0 <= i < |planes| ==> PlaneKeepsBox(planes[i], vMin, vMax)
  }

  /** Among the points of the box, the positive vertex is farthest along the normal. */
  lemma PositiveVertexIsFarthest(pl: PlaneEq, vMin: Vec3, vMax: Vec3, q: Vec3)
    requires InBox(q, vMin, vMax)
    ensures Dist(pl, q) <= Dist(pl, PositiveVertex(pl.normal, vMin, vMax))
  {
    var n, pos := pl.normal, PositiveVertex(pl.normal, vMin, vMax);
    AxisTermBounded(n.x, q.x, pos.x, vMin.x, vMax.x);
    AxisTermBounded(n.y, q.y, pos.y, vMin.y, vMax.y);
    AxisTermBounded(n.z, q.z, pos.z, vMin.z, vMax.z);
    SumBounded(n.x * q.x, n.y * q.y, n.z * q.z, n.x * pos.x, n.y * pos.y, n.z * pos.z);
  }

  lemma SumBounded(a1: real, a2: real, a3: real, b1: real, b2: real, b3: real)
    requires a1 <= b1 && a2 <= b2 && a3 <= b3
    ensures a1 + a2 + a3 <= b1 + b2 + b3
  {
  }

  lemma AxisTermBounded(n: real, q: real, pos: real, lo: real, hi: real)
    requires lo <= q <= hi
    requires pos == if n >= 0.0 then hi else lo
    ensures n * q <= n * pos
  {
    if n >= 0.0 {
      assert n * (pos - q) >= 0.0;
    } else {
      assert (-n) * (q - pos) >= 0.0;
    }
  }

  /**
   * The test is conservative: a box holding a point that is inside all the
   * planes is accepted.
   */
  lemma {:induction false} BoxWithInsidePointAccepted(planes: seq<PlaneEq>, vMin: Vec3, vMax: Vec3, q: Vec3)
    requires InBox(q, vMin, vMax)
    requires forall i :: 0 <= i < |planes| ==> Dist(planes[i], q) >= 0.0
    ensures BoxAccepted(planes, vMin, vMax)
  {
    forall i | 0 <= i < |planes|
      ensures PlaneKeepsBox(planes[i], vMin, vMax)
    {
      PositiveVertexIsFarthest(planes[i], vMin, vMax, q);
    }
  }

  /** A rejected box lies wholly behind one of the planes. */
  lemma {:induction false} RejectedBoxIsOutside(planes: seq<PlaneEq>, vMin: Vec3, vMax: Vec3)
    requires !BoxAccepted(planes, vMin, vMax)
    ensures exists i :: 0 <= i < |planes| && forall q :: InBox(q, vMin, vMax) ==> Dist(planes[i], q) < 0.0
  {
    var i :| 0 <= i < |planes| && !PlaneKeepsBox(planes[i], vMin, vMax);
    forall q | InBox(q, vMin, vMax)
      ensures Dist(planes[i], q) < 0.0
    {
      PositiveVertexIsFarthest(planes[i], vMin, vMax, q);
    }
  }

  /** Conversely, a non-empty box lying wholly behind one of the planes is rejected. */
  lemma BoxBehindPlaneRejected(planes: seq<PlaneEq>, vMin: Vec3, vMax: Vec3, i: int)
    requires vMin.x <= vMax.x && vMin.y <= vMax.y && vMin.z <= vMax.z
    requires 0 <= i < |planes|
    requires forall q :: InBox(q, vMin, vMax) ==> Dist(planes[i], q) < 0.0
    ensures !BoxAccepted(planes, vMin, vMax)
  {
    assert InBox(PositiveVertex(planes[i].normal, vMin, vMax), vMin, vMax);
  }

  /**
   * The `Frustum` record: the eight corners and two centres of the near and
   * far sections, their depths and half-extents, and the six planes, which
   * it holds by value and which are updated in place.
   */
  class Frustum {
    var nearTopLeft: Vec3
    var nearTopRight: Vec3
    var nearBottomLeft: Vec3
    var nearBottomRight: Vec3
    var farTopLeft: Vec3
    var farTopRight: Vec3
    var farBottomLeft: Vec3
    var farBottomRight: Vec3
    var nearCenter: Vec3
    var farCenter: Vec3
    var zNear: real
    var zFar: real
    var nearWidth: real
    var nearHeight: real
    var farWidth: real
    var farHeight: real
    const planes: array<Plane>

    /** Six planes, no two the same record. */
    ghost predicate Valid()
      reads this, planes
    {
      planes.Length == 6 && forall i, j :: 0 <= i < j < 6 ==> planes[i] != planes[j]
    }

    function PlaneEqs(): (ps: seq<PlaneEq>)
      reads this, planes, set i | 0 <= i < planes.Length :: planes[i]
      requires planes.Length == 6
      ensures |ps| == 6 && forall i :: 0 <= i < 6 ==> ps[i] == planes[i].Eq()
    {
      [planes[0].Eq(), planes[1].Eq(), planes[2].Eq(), planes[3].Eq(), planes[4].Eq(), planes[5].Eq()]
    }

    function NearSection(): Section
      reads this
    {
      Section(nearTopLeft, nearTopRight, nearBottomLeft, nearBottomRight)
    }

    function FarSection(): Section
      reads this
    {
      Section(farTopLeft, farTopRight, farBottomLeft, farBottomRight)
    }

    constructor ()
      ensures Valid() && fresh(planes)
      ensures forall i :: 0 <= i < 6 ==> fresh(planes[i])
    {
      var p0 := new Plane();
      var p1 := new Plane();
      var p2 := new Plane();
      var p3 := new Plane();
      var p4 := new Plane();
      var p5 := new Plane();
      planes := new Plane[6] [p0, p1, p2, p3, p4, p5];
    }

    /**
     * `frustumSetProjection`: the depths of the two sections and their
     * half-extents, `depth * tan(fov / 2)` high and `aspect` times as wide.
     */
    method SetProjection(fovDegrees: real, aspect: real, aNear: real, aFar: real, tan: real -> real)
      modifies this
      ensures zNear == aNear && zFar == aFar
      ensures nearHeight == aNear * tan(DegToRad * fovDegrees * 0.5) && nearWidth == nearHeight * aspect
      ensures farHeight == aFar * tan(DegToRad * fovDegrees * 0.5) && farWidth == farHeight * aspect
      ensures nearWidth * zFar == farWidth * zNear && nearHeight * zFar == farHeight * zNear
      ensures NearSection() == old(NearSection()) && FarSection() == old(FarSection())
      ensures nearCenter == old(nearCenter) && farCenter == old(farCenter)
    {
      zNear := aNear;
      zFar := aFar;
      var tang := tan(DegToRad * fovDegrees * 0.5);
      nearHeight := aNear * tang;
      nearWidth := nearHeight * aspect;
      farHeight := zFar * tang;
      farWidth := farHeight * aspect;
      SectionsSimilar(aNear, aFar, tang, aspect);
    }

    /**
     * `updateCornersAndCenters`: the section centres on the camera axis and
     * the corners around them in the camera's x/y frame.
     */
    method UpdateCornersAndCenters(cameraPosition: Vec3, zAxis: Vec3, sqrt: real -> real)
      modifies this
      ensures nearCenter == SectionCenter(cameraPosition, zAxis, zNear)
      ensures farCenter == SectionCenter(cameraPosition, zAxis, zFar)
      ensures NearSection() == SectionCorners(nearCenter, CameraX(zAxis, sqrt), CameraY(zAxis, sqrt), nearWidth, nearHeight)
      ensures FarSection() == SectionCorners(farCenter, CameraX(zAxis, sqrt), CameraY(zAxis, sqrt), farWidth, farHeight)
      ensures zNear == old(zNear) && zFar == old(zFar)
      ensures nearWidth == old(nearWidth) && nearHeight == old(nearHeight)
      ensures farWidth == old(farWidth) && farHeight == old(farHeight)
    {
      var up := Vec3(0.0, 1.0, 0.0);
      var xAxis := Cross(up, zAxis);
      xAxis := Normalized(xAxis, sqrt);
      var yAxis := Cross(zAxis, xAxis);
      yAxis := Normalized(yAxis, sqrt);
      assert xAxis == CameraX(zAxis, sqrt) && yAxis == CameraY(zAxis, sqrt);

      nearCenter := Sub(cameraPosition, Mulf(zAxis, zNear));
      farCenter := Sub(cameraPosition, Mulf(zAxis, zFar));

      var ns := SectionCorners(nearCenter, xAxis, yAxis, nearWidth, nearHeight);
      nearTopLeft, nearTopRight, nearBottomLeft, nearBottomRight := ns.topLeft, ns.topRight, ns.bottomLeft, ns.bottomRight;

      var fs := SectionCorners(farCenter, xAxis, yAxis, farWidth, farHeight);
      farTopLeft, farTopRight, farBottomLeft, farBottomRight := fs.topLeft, fs.topRight, fs.bottomLeft, fs.bottomRight;
    }

    /**
     * `updateFrustum`: corners and centres for the camera, then each side
     * plane through three corners and the near and far planes through the
     * section centres, facing each other along the camera axis.
     */
    method UpdateFrustum(cameraPosition: Vec3, cameraDirection: Vec3, sqrt: real -> real)
      requires Valid()
      modifies this, planes[0], planes[1], planes[2], planes[3], planes[4], planes[5]
      ensures Valid()
      ensures nearCenter == SectionCenter(cameraPosition, cameraDirection, zNear)
      ensures farCenter == SectionCenter(cameraPosition, cameraDirection, zFar)
      ensures NearSection() == SectionCorners(nearCenter, CameraX(cameraDirection, sqrt), CameraY(cameraDirection, sqrt), nearWidth, nearHeight)
      ensures FarSection() == SectionCorners(farCenter, CameraX(cameraDirection, sqrt), CameraY(cameraDirection, sqrt), farWidth, farHeight)
      ensures zNear == old(zNear) && zFar == old(zFar)
      ensures nearWidth == old(nearWidth) && nearHeight == old(nearHeight)
      ensures farWidth == old(farWidth) && farHeight == old(farHeight)
      ensures planes[Top].a == nearTopRight && planes[Top].b == nearTopLeft && planes[Top].c == farTopLeft
      ensures planes[Bottom].a == nearBottomLeft && planes[Bottom].b == nearBottomRight && planes[Bottom].c == farBottomRight
      ensures planes[Left].a == nearTopLeft && planes[Left].b == nearBottomLeft && planes[Left].c == farBottomLeft
      ensures planes[Right].a == nearBottomRight && planes[Right].b == nearTopRight && planes[Right].c == farBottomRight
      ensures planes[Near].a == old(planes[Near].a) && planes[Near].b == old(planes[Near].b) && planes[Near].c == old(planes[Near].c)
      ensures planes[Far].a == old(planes[Far].a) && planes[Far].b == old(planes[Far].b) && planes[Far].c == old(planes[Far].c)
      ensures PlaneEqs() == FrustumPlanes(cameraPosition, cameraDirection, zNear, zFar, nearWidth, nearHeight,
                                          farWidth, farHeight, sqrt)
    {
      var zAxis := cameraDirection;
      UpdateCornersAndCenters(cameraPosition, zAxis, sqrt);

      planes[Top].a := nearTopRight;
      planes[Top].b := nearTopLeft;
      planes[Top].c := farTopLeft;
      planes[Top].CalculateNormal(sqrt);

      planes[Bottom].a := nearBottomLeft;
      planes[Bottom].b := nearBottomRight;
      planes[Bottom].c := farBottomRight;
      planes[Bottom].CalculateNormal(sqrt);

      planes[Left].a := nearTopLeft;
      planes[Left].b := nearBottomLeft;
      planes[Left].c := farBottomLeft;
      planes[Left].CalculateNormal(sqrt);

      planes[Right].a := nearBottomRight;
      planes[Right].b := nearTopRight;
      planes[Right].c := farBottomRight;
      planes[Right].CalculateNormal(sqrt);

      planes[Near].SetNormalAndPoint(Neg(zAxis), nearCenter, sqrt);
      planes[Far].SetNormalAndPoint(zAxis, farCenter, sqrt);
    }

    /**
     * `boxInFrustum`: for each plane in slot order, the box's positive
     * vertex; false as soon as one is behind its plane.
     */
    method BoxInFrustum(vMin: Vec3, vMax: Vec3) returns (inside: bool)
      requires Valid()
      ensures inside == BoxAccepted(PlaneEqs(), vMin, vMax)
    {
      var result := true;
      var pos: Vec3;
      for p := 0 to 6
        invariant forall i :: 0 <= i < p ==> PlaneKeepsBox(planes[i].Eq(), vMin, vMax)
      {
        pos := vMin;
        if planes[p].normal.x >= 0.0 {
          pos := pos.(x := vMax.x);
        }
        if planes[p].normal.y >= 0.0 {
          pos := pos.(y := vMax.y);
        }
        if planes[p].normal.z >= 0.0 {
          pos := pos.(z := vMax.z);
        }
        assert pos == PositiveVertex(planes[p].normal, vMin, vMax);
        if planes[p].Distance(pos) < 0.0 {
          assert !PlaneKeepsBox(PlaneEqs()[p], vMin, vMax);
          return false;
        }
      }
      return result;
    }
  }

  /** Near and far sections are similar: each extent grows in proportion to depth. */
  lemma SectionsSimilar(zNear: real, zFar: real, tang: real, aspect: real)
    ensures (zNear * tang * aspect) * zFar == (zFar * tang * aspect) * zNear
    ensures (zNear * tang) * zFar == (zFar * tang) * zNear
  {
  }


  /** Two points on the camera axis differ by a multiple of the axis. */
  lemma AxisOffset(cameraPosition: Vec3, zAxis: Vec3, s: real, t: real)
    ensures Sub(SectionCenter(cameraPosition, zAxis, t), SectionCenter(cameraPosition, zAxis, s)) == Mulf(zAxis, s - t)
  {
  }

  /**
   * Along the camera axis, the points from the near centre to the far centre
   * are inside both the near and the far plane (for a non-zero direction and
   * a true square root).
   */
  lemma AxisBetweenNearAndFarIsInside(cameraPosition: Vec3, zAxis: Vec3, zNear: real, zFar: real, t: real,
                                      sqrt: real -> real)
    requires PositiveRoot(sqrt) && zAxis != Zero
    requires zNear <= t <= zFar
    ensures Dist(PlaneFromNormalAndPoint(Neg(zAxis), SectionCenter(cameraPosition, zAxis, zNear), sqrt),
                 SectionCenter(cameraPosition, zAxis, t)) >= 0.0
    ensures Dist(PlaneFromNormalAndPoint(zAxis, SectionCenter(cameraPosition, zAxis, zFar), sqrt),
                 SectionCenter(cameraPosition, zAxis, t)) >= 0.0
  {
    var q := SectionCenter(cameraPosition, zAxis, t);
    var zz := Dot(zAxis, zAxis);
    assert zz > 0.0 by { NonZeroHasPositiveSquare(zAxis); }
    assert Neg(zAxis) != Zero;

    var nc := SectionCenter(cameraPosition, zAxis, zNear);
    assert Dot(Neg(zAxis), Sub(q, nc)) >= 0.0 by {
      AxisOffset(cameraPosition, zAxis, zNear, t);
      DotSymmetric(Mulf(zAxis, zNear - t), Neg(zAxis));
      assert Dot(zAxis, Neg(zAxis)) == -zz;
      NonNegativeProduct(t - zNear, zz);
    }
    InFrontOfPlane(Neg(zAxis), nc, q, sqrt);

    var fc := SectionCenter(cameraPosition, zAxis, zFar);
    assert Dot(zAxis, Sub(q, fc)) >= 0.0 by {
      AxisOffset(cameraPosition, zAxis, zFar, t);
      DotSymmetric(Mulf(zAxis, zFar - t), zAxis);
      NonNegativeProduct(zFar - t, zz);
    }
    InFrontOfPlane(zAxis, fc, q, sqrt);
  }

  /** A point the given normal points to, seen from the plane's point, is inside. */
  lemma InFrontOfPlane(normal: Vec3, point: Vec3, q: Vec3, sqrt: real -> real)
    requires PositiveRoot(sqrt) && normal != Zero
    requires Dot(normal, Sub(q, point)) >= 0.0
    ensures Dist(PlaneFromNormalAndPoint(normal, point, sqrt), q) >= 0.0
  {
    DistanceAlongNormal(normal, point, q, sqrt);
    NonNegativeProduct(InvLength(normal, sqrt), Dot(normal, Sub(q, point)));
  }

  /** A point the given normal points away from, seen from the plane's point, is outside. */
  lemma BehindPlane(normal: Vec3, point: Vec3, q: Vec3, sqrt: real -> real)
    requires PositiveRoot(sqrt) && normal != Zero
    requires Dot(normal, Sub(q, point)) < 0.0
    ensures Dist(PlaneFromNormalAndPoint(normal, point, sqrt), q) < 0.0
  {
    DistanceAlongNormal(normal, point, q, sqrt);
    PositiveProduct(InvLength(normal, sqrt), -Dot(normal, Sub(q, point)));
  }

  /** Along the camera axis, the points deeper than the far centre are outside the far plane. */
  lemma AxisBeyondFarIsOutside(cameraPosition: Vec3, zAxis: Vec3, zFar: real, t: real, sqrt: real -> real)
    requires PositiveRoot(sqrt) && zAxis != Zero
    requires zFar < t
    ensures Dist(PlaneFromNormalAndPoint(zAxis, SectionCenter(cameraPosition, zAxis, zFar), sqrt),
                 SectionCenter(cameraPosition, zAxis, t)) < 0.0
  {
    var q := SectionCenter(cameraPosition, zAxis, t);
    var fc := SectionCenter(cameraPosition, zAxis, zFar);
    var zz := Dot(zAxis, zAxis);
    assert zz > 0.0 by { NonZeroHasPositiveSquare(zAxis); }
    assert Dot(zAxis, Sub(q, fc)) < 0.0 by {
      AxisOffset(cameraPosition, zAxis, zFar, t);
      DotSymmetric(Mulf(zAxis, zFar - t), zAxis);
      PositiveProduct(t - zFar, zz);
    }
    BehindPlane(zAxis, fc, q, sqrt);
  }

  /**
   * `boxInFrustum` rejects every non-empty box lying wholly beyond the far
   * plane: each of its points is farther along the view axis than the far
   * centre.
   */
  lemma BoxBeyondFarRejected(cameraPosition: Vec3, zAxis: Vec3, zNear: real, zFar: real,
                             nearWidth: real, nearHeight: real, farWidth: real, farHeight: real,
                             sqrt: real -> real, vMin: Vec3, vMax: Vec3)
    requires PositiveRoot(sqrt) && zAxis != Zero
    requires vMin.x <= vMax.x && vMin.y <= vMax.y && vMin.z <= vMax.z
    requires forall q :: InBox(q, vMin, vMax) ==> Dot(zAxis, Sub(q, SectionCenter(cameraPosition, zAxis, zFar))) < 0.0
    ensures !BoxAccepted(FrustumPlanes(cameraPosition, zAxis, zNear, zFar, nearWidth, nearHeight, farWidth, farHeight, sqrt),
                         vMin, vMax)
  {
    var ps := FrustumPlanes(cameraPosition, zAxis, zNear, zFar, nearWidth, nearHeight, farWidth, farHeight, sqrt);
    var fc := SectionCenter(cameraPosition, zAxis, zFar);
    FrustumNearAndFar(cameraPosition, zAxis, zNear, zFar, nearWidth, nearHeight, farWidth, farHeight, sqrt);
    forall q | InBox(q, vMin, vMax)
      ensures Dist(ps[Far], q) < 0.0
    {
      BehindPlane(zAxis, fc, q, sqrt);
    }
    BoxBehindPlaneRejected(ps, vMin, vMax, Far);
  }

  /** `frustumSetProjection` with 0 < near < far and a positive tangent and aspect: the extents grow from near to far. */
  lemma ProjectionExtentsOrdered(aNear: real, aFar: real, tang: real, aspect: real)
    requires 0.0 < aNear < aFar && tang > 0.0 && aspect > 0.0
    ensures 0.0 < aNear * tang < aFar * tang
    ensures 0.0 < aNear * tang * aspect < aFar * tang * aspect
  {
    PositiveProduct(aNear, tang);
    PositiveProduct(aFar - aNear, tang);
    PositiveProduct(aNear * tang, aspect);
    PositiveProduct((aFar - aNear) * tang, aspect);
  }

  /**
   * The camera frame is right-handed: x, y and the axis have a positive
   * triple product, whenever the axis is not parallel to `up` (and `sqrt`
   * is positive on positive arguments).
   */
  lemma CameraFrameOriented(zAxis: Vec3, sqrt: real -> real)
    requires PositiveRoot(sqrt) && Cross(Vec3(0.0, 1.0, 0.0), zAxis) != Zero
    ensures Dot(Cross(CameraX(zAxis, sqrt), CameraY(zAxis, sqrt)), zAxis) > 0.0
  {
    var c0 := Cross(Vec3(0.0, 1.0, 0.0), zAxis);
    var xAxis := CameraX(zAxis, sqrt);
    var kx := InvLength(c0, sqrt);
    assert xAxis == Mulf(c0, kx) && kx > 0.0;
    assert Dot(xAxis, zAxis) == 0.0 by {
      assert Dot(xAxis, zAxis) == kx * Dot(c0, zAxis);
    }
    assert Dot(xAxis, xAxis) > 0.0 by {
      NonZeroHasPositiveSquare(c0);
      DotSymmetric(c0, xAxis);
      assert Dot(xAxis, xAxis) == kx * (kx * Dot(c0, c0));
      PositiveProduct(kx, Dot(c0, c0));
      PositiveProduct(kx, kx * Dot(c0, c0));
    }
    assert Dot(zAxis, zAxis) > 0.0 by {
      assert zAxis != Zero;
      NonZeroHasPositiveSquare(zAxis);
    }
    var c1 := Cross(zAxis, xAxis);
    assert Dot(c1, c1) > 0.0 by {
      Lagrange(zAxis, xAxis);
      DotSymmetric(zAxis, xAxis);
      PositiveProduct(Dot(zAxis, zAxis), Dot(xAxis, xAxis));
    }
    assert c1 != Zero;
    var yAxis := CameraY(zAxis, sqrt);
    var ky := InvLength(c1, sqrt);
    assert yAxis == Mulf(c1, ky) && ky > 0.0;
    TripleCyclic(xAxis, yAxis, zAxis);
    DotSymmetric(c1, yAxis);
    assert Dot(yAxis, c1) == ky * Dot(c1, c1);
    PositiveProduct(ky, Dot(c1, c1));
  }

  /**
   * A plane built by `calculateNormal` through `a`, `b`, `c` puts `q`
   * strictly inside when `q - b` has a positive component along
   * `cross(c - b, a - b)`.
   */
  lemma InsidePlaneFromPoints(a: Vec3, b: Vec3, c: Vec3, q: Vec3, sqrt: real -> real)
    requires PositiveRoot(sqrt)
    requires Dot(Cross(Sub(c, b), Sub(a, b)), Sub(q, b)) > 0.0
    ensures Dist(PlaneFromPoints(a, b, c, sqrt), q) > 0.0
  {
    var normal := Cross(Sub(c, b), Sub(a, b));
    assert normal != Zero;
    var n := Normalized(normal, sqrt);
    var k := InvLength(normal, sqrt);
    assert n == Mulf(normal, k) && k > 0.0;
    DistanceFromPointOnPlane(n, b, q);
    assert Dot(n, Sub(q, b)) == k * Dot(normal, Sub(q, b));
    PositiveProduct(k, Dot(normal, Sub(q, b)));
  }

  /** The corners of a section at `depth` on the axis, as coordinates in the frame (xAxis, yAxis, zAxis) around the camera. */
  lemma SectionCornersInFrame(cameraPosition: Vec3, zAxis: Vec3, xAxis: Vec3, yAxis: Vec3,
                              depth: real, width: real, height: real)
    ensures var s := SectionCorners(SectionCenter(cameraPosition, zAxis, depth), xAxis, yAxis, width, height);
      s.topLeft == Add(cameraPosition, InFrame(xAxis, yAxis, zAxis, -width, height, -depth)) &&
      s.topRight == Add(cameraPosition, InFrame(xAxis, yAxis, zAxis, width, height, -depth)) &&
      s.bottomLeft == Add(cameraPosition, InFrame(xAxis, yAxis, zAxis, -width, -height, -depth)) &&
      s.bottomRight == Add(cameraPosition, InFrame(xAxis, yAxis, zAxis, width, -height, -depth))
  {
  }

  lemma CenterInFrame(cameraPosition: Vec3, zAxis: Vec3, xAxis: Vec3, yAxis: Vec3, depth: real)
    ensures SectionCenter(cameraPosition, zAxis, depth) == Add(cameraPosition, InFrame(xAxis, yAxis, zAxis, 0.0, 0.0, -depth))
  {
    assert Mulf(xAxis, 0.0) == Zero && Mulf(yAxis, 0.0) == Zero;
    assert InFrame(xAxis, yAxis, zAxis, 0.0, 0.0, -depth) == Add(Add(Zero, Zero), Mulf(zAxis, -depth));
    assert Add(Add(Zero, Zero), Mulf(zAxis, -depth)) == Mulf(zAxis, -depth);
  }

  lemma SubInFrame(origin: Vec3, xAxis: Vec3, yAxis: Vec3, zAxis: Vec3, a1: real, a2: real, a3: real,
                   b1: real, b2: real, b3: real)
    ensures Sub(Add(origin, InFrame(xAxis, yAxis, zAxis, a1, a2, a3)), Add(origin, InFrame(xAxis, yAxis, zAxis, b1, b2, b3)))
         == InFrame(xAxis, yAxis, zAxis, a1 - b1, a2 - b2, a3 - b3)
  {
  }

  /**
   * A plane `calculateNormal` builds through `a`, `b` and `c`, given by
   * coordinates in a right-handed frame, has `q` strictly inside when the
   * determinant of the coordinates of `c - b`, `a - b` and `q - b` is positive.
   */
  lemma InsideSidePlane(a: Vec3, b: Vec3, c: Vec3, q: Vec3, origin: Vec3, xAxis: Vec3, yAxis: Vec3, zAxis: Vec3,
                        a1: real, a2: real, a3: real, b1: real, b2: real, b3: real,
                        c1: real, c2: real, c3: real, q1: real, q2: real, q3: real, sqrt: real -> real)
    requires PositiveRoot(sqrt) && Dot(Cross(xAxis, yAxis), zAxis) > 0.0
    requires a == Add(origin, InFrame(xAxis, yAxis, zAxis, a1, a2, a3))
    requires b == Add(origin, InFrame(xAxis, yAxis, zAxis, b1, b2, b3))
    requires c == Add(origin, InFrame(xAxis, yAxis, zAxis, c1, c2, c3))
    requires q == Add(origin, InFrame(xAxis, yAxis, zAxis, q1, q2, q3))
    requires Det3(c1 - b1, c2 - b2, c3 - b3, a1 - b1, a2 - b2, a3 - b3, q1 - b1, q2 - b2, q3 - b3) > 0.0
    ensures Dist(PlaneFromPoints(a, b, c, sqrt), q) > 0.0
  {
    SubInFrame(origin, xAxis, yAxis, zAxis, c1, c2, c3, b1, b2, b3);
    SubInFrame(origin, xAxis, yAxis, zAxis, a1, a2, a3, b1, b2, b3);
    SubInFrame(origin, xAxis, yAxis, zAxis, q1, q2, q3, b1, b2, b3);
    TripleInFrame(xAxis, yAxis, zAxis, c1 - b1, c2 - b2, c3 - b3, a1 - b1, a2 - b2, a3 - b3, q1 - b1, q2 - b2, q3 - b3);
    PositiveProduct(Det3(c1 - b1, c2 - b2, c3 - b3, a1 - b1, a2 - b2, a3 - b3, q1 - b1, q2 - b2, q3 - b3),
                    Dot(Cross(xAxis, yAxis), zAxis));
    InsidePlaneFromPoints(a, b, c, q, sqrt);
  }

  /** `2 s (dh dt + dz h) > 0`: the determinant every side plane comes to. */
  lemma SideDetPositive(s: real, h: real, dh: real, dt: real, dz: real)
    requires s > 0.0 && h > 0.0 && dh >= 0.0 && dt >= 0.0 && dz > 0.0
    ensures 2.0 * s * (dh * dt + dz * h) > 0.0
  {
    NonNegativeProduct(dh, dt);
    PositiveProduct(dz, h);
    PositiveProduct(2.0 * s, dh * dt + dz * h);
  }

  /** The hypotheses under which the side planes face inward. */
  ghost predicate SidesFaceInward(zAxis: Vec3, zNear: real, zFar: real, nearWidth: real, nearHeight: real,
                                  farWidth: real, farHeight: real, t: real, sqrt: real -> real)
  {
    PositiveRoot(sqrt) && Cross(Vec3(0.0, 1.0, 0.0), zAxis) != Zero &&
    zNear < zFar && zNear <= t &&
    0.0 < nearWidth <= farWidth && 0.0 < nearHeight <= farHeight
  }

  /**
   * The four side planes face inward: with positive extents that do not
   * shrink from near to far, every point on the camera axis from the near
   * centre on is strictly inside Bottom, Top, Left and Right.
   */
  lemma AxisIsInsideSidePlanes(cameraPosition: Vec3, zAxis: Vec3, zNear: real, zFar: real,
                               nearWidth: real, nearHeight: real, farWidth: real, farHeight: real,
                               t: real, sqrt: real -> real)
    requires SidesFaceInward(zAxis, zNear, zFar, nearWidth, nearHeight, farWidth, farHeight, t, sqrt)
    ensures var ps := FrustumPlanes(cameraPosition, zAxis, zNear, zFar, nearWidth, nearHeight, farWidth, farHeight, sqrt);
      forall i :: Bottom <= i <= Right ==> Dist(ps[i], SectionCenter(cameraPosition, zAxis, t)) > 0.0
  {
    var ps := FrustumPlanes(cameraPosition, zAxis, zNear, zFar, nearWidth, nearHeight, farWidth, farHeight, sqrt);
    var xAxis, yAxis := CameraX(zAxis, sqrt), CameraY(zAxis, sqrt);
    var ns := SectionCorners(SectionCenter(cameraPosition, zAxis, zNear), xAxis, yAxis, nearWidth, nearHeight);
    var fs := SectionCorners(SectionCenter(cameraPosition, zAxis, zFar), xAxis, yAxis, farWidth, farHeight);
    var q := SectionCenter(cameraPosition, zAxis, t);
    assert ps[Bottom] == PlaneFromPoints(ns.bottomLeft, ns.bottomRight, fs.bottomRight, sqrt);
    assert ps[Top] == PlaneFromPoints(ns.topRight, ns.topLeft, fs.topLeft, sqrt);
    assert ps[Left] == PlaneFromPoints(ns.topLeft, ns.bottomLeft, fs.bottomLeft, sqrt);
    assert ps[Right] == PlaneFromPoints(ns.bottomRight, ns.topRight, fs.bottomRight, sqrt);
    CameraFrameOriented(zAxis, sqrt);
    BottomFacesInward(cameraPosition, zAxis, zNear, zFar, nearWidth, nearHeight, farWidth, farHeight, xAxis, yAxis, t, sqrt);
    TopFacesInward(cameraPosition, zAxis, zNear, zFar, nearWidth, nearHeight, farWidth, farHeight, xAxis, yAxis, t, sqrt);
    LeftFacesInward(cameraPosition, zAxis, zNear, zFar, nearWidth, nearHeight, farWidth, farHeight, xAxis, yAxis, t, sqrt);
    RightFacesInward(cameraPosition, zAxis, zNear, zFar, nearWidth, nearHeight, farWidth, farHeight, xAxis, yAxis, t, sqrt);
  }

  /** Bottom: through the near bottom corners and the far bottom-right one. */
  lemma BottomFacesInward(cameraPosition: Vec3, zAxis: Vec3, zNear: real, zFar: real,
                       nearWidth: real, nearHeight: real, farWidth: real, farHeight: real,
                       xAxis: Vec3, yAxis: Vec3, t: real, sqrt: real -> real)
    requires SidesFaceInward(zAxis, zNear, zFar, nearWidth, nearHeight, farWidth, farHeight, t, sqrt)
    requires Dot(Cross(xAxis, yAxis), zAxis) > 0.0
    ensures var ns := SectionCorners(SectionCenter(cameraPosition, zAxis, zNear), xAxis, yAxis, nearWidth, nearHeight);
      var fs := SectionCorners(SectionCenter(cameraPosition, zAxis, zFar), xAxis, yAxis, farWidth, farHeight);
      Dist(PlaneFromPoints(ns.bottomLeft, ns.bottomRight, fs.bottomRight, sqrt), SectionCenter(cameraPosition, zAxis, t)) > 0.0
  {
    var ns := SectionCorners(SectionCenter(cameraPosition, zAxis, zNear), xAxis, yAxis, nearWidth, nearHeight);
    var fs := SectionCorners(SectionCenter(cameraPosition, zAxis, zFar), xAxis, yAxis, farWidth, farHeight);
    SectionCornersInFrame(cameraPosition, zAxis, xAxis, yAxis, zNear, nearWidth, nearHeight);
    SectionCornersInFrame(cameraPosition, zAxis, xAxis, yAxis, zFar, farWidth, farHeight);
    CenterInFrame(cameraPosition, zAxis, xAxis, yAxis, t);
    BottomDet(zNear, zFar, nearWidth, nearHeight, farWidth, farHeight, t);
    InsideSidePlane(ns.bottomLeft, ns.bottomRight, fs.bottomRight, SectionCenter(cameraPosition, zAxis, t),
                    cameraPosition, xAxis, yAxis, zAxis,
                    -nearWidth, -nearHeight, -zNear, nearWidth, -nearHeight, -zNear, farWidth, -farHeight, -zFar, 0.0, 0.0, -t, sqrt);
  }

  lemma BottomDet(zNear: real, zFar: real, nearWidth: real, nearHeight: real, farWidth: real, farHeight: real, t: real)
    requires zNear < zFar && zNear <= t && 0.0 < nearWidth <= farWidth && 0.0 < nearHeight <= farHeight
    ensures Det3(farWidth - nearWidth, (-farHeight) - (-nearHeight), (-zFar) - (-zNear),
                 (-nearWidth) - nearWidth, (-nearHeight) - (-nearHeight), (-zNear) - (-zNear),
                 0.0 - nearWidth, 0.0 - (-nearHeight), (-t) - (-zNear)) > 0.0
  {
    SideDetPositive(nearWidth, nearHeight, farHeight - nearHeight, t - zNear, zFar - zNear);
  }

  /** Top: through the near top corners and the far top-left one. */
  lemma TopFacesInward(cameraPosition: Vec3, zAxis: Vec3, zNear: real, zFar: real,
                       nearWidth: real, nearHeight: real, farWidth: real, farHeight: real,
                       xAxis: Vec3, yAxis: Vec3, t: real, sqrt: real -> real)
    requires SidesFaceInward(zAxis, zNear, zFar, nearWidth, nearHeight, farWidth, farHeight, t, sqrt)
    requires Dot(Cross(xAxis, yAxis), zAxis) > 0.0
    ensures var ns := SectionCorners(SectionCenter(cameraPosition, zAxis, zNear), xAxis, yAxis, nearWidth, nearHeight);
      var fs := SectionCorners(SectionCenter(cameraPosition, zAxis, zFar), xAxis, yAxis, farWidth, farHeight);
      Dist(PlaneFromPoints(ns.topRight, ns.topLeft, fs.topLeft, sqrt), SectionCenter(cameraPosition, zAxis, t)) > 0.0
  {
    var ns := SectionCorners(SectionCenter(cameraPosition, zAxis, zNear), xAxis, yAxis, nearWidth, nearHeight);
    var fs := SectionCorners(SectionCenter(cameraPosition, zAxis, zFar), xAxis, yAxis, farWidth, farHeight);
    SectionCornersInFrame(cameraPosition, zAxis, xAxis, yAxis, zNear, nearWidth, nearHeight);
    SectionCornersInFrame(cameraPosition, zAxis, xAxis, yAxis, zFar, farWidth, farHeight);
    CenterInFrame(cameraPosition, zAxis, xAxis, yAxis, t);
    TopDet(zNear, zFar, nearWidth, nearHeight, farWidth, farHeight, t);
    InsideSidePlane(ns.topRight, ns.topLeft, fs.topLeft, SectionCenter(cameraPosition, zAxis, t),
                    cameraPosition, xAxis, yAxis, zAxis,
                    nearWidth, nearHeight, -zNear, -nearWidth, nearHeight, -zNear, -farWidth, farHeight, -zFar, 0.0, 0.0, -t, sqrt);
  }

  lemma TopDet(zNear: real, zFar: real, nearWidth: real, nearHeight: real, farWidth: real, farHeight: real, t: real)
    requires zNear < zFar && zNear <= t && 0.0 < nearWidth <= farWidth && 0.0 < nearHeight <= farHeight
    ensures Det3((-farWidth) - (-nearWidth), farHeight - nearHeight, (-zFar) - (-zNear),
                 nearWidth - (-nearWidth), nearHeight - nearHeight, (-zNear) - (-zNear),
                 0.0 - (-nearWidth), 0.0 - nearHeight, (-t) - (-zNear)) > 0.0
  {
    SideDetPositive(nearWidth, nearHeight, farHeight - nearHeight, t - zNear, zFar - zNear);
  }

  /** Left: through the near left corners and the far bottom-left one. */
  lemma LeftFacesInward(cameraPosition: Vec3, zAxis: Vec3, zNear: real, zFar: real,
                       nearWidth: real, nearHeight: real, farWidth: real, farHeight: real,
                       xAxis: Vec3, yAxis: Vec3, t: real, sqrt: real -> real)
    requires SidesFaceInward(zAxis, zNear, zFar, nearWidth, nearHeight, farWidth, farHeight, t, sqrt)
    requires Dot(Cross(xAxis, yAxis), zAxis) > 0.0
    ensures var ns := SectionCorners(SectionCenter(cameraPosition, zAxis, zNear), xAxis, yAxis, nearWidth, nearHeight);
      var fs := SectionCorners(SectionCenter(cameraPosition, zAxis, zFar), xAxis, yAxis, farWidth, farHeight);
      Dist(PlaneFromPoints(ns.topLeft, ns.bottomLeft, fs.bottomLeft, sqrt), SectionCenter(cameraPosition, zAxis, t)) > 0.0
  {
    var ns := SectionCorners(SectionCenter(cameraPosition, zAxis, zNear), xAxis, yAxis, nearWidth, nearHeight);
    var fs := SectionCorners(SectionCenter(cameraPosition, zAxis, zFar), xAxis, yAxis, farWidth, farHeight);
    SectionCornersInFrame(cameraPosition, zAxis, xAxis, yAxis, zNear, nearWidth, nearHeight);
    SectionCornersInFrame(cameraPosition, zAxis, xAxis, yAxis, zFar, farWidth, farHeight);
    CenterInFrame(cameraPosition, zAxis, xAxis, yAxis, t);
    LeftDet(zNear, zFar, nearWidth, nearHeight, farWidth, farHeight, t);
    InsideSidePlane(ns.topLeft, ns.bottomLeft, fs.bottomLeft, SectionCenter(cameraPosition, zAxis, t),
                    cameraPosition, xAxis, yAxis, zAxis,
                    -nearWidth, nearHeight, -zNear, -nearWidth, -nearHeight, -zNear, -farWidth, -farHeight, -zFar, 0.0, 0.0, -t, sqrt);
  }

  lemma LeftDet(zNear: real, zFar: real, nearWidth: real, nearHeight: real, farWidth: real, farHeight: real, t: real)
    requires zNear < zFar && zNear <= t && 0.0 < nearWidth <= farWidth && 0.0 < nearHeight <= farHeight
    ensures Det3((-farWidth) - (-nearWidth), (-farHeight) - (-nearHeight), (-zFar) - (-zNear),
                 (-nearWidth) - (-nearWidth), nearHeight - (-nearHeight), (-zNear) - (-zNear),
                 0.0 - (-nearWidth), 0.0 - (-nearHeight), (-t) - (-zNear)) > 0.0
  {
    SideDetPositive(nearHeight, nearWidth, farWidth - nearWidth, t - zNear, zFar - zNear);
  }

  /** Right: through the near right corners and the far bottom-right one. */
  lemma RightFacesInward(cameraPosition: Vec3, zAxis: Vec3, zNear: real, zFar: real,
                       nearWidth: real, nearHeight: real, farWidth: real, farHeight: real,
                       xAxis: Vec3, yAxis: Vec3, t: real, sqrt: real -> real)
    requires SidesFaceInward(zAxis, zNear, zFar, nearWidth, nearHeight, farWidth, farHeight, t, sqrt)
    requires Dot(Cross(xAxis, yAxis), zAxis) > 0.0
    ensures var ns := SectionCorners(SectionCenter(cameraPosition, zAxis, zNear), xAxis, yAxis, nearWidth, nearHeight);
      var fs := SectionCorners(SectionCenter(cameraPosition, zAxis, zFar), xAxis, yAxis, farWidth, farHeight);
      Dist(PlaneFromPoints(ns.bottomRight, ns.topRight, fs.bottomRight, sqrt), SectionCenter(cameraPosition, zAxis, t)) > 0.0
  {
    var ns := SectionCorners(SectionCenter(cameraPosition, zAxis, zNear), xAxis, yAxis, nearWidth, nearHeight);
    var fs := SectionCorners(SectionCenter(cameraPosition, zAxis, zFar), xAxis, yAxis, farWidth, farHeight);
    SectionCornersInFrame(cameraPosition, zAxis, xAxis, yAxis, zNear, nearWidth, nearHeight);
    SectionCornersInFrame(cameraPosition, zAxis, xAxis, yAxis, zFar, farWidth, farHeight);
    CenterInFrame(cameraPosition, zAxis, xAxis, yAxis, t);
    RightDet(zNear, zFar, nearWidth, nearHeight, farWidth, farHeight, t);
    InsideSidePlane(ns.bottomRight, ns.topRight, fs.bottomRight, SectionCenter(cameraPosition, zAxis, t),
                    cameraPosition, xAxis, yAxis, zAxis,
                    nearWidth, -nearHeight, -zNear, nearWidth, nearHeight, -zNear, farWidth, -farHeight, -zFar, 0.0, 0.0, -t, sqrt);
  }

  lemma RightDet(zNear: real, zFar: real, nearWidth: real, nearHeight: real, farWidth: real, farHeight: real, t: real)
    requires zNear < zFar && zNear <= t && 0.0 < nearWidth <= farWidth && 0.0 < nearHeight <= farHeight
    ensures Det3(farWidth - nearWidth, (-farHeight) - nearHeight, (-zFar) - (-zNear),
                 nearWidth - nearWidth, (-nearHeight) - nearHeight, (-zNear) - (-zNear),
                 0.0 - nearWidth, 0.0 - nearHeight, (-t) - (-zNear)) > 0.0
  {
    SideDetPositive(nearHeight, nearWidth, farWidth - nearWidth, t - zNear, zFar - zNear);
  }

  /**
   * Every point on the camera axis between the near and the far centre is
   * inside all six planes.
   */
  lemma AxisIsInsideFrustum(cameraPosition: Vec3, zAxis: Vec3, zNear: real, zFar: real,
                            nearWidth: real, nearHeight: real, farWidth: real, farHeight: real,
                            t: real, sqrt: real -> real)
    requires SidesFaceInward(zAxis, zNear, zFar, nearWidth, nearHeight, farWidth, farHeight, t, sqrt) && t <= zFar
    ensures var ps := FrustumPlanes(cameraPosition, zAxis, zNear, zFar, nearWidth, nearHeight, farWidth, farHeight, sqrt);
      forall i :: 0 <= i < |ps| ==> Dist(ps[i], SectionCenter(cameraPosition, zAxis, t)) >= 0.0
  {
    var ps := FrustumPlanes(cameraPosition, zAxis, zNear, zFar, nearWidth, nearHeight, farWidth, farHeight, sqrt);
    var q := SectionCenter(cameraPosition, zAxis, t);
    FrustumNearAndFar(cameraPosition, zAxis, zNear, zFar, nearWidth, nearHeight, farWidth, farHeight, sqrt);
    AxisIsInsideNearAndFar(cameraPosition, zAxis, zNear, zFar, t, sqrt);
    AxisIsInsideSidePlanes(cameraPosition, zAxis, zNear, zFar, nearWidth, nearHeight, farWidth, farHeight, t, sqrt);
    assert Dist(ps[Bottom], q) > 0.0 && Dist(ps[Top], q) > 0.0;
    assert Dist(ps[Left], q) > 0.0 && Dist(ps[Right], q) > 0.0;
    SixPlanesInside(ps, q);
  }

  /** A point on the inner side of each of six planes is on the inner side of all of them. */
  lemma SixPlanesInside(ps: seq<PlaneEq>, q: Vec3)
    requires |ps| == 6
    requires Dist(ps[Far], q) >= 0.0 && Dist(ps[Near], q) >= 0.0
    requires Dist(ps[Bottom], q) >= 0.0 && Dist(ps[Top], q) >= 0.0
    requires Dist(ps[Left], q) >= 0.0 && Dist(ps[Right], q) >= 0.0
    ensures forall i :: 0 <= i < |ps| ==> Dist(ps[i], q) >= 0.0
  {
    forall i | 0 <= i < |ps|
      ensures Dist(ps[i], q) >= 0.0
    {
      assert i == Far || i == Near || i == Bottom || i == Top || i == Left || i == Right;
    }
  }

  /** An axis not parallel to `up` is not the zero vector. */
  lemma AxisNotUp(zAxis: Vec3)
    requires Cross(Vec3(0.0, 1.0, 0.0), zAxis) != Zero
    ensures zAxis != Zero
  {
  }

  lemma AxisIsInsideNearAndFar(cameraPosition: Vec3, zAxis: Vec3, zNear: real, zFar: real, t: real,
                               sqrt: real -> real)
    requires PositiveRoot(sqrt) && Cross(Vec3(0.0, 1.0, 0.0), zAxis) != Zero && zNear <= t <= zFar
    ensures Dist(PlaneFromNormalAndPoint(Neg(zAxis), SectionCenter(cameraPosition, zAxis, zNear), sqrt),
                 SectionCenter(cameraPosition, zAxis, t)) >= 0.0
    ensures Dist(PlaneFromNormalAndPoint(zAxis, SectionCenter(cameraPosition, zAxis, zFar), sqrt),
                 SectionCenter(cameraPosition, zAxis, t)) >= 0.0
  {
    AxisNotUp(zAxis);
    AxisBetweenNearAndFarIsInside(cameraPosition, zAxis, zNear, zFar, t, sqrt);
  }

  /** The near and far planes of `FrustumPlanes` are the ones built from the normal and a centre. */
  lemma FrustumNearAndFar(cameraPosition: Vec3, zAxis: Vec3, zNear: real, zFar: real,
                          nearWidth: real, nearHeight: real, farWidth: real, farHeight: real,
                          sqrt: real -> real)
    ensures var ps := FrustumPlanes(cameraPosition, zAxis, zNear, zFar, nearWidth, nearHeight, farWidth, farHeight, sqrt);
      |ps| == 6 &&
      ps[Far] == PlaneFromNormalAndPoint(zAxis, SectionCenter(cameraPosition, zAxis, zFar), sqrt) &&
      ps[Near] == PlaneFromNormalAndPoint(Neg(zAxis), SectionCenter(cameraPosition, zAxis, zNear), sqrt)
  {
  }

  /**
   * `boxInFrustum` accepts every box that holds a point of the camera axis
   * between the near and the far centre.
   */
  lemma AxisBoxAccepted(cameraPosition: Vec3, zAxis: Vec3, zNear: real, zFar: real,
                        nearWidth: real, nearHeight: real, farWidth: real, farHeight: real,
                        t: real, sqrt: real -> real, vMin: Vec3, vMax: Vec3)
    requires SidesFaceInward(zAxis, zNear, zFar, nearWidth, nearHeight, farWidth, farHeight, t, sqrt) && t <= zFar
    requires InBox(SectionCenter(cameraPosition, zAxis, t), vMin, vMax)
    ensures BoxAccepted(FrustumPlanes(cameraPosition, zAxis, zNear, zFar, nearWidth, nearHeight, farWidth, farHeight, sqrt),
                        vMin, vMax)
  {
    AxisIsInsideFrustum(cameraPosition, zAxis, zNear, zFar, nearWidth, nearHeight, farWidth, farHeight, t, sqrt);
    BoxWithInsidePointAccepted(
      FrustumPlanes(cameraPosition, zAxis, zNear, zFar, nearWidth, nearHeight, farWidth, farHeight, sqrt),
      vMin, vMax, SectionCenter(cameraPosition, zAxis, t));
  }
}
