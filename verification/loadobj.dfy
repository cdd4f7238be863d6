/**
 * Vertex welding (loadobj.c, `createFinalGeometry`): the faces of a parsed
 * OBJ mesh index positions, texture coordinates and normals separately;
 * welding turns every face corner into one shared vertex index, reusing an
 * earlier vertex whose three attributes are all almost equal and appending
 * a new one otherwise, and then computes the mesh's bounding box.
 *
 * `Weld` is the specification: the welded mesh after the first `n` faces,
 * or `None` where one of the source's capacity asserts would stop the
 * program.  `CreateFinalGeometry` is proved to fill the mesh's arrays with
 * exactly that.
 */
module LoadObj {
  import opened Vec
  import Renderer

  /** The capacities the source allocates for vertices and faces. */
  const MaxVertices: int := 153636
  const MaxFaces: int := 128343

  /** The number of distinct values of an `unsigned short`. */
  const UShortRange: int := 65536

  /** The tolerance of the almost-equal tests. */
  const Epsilon: real := 0.0001

  /** One OBJ face: for each of its three corners, a position, a uv and a normal index. */
  datatype OBJFace = OBJFace(posInd: seq<nat>, uvInd: seq<nat>, normInd: seq<nat>)

  /** A parsed OBJ mesh, read-only here. */
  datatype OBJMesh = OBJMesh(positions: seq<Vec3>, uvs: seq<Renderer.UV>, normals: seq<Vec3>, faces: seq<OBJFace>)

  /** Every face has three corners, and every index reaches into its array. */
  predicate ValidObj(obj: OBJMesh)
  {
    forall f :: 0 <= f < |obj.faces| ==>
      |obj.faces[f].posInd| == 3 && |obj.faces[f].uvInd| == 3 && |obj.faces[f].normInd| == 3 &&
      (forall k :: 0 <= k < 3 ==>
        obj.faces[f].posInd[k] < |obj.positions| &&
        obj.faces[f].uvInd[k] < |obj.uvs| &&
        obj.faces[f].normInd[k] < |obj.normals|)
  }

  // ---------------------------------------------------------------------
  // Almost-equal tests

  function Abs(r: real): (a: real)
    ensures a >= 0.0 && (a == r || a == -r)
  {
    if r < 0.0 then -r else r
  }

  /** `x` and `y` differ by less than `Epsilon`, stated without the absolute value. */
  predicate Near(x: real, y: real)
  {
    -Epsilon < x - y < Epsilon
  }

  /** `Near` is the source's `fabs(x - y) < 0.0001f`. */
  lemma NearIsAbs(x: real, y: real)
    ensures Near(x, y) <==> Abs(x - y) < Epsilon
  {
  }

  /** `AlmostEqualsVec`: every component differs by less than `Epsilon`. */
  predicate AlmostEqualsVec(v1: Vec3, v2: Vec3)
  {
    Near(v1.x, v2.x) && Near(v1.y, v2.y) && Near(v1.z, v2.z)
  }

  /** `AlmostEqualsUV`: both coordinates differ by less than `Epsilon`. */
  predicate AlmostEqualsUV(uv1: Renderer.UV, uv2: Renderer.UV)
  {
    Near(uv1.u, uv2.u) && Near(uv1.v, uv2.v)
  }

  /** Both tests are reflexive and symmetric. */
  lemma AlmostEqualsReflexiveSymmetric(v1: Vec3, v2: Vec3, uv1: Renderer.UV, uv2: Renderer.UV)
    ensures AlmostEqualsVec(v1, v1) && AlmostEqualsUV(uv1, uv1)
    ensures AlmostEqualsVec(v1, v2) <==> AlmostEqualsVec(v2, v1)
    ensures AlmostEqualsUV(uv1, uv2) <==> AlmostEqualsUV(uv2, uv1)
  {
  }

  /** They are not transitive: welding is not an equivalence on vertices. */
  lemma AlmostEqualsVecNotTransitive()
    ensures AlmostEqualsVec(Vec3(0.0, 0.0, 0.0), Vec3(0.00006, 0.0, 0.0))
    ensures AlmostEqualsVec(Vec3(0.00006, 0.0, 0.0), Vec3(0.00012, 0.0, 0.0))
    ensures !AlmostEqualsVec(Vec3(0.0, 0.0, 0.0), Vec3(0.00012, 0.0, 0.0))
  {
  }

  // ---------------------------------------------------------------------
  // Welding: specification

  /** The attributes of one face corner. */
  datatype Corner = Corner(pos: Vec3, uv: Renderer.UV, norm: Vec3)

  /** Corner `k` of face `f` of the OBJ mesh. */
  function CornerOf(obj: OBJMesh, f: int, k: int): Corner
    requires ValidObj(obj) && 0 <= f < |obj.faces| && 0 <= k < 3
  {
    Corner(obj.positions[obj.faces[f].posInd[k]], obj.uvs[obj.faces[f].uvInd[k]], obj.normals[obj.faces[f].normInd[k]])
  }

  /** The welded mesh so far: the filled part of the vertex arrays and the faces. */
  datatype Welded = Welded(positions: seq<Vec3>, uvs: seq<Renderer.UV>, normals: seq<Vec3>,
                           faces: seq<Renderer.VertexInd>)

  /** Corner slot `k` of a face: `a`, `b` or `c`. */
  function Slot(face: Renderer.VertexInd, k: int): Renderer.UShort
  {
    if k == 0 then face.a else if k == 1 then face.b else face.c
  }

  /** All three indices of `face` are below `count`. */
  predicate FaceInRange(face: Renderer.VertexInd, count: int)
  {
    face.a < count && face.b < count && face.c < count
  }

  /** The three vertex arrays have one length, and every face index is below it. */
  predicate WellIndexed(w: Welded)
  {
    |w.uvs| == |w.positions| && |w.normals| == |w.positions| &&
    forall i :: 0 <= i < |w.faces| ==> FaceInRange(w.faces[i], |w.positions|)
  }

  /** Vertex `j` is almost equal to corner `c` in all three attributes. */
  predicate CloseTo(w: Welded, j: int, c: Corner)
    requires WellIndexed(w) && 0 <= j < |w.positions|
  {
    AlmostEqualsVec(c.pos, w.positions[j]) && AlmostEqualsUV(c.uv, w.uvs[j]) && AlmostEqualsVec(c.norm, w.normals[j])
  }

  /** The vertex in slot `k` of face `i` can be reused for corner `c`. */
  predicate Matches(w: Welded, i: int, k: int, c: Corner)
    requires WellIndexed(w) && 0 <= i < |w.faces| && 0 <= k < 3
  {
    CloseTo(w, Slot(w.faces[i], k), c)
  }

  /** The first face from `i` on whose slot `k` matches `c`. */
  function FirstMatch(w: Welded, k: int, c: Corner, i: nat): (r: Option<nat>)
    requires WellIndexed(w) && 0 <= k < 3 && i <= |w.faces|
    ensures r.Some? ==> i <= r.value < |w.faces| && Matches(w, r.value, k, c)
    decreases |w.faces| - i
  {
    if i == |w.faces| then None
    else if Matches(w, i, k, c) then Some(i)
    else FirstMatch(w, k, c, i + 1)
  }

  /** No face between `i` and the one `FirstMatch` finds, or the end, matches. */
  lemma {:induction false} FirstMatchIsFirst(w: Welded, k: int, c: Corner, i: nat)
    requires WellIndexed(w) && 0 <= k < 3 && i <= |w.faces|
    ensures FirstMatch(w, k, c, i).Some? ==> forall j :: i <= j < FirstMatch(w, k, c, i).value ==> !Matches(w, j, k, c)
    ensures FirstMatch(w, k, c, i).None? ==> forall j :: i <= j < |w.faces| ==> !Matches(w, j, k, c)
    decreases |w.faces| - i
  {
    if i < |w.faces| && !Matches(w, i, k, c) {
      FirstMatchIsFirst(w, k, c, i + 1);
    }
  }

  datatype Option<T> = None | Some(value: T)

  /** `w` with corner `c` appended as a new vertex. */
  function Append(w: Welded, c: Corner): Welded
  {
    Welded(w.positions + [c.pos], w.uvs + [c.uv], w.normals + [c.norm], w.faces)
  }

  /**
   * One corner, in slot `k`: reuse the vertex of the first earlier face
   * whose slot `k` matches, otherwise append a new vertex and index it by
   * the new vertex count minus one, cast to `unsigned short`.  `None` when
   * the vertex count reaches `MaxVertices`.
   */
  function WeldCorner(w: Welded, k: int, c: Corner): (r: Option<(Welded, Renderer.UShort)>)
    requires WellIndexed(w) && 0 <= k < 3
    ensures r.Some? ==> WellIndexed(r.value.0) && r.value.1 < |r.value.0.positions| && r.value.0.faces == w.faces
    ensures r.Some? ==> |w.positions| <= |r.value.0.positions| <= |w.positions| + 1
    ensures r.Some? && |w.positions| < MaxVertices ==> |r.value.0.positions| < MaxVertices
  {
    match FirstMatch(w, k, c, 0)
    case Some(i) => Some((w, Slot(w.faces[i], k)))
    case None =>
      var count := |w.positions| + 1;
      AppendKeepsIndexed(w, c);
      if count < MaxVertices then Some((Append(w, c), (count - 1) % UShortRange)) else None
  }

  /**
   * What `WeldCorner` does: when some earlier face matches, it reuses the
   * first match's vertex and changes nothing; otherwise it appends the
   * corner, indexed by the old vertex count modulo 65536, and it fails
   * exactly when no face matches and the vertex count would reach
   * `MaxVertices`.
   */
  lemma WeldCornerCases(w: Welded, k: int, c: Corner)
    requires WellIndexed(w) && 0 <= k < 3
    ensures var r := WeldCorner(w, k, c);
      && (FirstMatch(w, k, c, 0).Some? ==> r == Some((w, Slot(w.faces[FirstMatch(w, k, c, 0).value], k))))
      && (FirstMatch(w, k, c, 0).None? && r.Some? ==>
            r.value == (Append(w, c), |w.positions| % UShortRange))
      && (r.None? <==> FirstMatch(w, k, c, 0).None? && |w.positions| + 1 >= MaxVertices)
  {
  }

  /**
   * While the vertex count fits an `unsigned short`, the index a corner
   * gets names a vertex almost equal to the corner in all three
   * attributes: a reused one that matched, or the one just appended, which
   * holds the corner exactly.
   */
  lemma WeldCornerFaithful(w: Welded, k: int, c: Corner)
    requires WellIndexed(w) && 0 <= k < 3 && WeldCorner(w, k, c).Some?
    requires |WeldCorner(w, k, c).value.0.positions| <= UShortRange
    ensures CloseTo(WeldCorner(w, k, c).value.0, WeldCorner(w, k, c).value.1, c)
  {
  }

  /** The slots of `face` before corner `k` are below `count`. */
  predicate SlotsBelow(face: Renderer.VertexInd, k: int, count: int)
  {
    (k > 0 ==> face.a < count) && (k > 1 ==> face.b < count) && (k > 2 ==> face.c < count)
  }

  /** `face` with slot `k` set to `i`. */
  function WithSlot(face: Renderer.VertexInd, k: int, i: Renderer.UShort): (r: Renderer.VertexInd)
    requires 0 <= k < 3
    ensures Slot(r, k) == i
    ensures forall j :: 0 <= j < 3 && j != k ==> Slot(r, j) == Slot(face, j)
  {
    if k == 0 then face.(a := i) else if k == 1 then face.(b := i) else face.(c := i)
  }

  /**
   * Face `f` from corner `k` on: weld corners `k` to 2 in order into the
   * slots of `face`, whose earlier slots are already set, then add the
   * face.  `None` when a capacity assert would stop the program.
   */
  function WeldFaceFrom(w: Welded, obj: OBJMesh, f: int, k: nat, face: Renderer.VertexInd): (r: Option<Welded>)
    requires WellIndexed(w) && |w.positions| < MaxVertices && ValidObj(obj) && 0 <= f < |obj.faces|
    requires k <= 3 && SlotsBelow(face, k, |w.positions|)
    ensures r.Some? ==> WellIndexed(r.value) && |r.value.faces| == |w.faces| + 1 < MaxFaces
    ensures r.Some? ==> |w.positions| <= |r.value.positions| <= |w.positions| + 3 - k
    ensures r.Some? ==> |r.value.positions| < MaxVertices
    decreases 3 - k
  {
    if k == 3 then
      AddFaceKeepsIndexed(w, face);
      if |w.faces| + 1 < MaxFaces then Some(AddFace(w, face)) else None
    else
      match WeldCorner(w, k, CornerOf(obj, f, k))
      case None => None
      case Some((w', i)) => WeldFaceFrom(w', obj, f, k + 1, WithSlot(face, k, i))
  }

  /** Face `f`: weld its corners in the order a, b, c, then add the face. */
  function WeldFace(w: Welded, obj: OBJMesh, f: int): Option<Welded>
    requires WellIndexed(w) && |w.positions| < MaxVertices && ValidObj(obj) && 0 <= f < |obj.faces|
  {
    WeldFaceFrom(w, obj, f, 0, Renderer.VertexInd(0, 0, 0))
  }

  /** `w` with one more face. */
  function AddFace(w: Welded, face: Renderer.VertexInd): Welded
  {
    Welded(w.positions, w.uvs, w.normals, w.faces + [face])
  }

  lemma AddFaceKeepsIndexed(w: Welded, face: Renderer.VertexInd)
    requires WellIndexed(w) && face.a < |w.positions| && face.b < |w.positions| && face.c < |w.positions|
    ensures WellIndexed(AddFace(w, face))
  {
    var w' := AddFace(w, face);
    forall i, k | 0 <= i < |w'.faces| && 0 <= k < 3
      ensures Slot(w'.faces[i], k) < |w'.positions|
    {
      if i < |w.faces| {
        assert w'.faces[i] == w.faces[i];
      }
    }
  }

  /** `w'` grew from `w` by appending only: every array of `w` is a prefix of the same array of `w'`. */
  predicate Extends(w: Welded, w': Welded)
  {
    w.positions <= w'.positions && w.uvs <= w'.uvs && w.normals <= w'.normals && w.faces <= w'.faces
  }

  /** A corner step only appends. */
  lemma WeldCornerExtends(w: Welded, k: int, c: Corner)
    requires WellIndexed(w) && 0 <= k < 3 && WeldCorner(w, k, c).Some?
    ensures Extends(w, WeldCorner(w, k, c).value.0)
  {
  }

  /** The rest of a face only appends. */
  lemma {:induction false} WeldFaceExtends(w: Welded, obj: OBJMesh, f: int, k: nat, face: Renderer.VertexInd)
    requires WellIndexed(w) && |w.positions| < MaxVertices && ValidObj(obj) && 0 <= f < |obj.faces|
    requires k <= 3 && SlotsBelow(face, k, |w.positions|)
    requires WeldFaceFrom(w, obj, f, k, face).Some?
    ensures Extends(w, WeldFaceFrom(w, obj, f, k, face).value)
    decreases 3 - k
  {
    if k < 3 {
      var (w', i) := WeldCorner(w, k, CornerOf(obj, f, k)).value;
      WeldCornerExtends(w, k, CornerOf(obj, f, k));
      WeldFaceExtends(w', obj, f, k + 1, WithSlot(face, k, i));
      ExtendsTransitive(w, w', WeldFaceFrom(w, obj, f, k, face).value);
    }
  }

  lemma PrefixTransitive<T>(s1: seq<T>, s2: seq<T>, s3: seq<T>)
    requires s1 <= s2 && s2 <= s3
    ensures s1 <= s3
  {
    assert s1 == s2[..|s1|] == s3[..|s1|];
  }

  lemma ExtendsTransitive(w1: Welded, w2: Welded, w3: Welded)
    requires Extends(w1, w2) && Extends(w2, w3)
    ensures Extends(w1, w3)
  {
    PrefixTransitive(w1.positions, w2.positions, w3.positions);
    PrefixTransitive(w1.uvs, w2.uvs, w3.uvs);
    PrefixTransitive(w1.normals, w2.normals, w3.normals);
    PrefixTransitive(w1.faces, w2.faces, w3.faces);
  }

  lemma AppendKeepsIndexed(w: Welded, c: Corner)
    requires WellIndexed(w)
    ensures WellIndexed(Append(w, c))
  {
  }

  /**
   * The welded mesh after the first `n` faces: face count `n`, every face
   * index below the vertex count, at most three new vertices per face, and
   * both counts below the capacity asserts.
   */
  function Weld(obj: OBJMesh, n: nat): (r: Option<Welded>)
    requires ValidObj(obj) && n <= |obj.faces|
    decreases n, 0
    ensures r.Some? ==> WellIndexed(r.value) && |r.value.faces| == n
    ensures r.Some? ==> |r.value.positions| <= 3 * n && |r.value.positions| < MaxVertices && n < MaxFaces
  {
    if n == 0 then Some(Welded([], [], [], [])) else WeldThrough(obj, n - 1)
  }

  /**
   * The mesh once face `m` is welded into `Weld(obj, m)`.  A separate
   * function so that unfolding `Weld` once does not also unfold the face.
   */
  function WeldThrough(obj: OBJMesh, m: nat): Option<Welded>
    requires ValidObj(obj) && m < |obj.faces|
    decreases m, 1
  {
    var prev := Weld(obj, m);
    if prev.None? then None else WeldFace(prev.value, obj, m)
  }

  /** One step of `Weld`: the welded mesh after a face extends the one before it. */
  lemma WeldStep(obj: OBJMesh, p: nat, prev: Welded, w: Welded)
    requires ValidObj(obj) && p < |obj.faces|
    requires WellIndexed(prev) && |prev.positions| < MaxVertices
    requires WeldFace(prev, obj, p) == Some(w)
    ensures Extends(prev, w)
  {
    WeldFaceExtends(prev, obj, p, 0, Renderer.VertexInd(0, 0, 0));
  }

  /**
   * Welding only appends: when the first `n` faces weld, so do the first
   * `m <= n`, into a prefix of the result.  Read backwards: once a capacity
   * assert stops the program, no later face count gets past it.
   */
  lemma {:induction false} WeldExtends(obj: OBJMesh, m: nat, n: nat)
    requires ValidObj(obj) && m <= n <= |obj.faces|
    ensures Weld(obj, n).Some? ==> Weld(obj, m).Some? && Extends(Weld(obj, m).value, Weld(obj, n).value)
    decreases n - m
  {
    if Weld(obj, n).None? {
    } else if m < n {
      var p: nat := n - 1;
      WeldNext(obj, p);
      WeldStep(obj, p, Weld(obj, p).value, Weld(obj, n).value);
      WeldExtends(obj, m, p);
      ExtendsTransitive(Weld(obj, m).value, Weld(obj, p).value, Weld(obj, n).value);
    } else {
      var w := Weld(obj, n).value;
      assert Extends(w, w);
    }
  }

  /** Closeness to a vertex survives appending. */
  lemma CloseToExtends(w: Welded, w': Welded, j: int, c: Corner)
    requires WellIndexed(w) && WellIndexed(w') && Extends(w, w') && 0 <= j < |w.positions|
    requires CloseTo(w, j, c)
    ensures j < |w'.positions| && CloseTo(w', j, c)
  {
    assert w'.positions[j] == w.positions[j];
    assert w'.uvs[j] == w.uvs[j];
    assert w'.normals[j] == w.normals[j];
  }

  /** Every corner of face `i` of `w` indexes a vertex almost equal to the same corner of OBJ face `f`. */
  predicate FaceFaithful(w: Welded, i: int, obj: OBJMesh, f: int)
    requires WellIndexed(w) && 0 <= i < |w.faces| && ValidObj(obj) && 0 <= f < |obj.faces|
  {
    forall k :: 0 <= k < 3 ==> CloseTo(w, Slot(w.faces[i], k), CornerOf(obj, f, k))
  }

  /** The slots of `face` before corner `k` index vertices almost equal to those corners of OBJ face `f`. */
  predicate SlotsFaithful(w: Welded, face: Renderer.VertexInd, k: int, obj: OBJMesh, f: int)
    requires WellIndexed(w) && 0 <= k <= 3 && SlotsBelow(face, k, |w.positions|)
    requires ValidObj(obj) && 0 <= f < |obj.faces|
  {
    forall j :: 0 <= j < k ==> CloseTo(w, Slot(face, j), CornerOf(obj, f, j))
  }

  /**
   * While the vertex count fits an `unsigned short`, the face that welding
   * adds indexes, in every corner, a vertex almost equal to that corner: a
   * reused one that matched, or the one appended for it.
   */
  lemma {:induction false} WeldFaceFaithful(w: Welded, obj: OBJMesh, f: int, k: nat, face: Renderer.VertexInd)
    requires WellIndexed(w) && |w.positions| < MaxVertices && ValidObj(obj) && 0 <= f < |obj.faces|
    requires k <= 3 && SlotsBelow(face, k, |w.positions|) && SlotsFaithful(w, face, k, obj, f)
    requires WeldFaceFrom(w, obj, f, k, face).Some?
    requires |WeldFaceFrom(w, obj, f, k, face).value.positions| <= UShortRange
    ensures FaceFaithful(WeldFaceFrom(w, obj, f, k, face).value, |w.faces|, obj, f)
    decreases 3 - k
  {
    var r := WeldFaceFrom(w, obj, f, k, face).value;
    if k == 3 {
      assert r == AddFace(w, face);
      assert r.faces[|w.faces|] == face;
    } else {
      var c := CornerOf(obj, f, k);
      var (w', i) := WeldCorner(w, k, c).value;
      var face' := WithSlot(face, k, i);
      WeldCornerExtends(w, k, c);
      WeldCornerFaithful(w, k, c);
      forall j | 0 <= j < k
        ensures CloseTo(w', Slot(face', j), CornerOf(obj, f, j))
      {
        CloseToExtends(w, w', Slot(face, j), CornerOf(obj, f, j));
      }
      WeldFaceFaithful(w', obj, f, k + 1, face');
    }
  }

  /** Every face among the first `n` of `w` is faithful to the OBJ face at the same position. */
  predicate FacesFaithful(w: Welded, obj: OBJMesh, n: int)
    requires WellIndexed(w) && ValidObj(obj) && 0 <= n <= |w.faces| && n <= |obj.faces|
  {
    forall f :: 0 <= f < n ==> FaceFaithful(w, f, obj, f)
  }

  /** Faithfulness of earlier faces survives appending a face. */
  lemma FacesFaithfulStep(prev: Welded, w: Welded, obj: OBJMesh, n: int)
    requires WellIndexed(prev) && WellIndexed(w) && ValidObj(obj) && Extends(prev, w)
    requires 0 < n <= |obj.faces| && |prev.faces| == n - 1 && |w.faces| == n
    requires FacesFaithful(prev, obj, n - 1) && FaceFaithful(w, n - 1, obj, n - 1)
    ensures FacesFaithful(w, obj, n)
  {
    forall f, k | 0 <= f < n - 1 && 0 <= k < 3
      ensures CloseTo(w, Slot(w.faces[f], k), CornerOf(obj, f, k))
    {
      assert FaceFaithful(prev, f, obj, f);
      assert w.faces[f] == prev.faces[f];
      CloseToExtends(prev, w, Slot(prev.faces[f], k), CornerOf(obj, f, k));
    }
  }

  /** The induction step of `WeldFaithful`, about face `m`. */
  lemma WeldFaithfulStep(obj: OBJMesh, m: nat, prev: Welded, w: Welded)
    requires ValidObj(obj) && m < |obj.faces|
    requires WellIndexed(prev) && |prev.positions| < MaxVertices && |prev.faces| == m
    requires WeldFace(prev, obj, m) == Some(w) && |w.positions| <= UShortRange
    requires FacesFaithful(prev, obj, m)
    ensures FacesFaithful(w, obj, m + 1)
  {
    var face0 := Renderer.VertexInd(0, 0, 0);
    WeldFaceExtends(prev, obj, m, 0, face0);
    WeldFaceFaithful(prev, obj, m, 0, face0);
    FacesFaithfulStep(prev, w, obj, m + 1);
  }

  /**
   * While the final vertex count fits an `unsigned short`, every corner of
   * every face indexes a vertex almost equal to that corner's position, uv
   * and normal.
   */
  lemma {:induction false} WeldFaithful(obj: OBJMesh, n: nat)
    requires ValidObj(obj) && n <= |obj.faces|
    ensures Weld(obj, n).Some? && |Weld(obj, n).value.positions| <= UShortRange ==>
      FacesFaithful(Weld(obj, n).value, obj, n)
  {
    if n > 0 {
      var m: nat := n - 1;
      WeldNext(obj, m);
      WeldFaithful(obj, m);
      if Weld(obj, n).Some? && |Weld(obj, n).value.positions| <= UShortRange {
        WeldFaithfulStep(obj, m, Weld(obj, m).value, Weld(obj, n).value);
      }
    }
  }

  /**
   * Past 65536 vertices the cast to `unsigned short` wraps: a new vertex
   * appended at index 65536 is indexed 0, the first vertex.
   */
  lemma IndexWraps(w: Welded, k: int, c: Corner)
    requires WellIndexed(w) && 0 <= k < 3 && |w.positions| == UShortRange
    requires FirstMatch(w, k, c, 0).None?
    ensures WeldCorner(w, k, c).Some?
    ensures WeldCorner(w, k, c).value.0.positions[UShortRange] == c.pos
    ensures WeldCorner(w, k, c).value.1 == 0
  {
  }

  /** `Weld` one face further. */
  lemma WeldNext(obj: OBJMesh, f: nat)
    requires ValidObj(obj) && f < |obj.faces|
    ensures Weld(obj, f).None? ==> Weld(obj, f + 1).None?
    ensures Weld(obj, f).Some? ==> Weld(obj, f + 1) == WeldFace(Weld(obj, f).value, obj, f)
  {
  }

  // ---------------------------------------------------------------------
  // Bounding box: specification

  /** One step of the running minimum: each component of `p` below the one of `m` replaces it. */
  function MinStep(m: Vec3, p: Vec3): Vec3
  {
    Vec3(if p.x < m.x then p.x else m.x, if p.y < m.y then p.y else m.y, if p.z < m.z then p.z else m.z)
  }

  /** One step of the running maximum: each component of `p` above the one of `m` replaces it. */
  function MaxStep(m: Vec3, p: Vec3): Vec3
  {
    Vec3(if p.x > m.x then p.x else m.x, if p.y > m.y then p.y else m.y, if p.z > m.z then p.z else m.z)
  }

  /** The minimum corner the bounding-box loop reaches from `start` over `ps`. */
  function BoundsMin(start: Vec3, ps: seq<Vec3>): Vec3
  {
    if |ps| == 0 then start else MinStep(BoundsMin(start, ps[..|ps| - 1]), ps[|ps| - 1])
  }

  /** The maximum corner the bounding-box loop reaches from `start` over `ps`. */
  function BoundsMax(start: Vec3, ps: seq<Vec3>): Vec3
  {
    if |ps| == 0 then start else MaxStep(BoundsMax(start, ps[..|ps| - 1]), ps[|ps| - 1])
  }

  /** One more point takes both corners one step further. */
  lemma BoundsPush(minStart: Vec3, maxStart: Vec3, ps: seq<Vec3>, p: Vec3)
    ensures BoundsMin(minStart, ps + [p]) == MinStep(BoundsMin(minStart, ps), p)
    ensures BoundsMax(maxStart, ps + [p]) == MaxStep(BoundsMax(maxStart, ps), p)
  {
    assert (ps + [p])[..|ps|] == ps;
  }

  /**
   * The minimum corner bounds every point and the start corner from
   * below, and each of its components is the start's or some point's.
   */
  lemma {:induction false} BoundsMinEncloses(start: Vec3, ps: seq<Vec3>)
    ensures var lo := BoundsMin(start, ps);
      && lo.x <= start.x && lo.y <= start.y && lo.z <= start.z
      && (forall i :: 0 <= i < |ps| ==> lo.x <= ps[i].x && lo.y <= ps[i].y && lo.z <= ps[i].z)
      && (lo.x == start.x || exists i :: 0 <= i < |ps| && lo.x == ps[i].x)
      && (lo.y == start.y || exists i :: 0 <= i < |ps| && lo.y == ps[i].y)
      && (lo.z == start.z || exists i :: 0 <= i < |ps| && lo.z == ps[i].z)
    decreases |ps|
  {
    if |ps| > 0 {
      var init := ps[..|ps| - 1];
      BoundsMinEncloses(start, init);
      assert forall i :: 0 <= i < |init| ==> init[i] == ps[i];
    }
  }

  /**
   * The maximum corner bounds every point and the start corner from
   * above, and each of its components is the start's or some point's.
   */
  lemma {:induction false} BoundsMaxEncloses(start: Vec3, ps: seq<Vec3>)
    ensures var hi := BoundsMax(start, ps);
      && hi.x >= start.x && hi.y >= start.y && hi.z >= start.z
      && (forall i :: 0 <= i < |ps| ==> hi.x >= ps[i].x && hi.y >= ps[i].y && hi.z >= ps[i].z)
      && (hi.x == start.x || exists i :: 0 <= i < |ps| && hi.x == ps[i].x)
      && (hi.y == start.y || exists i :: 0 <= i < |ps| && hi.y == ps[i].y)
      && (hi.z == start.z || exists i :: 0 <= i < |ps| && hi.z == ps[i].z)
    decreases |ps|
  {
    if |ps| > 0 {
      var init := ps[..|ps| - 1];
      BoundsMaxEncloses(start, init);
      assert forall i :: 0 <= i < |init| ==> init[i] == ps[i];
    }
  }

  // ---------------------------------------------------------------------
  // createFinalGeometry

  /** The mesh's arrays have the capacities the source allocates, and the two `Vec3` arrays are distinct. */
  predicate Allocated(mesh: Renderer.Mesh)
    reads mesh
  {
    mesh.positions.Length == MaxVertices && mesh.uvs.Length == MaxVertices &&
    mesh.normals.Length == MaxVertices && mesh.faces.Length == MaxFaces &&
    mesh.positions != mesh.normals
  }

  /** The filled part of the mesh's arrays is the welded mesh `w`. */
  predicate Holds(mesh: Renderer.Mesh, w: Welded)
    reads mesh, mesh.positions, mesh.uvs, mesh.normals, mesh.faces
  {
    mesh.vertexCount <= mesh.positions.Length && mesh.vertexCount <= mesh.uvs.Length &&
    mesh.vertexCount <= mesh.normals.Length && mesh.faceCount <= mesh.faces.Length &&
    mesh.positions[..mesh.vertexCount] == w.positions && mesh.uvs[..mesh.vertexCount] == w.uvs &&
    mesh.normals[..mesh.vertexCount] == w.normals && mesh.faces[..mesh.faceCount] == w.faces
  }

  /** The search loop of one corner: the first face so far whose slot `k` matches `c`. */
  method FindVertex(mesh: Renderer.Mesh, k: int, c: Corner, ghost w: Welded) returns (found: bool, index: Renderer.UShort)
    requires Holds(mesh, w) && WellIndexed(w) && 0 <= k < 3
    ensures found <==> FirstMatch(w, k, c, 0).Some?
    ensures found ==> index == Slot(w.faces[FirstMatch(w, k, c, 0).value], k)
  {
    found, index := false, 0;
    var i := 0;
    while i < mesh.faceCount
      invariant 0 <= i <= mesh.faceCount
      invariant FirstMatch(w, k, c, i) == FirstMatch(w, k, c, 0)
    {
      assert mesh.faces[i] == w.faces[i];
      var j := Slot(mesh.faces[i], k);
      assert FaceInRange(w.faces[i], |w.positions|);
      assert mesh.positions[j] == w.positions[j] && mesh.uvs[j] == w.uvs[j] && mesh.normals[j] == w.normals[j];
      if AlmostEqualsVec(c.pos, mesh.positions[j]) && AlmostEqualsUV(c.uv, mesh.uvs[j]) &&
         AlmostEqualsVec(c.norm, mesh.normals[j])
      {
        found, index := true, j;
        break;
      }
      i := i + 1;
    }
  }

  /**
   * One corner of `createFinalGeometry`: reuse a matching vertex, or
   * append the corner as a new vertex.  `ok` is false where the source's
   * vertex-capacity assert would stop the program.
   */
  method WeldVertex(mesh: Renderer.Mesh, k: int, c: Corner, ghost w: Welded) returns (ok: bool, index: Renderer.UShort)
    requires Allocated(mesh) && Holds(mesh, w) && WellIndexed(w) && |w.positions| < MaxVertices && 0 <= k < 3
    modifies mesh, mesh.positions, mesh.uvs, mesh.normals
    ensures mesh.positions == old(mesh.positions) && mesh.uvs == old(mesh.uvs)
    ensures mesh.normals == old(mesh.normals) && mesh.faces == old(mesh.faces)
    ensures mesh.faceCount == old(mesh.faceCount)
    ensures mesh.aabbMin == old(mesh.aabbMin) && mesh.aabbMax == old(mesh.aabbMax)
    ensures ok <==> WeldCorner(w, k, c).Some?
    ensures ok ==> Holds(mesh, WeldCorner(w, k, c).value.0) && index == WeldCorner(w, k, c).value.1
  {
    var found;
    found, index := FindVertex(mesh, k, c, w);
    WeldCornerCases(w, k, c);
    ok := true;
    if !found {
      StoreVertex(mesh, c, w);
      if !(mesh.vertexCount < MaxVertices) {
        ok := false;
        return;
      }
      index := (mesh.vertexCount - 1) % UShortRange;
    }
  }

  /** Store corner `c` after the vertices so far and count it. */
  method StoreVertex(mesh: Renderer.Mesh, c: Corner, ghost w: Welded)
    requires Allocated(mesh) && Holds(mesh, w) && WellIndexed(w) && |w.positions| < MaxVertices
    modifies mesh, mesh.positions, mesh.uvs, mesh.normals
    ensures mesh.positions == old(mesh.positions) && mesh.uvs == old(mesh.uvs)
    ensures mesh.normals == old(mesh.normals) && mesh.faces == old(mesh.faces)
    ensures mesh.faceCount == old(mesh.faceCount)
    ensures mesh.aabbMin == old(mesh.aabbMin) && mesh.aabbMax == old(mesh.aabbMax)
    ensures mesh.vertexCount == |w.positions| + 1 && Holds(mesh, Append(w, c))
  {
    var n := mesh.vertexCount;
    mesh.positions[n] := c.pos;
    mesh.uvs[n] := c.uv;
    mesh.normals[n] := c.norm;
    mesh.vertexCount := n + 1;
    assert mesh.positions[..n + 1] == w.positions + [c.pos];
    assert mesh.uvs[..n + 1] == w.uvs + [c.uv];
    assert mesh.normals[..n + 1] == w.normals + [c.norm];
  }

  /**
   * One face of `createFinalGeometry`: weld corners a, b and c, then store
   * the face.  `ok` is false where one of the source's capacity asserts
   * would stop the program.
   */
  method WeldFaceInto(mesh: Renderer.Mesh, obj: OBJMesh, f: int, ghost w: Welded) returns (ok: bool)
    requires ValidObj(obj) && 0 <= f < |obj.faces|
    requires Allocated(mesh) && Weld(obj, f) == Some(w) && Holds(mesh, w)
    modifies mesh, mesh.positions, mesh.uvs, mesh.normals, mesh.faces
    ensures mesh.positions == old(mesh.positions) && mesh.uvs == old(mesh.uvs)
    ensures mesh.normals == old(mesh.normals) && mesh.faces == old(mesh.faces)
    ensures mesh.aabbMin == old(mesh.aabbMin) && mesh.aabbMax == old(mesh.aabbMax)
    ensures ok <==> Weld(obj, f + 1).Some?
    ensures ok ==> Holds(mesh, Weld(obj, f + 1).value)
  {
    WeldNext(obj, f);
    var newFace := Renderer.VertexInd(0, 0, 0);
    var index;
    ghost var face0 := newFace;
    ok, index := WeldVertex(mesh, 0, CornerOf(obj, f, 0), w);
    assert WeldFace(w, obj, f) == WeldFaceFrom(w, obj, f, 0, face0);
    if !ok {
      return;
    }
    newFace := newFace.(a := index);
    ghost var wa := WeldCorner(w, 0, CornerOf(obj, f, 0)).value.0;
    ghost var face1 := newFace;
    assert WeldFaceFrom(w, obj, f, 0, face0) == WeldFaceFrom(wa, obj, f, 1, face1);
    ok, index := WeldVertex(mesh, 1, CornerOf(obj, f, 1), wa);
    if !ok {
      assert WeldFaceFrom(wa, obj, f, 1, face1).None?;
      return;
    }
    newFace := newFace.(b := index);
    ghost var wb := WeldCorner(wa, 1, CornerOf(obj, f, 1)).value.0;
    ghost var face2 := newFace;
    assert WeldFaceFrom(wa, obj, f, 1, face1) == WeldFaceFrom(wb, obj, f, 2, face2);
    ok, index := WeldVertex(mesh, 2, CornerOf(obj, f, 2), wb);
    if !ok {
      assert WeldFaceFrom(wb, obj, f, 2, face2).None?;
      return;
    }
    newFace := newFace.(c := index);
    ghost var wc := WeldCorner(wb, 2, CornerOf(obj, f, 2)).value.0;
    assert WeldFaceFrom(wb, obj, f, 2, face2) == WeldFaceFrom(wc, obj, f, 3, newFace);
    assert WeldFaceFrom(wc, obj, f, 3, newFace) == if |wc.faces| + 1 < MaxFaces then Some(AddFace(wc, newFace)) else None;
    StoreFace(mesh, newFace, wc);
    ok := mesh.faceCount < MaxFaces;
  }

  /** Store `face` after the faces so far and count it. */
  method StoreFace(mesh: Renderer.Mesh, face: Renderer.VertexInd, ghost w: Welded)
    requires Allocated(mesh) && Holds(mesh, w) && |w.faces| < MaxFaces
    modifies mesh, mesh.faces
    ensures mesh.positions == old(mesh.positions) && mesh.uvs == old(mesh.uvs)
    ensures mesh.normals == old(mesh.normals) && mesh.faces == old(mesh.faces)
    ensures mesh.aabbMin == old(mesh.aabbMin) && mesh.aabbMax == old(mesh.aabbMax)
    ensures mesh.faceCount == old(mesh.faceCount) + 1 && Holds(mesh, AddFace(w, face))
  {
    var n := mesh.faceCount;
    mesh.faces[n] := face;
    assert mesh.faces[..n + 1] == w.faces + [face];
    mesh.faceCount := n + 1;
  }

  /**
   * The bounding-box loop at the end of `createFinalGeometry`: the corners
   * are grown component by component over the vertices, here in locals
   * that are stored back once the loop ends.
   */
  method ComputeBounds(mesh: Renderer.Mesh, ghost w: Welded)
    requires mesh.vertexCount <= mesh.positions.Length && Holds(mesh, w)
    modifies mesh
    ensures Holds(mesh, w)
    ensures mesh.positions == old(mesh.positions) && mesh.uvs == old(mesh.uvs)
    ensures mesh.normals == old(mesh.normals) && mesh.faces == old(mesh.faces)
    ensures mesh.vertexCount == old(mesh.vertexCount) && mesh.faceCount == old(mesh.faceCount)
    ensures mesh.aabbMin == BoundsMin(old(mesh.aabbMin), mesh.positions[..mesh.vertexCount])
    ensures mesh.aabbMax == BoundsMax(old(mesh.aabbMax), mesh.positions[..mesh.vertexCount])
  {
    ghost var ps := mesh.positions[..mesh.vertexCount];
    var lo, hi := mesh.aabbMin, mesh.aabbMax;
    var i := 0;
    while i < mesh.vertexCount
      invariant 0 <= i <= mesh.vertexCount
      invariant lo == BoundsMin(mesh.aabbMin, ps[..i]) && hi == BoundsMax(mesh.aabbMax, ps[..i])
      modifies {}
    {
      var p := mesh.positions[i];
      assert p == ps[i];
      ghost var lo0, hi0 := lo, hi;
      if p.x < lo.x {
        lo := lo.(x := p.x);
      }
      if p.y < lo.y {
        lo := lo.(y := p.y);
      }
      if p.z < lo.z {
        lo := lo.(z := p.z);
      }
      if p.x > hi.x {
        hi := hi.(x := p.x);
      }
      if p.y > hi.y {
        hi := hi.(y := p.y);
      }
      if p.z > hi.z {
        hi := hi.(z := p.z);
      }
      assert lo == MinStep(lo0, p) && hi == MaxStep(hi0, p);
      assert ps[..i + 1] == ps[..i] + [p];
      BoundsPush(mesh.aabbMin, mesh.aabbMax, ps[..i], p);
      i := i + 1;
    }
    assert ps[..i] == ps;
    mesh.aabbMin, mesh.aabbMax := lo, hi;
  }

  /**
   * The face loop of `createFinalGeometry`, from empty arrays: weld the
   * faces in order.  `ok` is false exactly where one of the source's
   * capacity asserts would stop the program; otherwise the arrays hold
   * `Weld` of all faces.
   */
  method WeldFaces(obj: OBJMesh, mesh: Renderer.Mesh) returns (ok: bool)
    requires ValidObj(obj) && Allocated(mesh) && mesh.vertexCount == 0 && mesh.faceCount == 0
    modifies mesh, mesh.positions, mesh.uvs, mesh.normals, mesh.faces
    ensures mesh.positions == old(mesh.positions) && mesh.uvs == old(mesh.uvs)
    ensures mesh.normals == old(mesh.normals) && mesh.faces == old(mesh.faces)
    ensures mesh.aabbMin == old(mesh.aabbMin) && mesh.aabbMax == old(mesh.aabbMax)
    ensures ok <==> Weld(obj, |obj.faces|).Some?
    ensures ok ==> mesh.faceCount == |obj.faces| && Holds(mesh, Weld(obj, |obj.faces|).value)
  {
    ghost var w := Welded([], [], [], []);
    assert Weld(obj, 0) == Some(w);
    ok := true;
    var f := 0;
    while f < |obj.faces|
      invariant 0 <= f <= |obj.faces|
      invariant mesh.positions == old(mesh.positions) && mesh.uvs == old(mesh.uvs)
      invariant mesh.normals == old(mesh.normals) && mesh.faces == old(mesh.faces)
      invariant mesh.aabbMin == old(mesh.aabbMin) && mesh.aabbMax == old(mesh.aabbMax)
      invariant Weld(obj, f) == Some(w) && Holds(mesh, w)
    {
      ok := WeldFaceInto(mesh, obj, f, w);
      if !ok {
        WeldExtends(obj, f + 1, |obj.faces|);
        return;
      }
      w := Weld(obj, f + 1).value;
      f := f + 1;
    }
  }

  /**
   * `createFinalGeometry`: allocate the mesh's arrays, weld every face of
   * the OBJ mesh into them, then grow the bounding box over the vertices.
   * `ok` is false exactly where one of the source's capacity asserts would
   * stop the program; otherwise the arrays hold `Weld` of all faces.
   */
  method CreateFinalGeometry(obj: OBJMesh, mesh: Renderer.Mesh) returns (ok: bool)
    requires ValidObj(obj)
    modifies mesh
    ensures ok <==> Weld(obj, |obj.faces|).Some?
    ensures ok ==> Allocated(mesh) && mesh.faceCount == |obj.faces| && Holds(mesh, Weld(obj, |obj.faces|).value)
    ensures ok ==> mesh.aabbMin == BoundsMin(old(mesh.aabbMin), mesh.positions[..mesh.vertexCount])
    ensures ok ==> mesh.aabbMax == BoundsMax(old(mesh.aabbMax), mesh.positions[..mesh.vertexCount])
  {
    mesh.positions := new Vec3[MaxVertices](_ => Zero);
    mesh.uvs := new Renderer.UV[MaxVertices](_ => Renderer.UV(0.0, 0.0));
    mesh.normals := new Vec3[MaxVertices](_ => Zero);
    mesh.faces := new Renderer.VertexInd[MaxFaces](_ => Renderer.VertexInd(0, 0, 0));
    mesh.faceCount := 0;
    mesh.vertexCount := 0;
    ghost var lo, hi := mesh.aabbMin, mesh.aabbMax;
    assert lo == old(mesh.aabbMin) && hi == old(mesh.aabbMax);
    ok := WeldFaces(obj, mesh);
    if ok {
      assert mesh.aabbMin == lo && mesh.aabbMax == hi;
      ComputeBounds(mesh, Weld(obj, |obj.faces|).value);
    }
  }
}
