/**
 * One frame of the wireframe renderer: every vertex is rotated about x, then
 * y, then z, scaled and moved in front of the camera; every face is then
 * dropped when a corner is nearer than the near plane, when it faces away
 * from the camera, or when its projected corners all lie beyond one screen
 * edge. A surviving face contributes its three outline edges, in face order.
 *
 * The host's line drawing is not modelled: a frame is the list of segments
 * handed to it.
 */
module Pipeline {
  import opened LinAlg
  import opened TeapotModel

  const SCREEN_WIDTH: int := 128
  const SCREEN_HEIGHT: int := 64
  const PROJECTION_DISTANCE: real := 110.0
  /** A face with a corner of smaller depth than this is skipped. */
  const NEAR_Z: real := 1.0
  /** The viewing direction used by the back-face test. */
  const CAMERA_DIR: Vec3 := Vec3(0.0, 0.0, -1.0)

  /** The cosine and sine of one rotation angle. */
  datatype Trig = Trig(cos: real, sin: real)

  /** Cosines and sines of the rotation about each axis. */
  datatype Orientation = Orientation(x: Trig, y: Trig, z: Trig)

  datatype Point = Point(x: int, y: int)

  datatype Segment = Segment(from: Point, to: Point)

  predicate IsUnit(t: Trig) {
    t.cos * t.cos + t.sin * t.sin == 1.0
  }

  const NO_ROTATION: Orientation := Orientation(Trig(1.0, 0.0), Trig(1.0, 0.0), Trig(1.0, 0.0))

  /** Conversion of a real to an integer that rounds toward zero, as a C cast does. */
  function Trunc(x: real): (r: int)
    ensures 0.0 <= x ==> 0 <= r && r as real <= x < r as real + 1.0
    ensures x < 0.0 ==> r <= 0 && r as real - 1.0 < x <= r as real
  {
    if x >= 0.0 then x.Floor else -((-x).Floor)
  }

  /** Unlike the floor, truncation is symmetric about zero. */
  lemma TruncIsOdd(x: real)
    ensures Trunc(-x) == -Trunc(x)
  {
  }

  /** Rotates v about x, then y, then z, each through its own freshly built matrix. */
  function Rotate(v: Vec3, o: Orientation): Vec3 {
    var afterX := MultiplyMatrixVector(RotateXMatrix(Identity(), o.x.cos, o.x.sin), v);
    var afterY := MultiplyMatrixVector(RotateYMatrix(Identity(), o.y.cos, o.y.sin), afterX);
    MultiplyMatrixVector(RotateZMatrix(Identity(), o.z.cos, o.z.sin), afterY)
  }

  /** Scales a rotated vertex and moves it to the model position. */
  function Place(u: Vec3, scale: real, position: Vec3): Vec3 {
    Vec3(u.x * scale + position.x, u.y * scale + position.y, u.z * scale + position.z)
  }

  function TransformVertex(v: Vec3, o: Orientation, scale: real, position: Vec3): Vec3 {
    Place(Rotate(v, o), scale, position)
  }

  /** The vertex table after the transform: one entry per model vertex, at the same index. */
  function TransformAll(vs: seq<Vec3>, o: Orientation, scale: real, position: Vec3): (ts: seq<Vec3>)
    ensures |ts| == |vs|
    ensures forall i :: 0 <= i < |vs| ==> ts[i] == TransformVertex(vs[i], o, scale, position)
  {
    seq(|vs|, i requires 0 <= i < |vs| => TransformVertex(vs[i], o, scale, position))
  }

  /** With genuine rotations, the three axis rotations together keep the squared length. */
  lemma RotatePreservesLength(v: Vec3, o: Orientation)
    requires IsUnit(o.x) && IsUnit(o.y) && IsUnit(o.z)
    ensures NormSq(Rotate(v, o)) == NormSq(v)
  {
    var afterX := MultiplyMatrixVector(RotateXMatrix(Identity(), o.x.cos, o.x.sin), v);
    var afterY := MultiplyMatrixVector(RotateYMatrix(Identity(), o.y.cos, o.y.sin), afterX);
    RotateXPreservesLength(v, o.x.cos, o.x.sin);
    RotateYPreservesLength(afterX, o.y.cos, o.y.sin);
    RotateZPreservesLength(afterY, o.z.cos, o.z.sin);
  }

  /** Placing a vertex scales its distance from the position by |scale|. */
  lemma PlaceScalesLength(u: Vec3, scale: real, position: Vec3)
    ensures NormSq(Subtract(Place(u, scale, position), position)) == scale * scale * NormSq(u)
  {
    var d := Subtract(Place(u, scale, position), position);
    assert d == Vec3(u.x * scale, u.y * scale, u.z * scale);
    calc {
      NormSq(d);
      (u.x * scale) * (u.x * scale) + (u.y * scale) * (u.y * scale) + (u.z * scale) * (u.z * scale);
      scale * scale * (u.x * u.x + u.y * u.y + u.z * u.z);
    }
  }

  /**
   * With genuine rotations the transform is rigid up to the scale: the
   * vertex ends up at distance |scale| * |v| from the position.
   */
  lemma TransformIsRigid(v: Vec3, o: Orientation, scale: real, position: Vec3)
    requires IsUnit(o.x) && IsUnit(o.y) && IsUnit(o.z)
    ensures NormSq(Subtract(TransformVertex(v, o, scale, position), position)) == scale * scale * NormSq(v)
  {
    RotatePreservesLength(v, o);
    PlaceScalesLength(Rotate(v, o), scale, position);
  }

  /**
   * The whole transformed table is rigid up to the scale: entry i lies at
   * distance |scale| * |vs[i]| from the position.
   */
  lemma TransformAllIsRigid(vs: seq<Vec3>, o: Orientation, scale: real, position: Vec3)
    requires IsUnit(o.x) && IsUnit(o.y) && IsUnit(o.z)
    ensures forall i :: 0 <= i < |vs| ==>
      NormSq(Subtract(TransformAll(vs, o, scale, position)[i], position)) == scale * scale * NormSq(vs[i])
  {
    forall i | 0 <= i < |vs|
      ensures NormSq(Subtract(TransformAll(vs, o, scale, position)[i], position)) == scale * scale * NormSq(vs[i])
    {
      var t := TransformAll(vs, o, scale, position)[i];
      assert t == TransformVertex(vs[i], o, scale, position);
      RigidAt(t, vs[i], o, scale, position);
    }
  }

  lemma RigidAt(t: Vec3, v: Vec3, o: Orientation, scale: real, position: Vec3)
    requires IsUnit(o.x) && IsUnit(o.y) && IsUnit(o.z)
    requires t == TransformVertex(v, o, scale, position)
    ensures NormSq(Subtract(t, position)) == scale * scale * NormSq(v)
  {
    TransformIsRigid(v, o, scale, position);
  }

  /** Zero angles, unit scale and the origin as position leave every vertex in place. */
  lemma TransformWithoutMotion(v: Vec3)
    ensures TransformVertex(v, NO_ROTATION, 1.0, ZERO) == v
  {
    RotateXProduct(v, 1.0, 0.0);
    RotateYProduct(v, 1.0, 0.0);
    RotateZProduct(v, 1.0, 0.0);
  }

  /**
   * Perspective projection onto the 128x64 screen with the projection centre
   * in the middle of it. There is no vertical flip: a point above the
   * optical axis lands in the lower half of the raster.
   */
  function Project(v: Vec3): (p: Point)
    requires v.z != 0.0
    ensures 0.0 < v.z ==> (0.0 <= v.x ==> p.x >= SCREEN_WIDTH / 2) && (v.x <= 0.0 ==> p.x <= SCREEN_WIDTH / 2)
    ensures 0.0 < v.z ==> (0.0 <= v.y ==> p.y >= SCREEN_HEIGHT / 2) && (v.y <= 0.0 ==> p.y <= SCREEN_HEIGHT / 2)
  {
    Point(Trunc(v.x * PROJECTION_DISTANCE / v.z) + SCREEN_WIDTH / 2,
          Trunc(v.y * PROJECTION_DISTANCE / v.z) + SCREEN_HEIGHT / 2)
  }

  /** The normal of the face wound a, b, c: the cross product of the two edges that leave a. */
  function FaceNormal(a: Vec3, b: Vec3, c: Vec3): Vec3 {
    Cross(Subtract(b, a), Subtract(c, a))
  }

  predicate NearCulled(a: Vec3, b: Vec3, c: Vec3) {
    a.z < NEAR_Z || b.z < NEAR_Z || c.z < NEAR_Z
  }

  predicate FacesCamera(a: Vec3, b: Vec3, c: Vec3) {
    Dot(FaceNormal(a, b, c), CAMERA_DIR) < 0.0
  }

  /** All three corners lie beyond the same edge of the screen. */
  predicate OffScreen(p1: Point, p2: Point, p3: Point) {
    || (p1.x < 0 && p2.x < 0 && p3.x < 0)
    || (p1.x > SCREEN_WIDTH && p2.x > SCREEN_WIDTH && p3.x > SCREEN_WIDTH)
    || (p1.y < 0 && p2.y < 0 && p3.y < 0)
    || (p1.y > SCREEN_HEIGHT && p2.y > SCREEN_HEIGHT && p3.y > SCREEN_HEIGHT)
  }

  function Outline(p1: Point, p2: Point, p3: Point): seq<Segment> {
    [Segment(p1, p2), Segment(p2, p3), Segment(p3, p1)]
  }

  /**
   * The face is drawn: every corner has depth at least 1, its normal points
   * toward +z, and its projection is not wholly beyond one screen edge.
   */
  predicate Drawn(ts: seq<Vec3>, f: Face)
    requires ValidFace(f, |ts|)
  {
    var a, b, c := ts[f.v1], ts[f.v2], ts[f.v3];
    && NEAR_Z <= a.z && NEAR_Z <= b.z && NEAR_Z <= c.z
    && FaceNormal(a, b, c).z > 0.0
    && !OffScreen(Project(a), Project(b), Project(c))
  }

  /** The segments one face contributes to the frame: none, or its three outline edges. */
  function FaceSegments(ts: seq<Vec3>, f: Face): (r: seq<Segment>)
    requires ValidFace(f, |ts|)
    ensures |r| == 0 || |r| == 3
    ensures |r| == 3 <==> Drawn(ts, f)
    ensures |r| == 3 ==> NEAR_Z <= ts[f.v1].z && NEAR_Z <= ts[f.v2].z && NEAR_Z <= ts[f.v3].z
    ensures |r| == 3 ==> r == Outline(Project(ts[f.v1]), Project(ts[f.v2]), Project(ts[f.v3]))
  {
    var a, b, c := ts[f.v1], ts[f.v2], ts[f.v3];
    if NearCulled(a, b, c) then []
    else if !FacesCamera(a, b, c) then []
    else
      var p1, p2, p3 := Project(a), Project(b), Project(c);
      if OffScreen(p1, p2, p3) then [] else Outline(p1, p2, p3)
  }

  /** The k-th triple of segments is a closed triangle outline not wholly off screen. */
  predicate TriangleAt(r: seq<Segment>, k: int) {
    && 0 <= k
    && 3 * k + 2 < |r|
    && r[3 * k].to == r[3 * k + 1].from
    && r[3 * k + 1].to == r[3 * k + 2].from
    && r[3 * k + 2].to == r[3 * k].from
    && !OffScreen(r[3 * k].from, r[3 * k + 1].from, r[3 * k + 2].from)
  }

  /** The number of faces of fs that are drawn. */
  function CountDrawn(ts: seq<Vec3>, fs: seq<Face>): (n: nat)
    requires forall i :: 0 <= i < |fs| ==> ValidFace(fs[i], |ts|)
    ensures n <= |fs|
  {
    if |fs| == 0 then 0 else (if Drawn(ts, fs[0]) then 1 else 0) + CountDrawn(ts, fs[1..])
  }

  /** The segments drawn for faces fs over the transformed vertices ts, in face order. */
  function RenderFaces(ts: seq<Vec3>, fs: seq<Face>): (r: seq<Segment>)
    requires forall i :: 0 <= i < |fs| ==> ValidFace(fs[i], |ts|)
    ensures |r| == 3 * CountDrawn(ts, fs)
    ensures forall k :: 0 <= k < |r| / 3 ==> TriangleAt(r, k)
  {
    if |fs| == 0 then []
    else
      var tail := RenderFaces(ts, fs[1..]);
      RenderFacesStep(ts, fs, tail);
      FaceSegments(ts, fs[0]) + tail
  }

  /** Prefixing the first face's segments to the rendering of the rest keeps the count and the triangles. */
  lemma RenderFacesStep(ts: seq<Vec3>, fs: seq<Face>, tail: seq<Segment>)
    requires |fs| > 0
    requires forall i :: 0 <= i < |fs| ==> ValidFace(fs[i], |ts|)
    requires |tail| == 3 * CountDrawn(ts, fs[1..])
    requires forall k :: 0 <= k < |tail| / 3 ==> TriangleAt(tail, k)
    ensures |FaceSegments(ts, fs[0]) + tail| == 3 * CountDrawn(ts, fs)
    ensures forall k :: 0 <= k < |FaceSegments(ts, fs[0]) + tail| / 3 ==> TriangleAt(FaceSegments(ts, fs[0]) + tail, k)
  {
    FaceSegmentsShape(ts, fs[0]);
    TrianglesConcat(FaceSegments(ts, fs[0]), tail);
  }

  /** A face contributes three segments when drawn and none otherwise; three segments close a triangle. */
  lemma FaceSegmentsShape(ts: seq<Vec3>, f: Face)
    requires ValidFace(f, |ts|)
    ensures |FaceSegments(ts, f)| == if Drawn(ts, f) then 3 else 0
    ensures |FaceSegments(ts, f)| == 0 || (|FaceSegments(ts, f)| == 3 && TriangleAt(FaceSegments(ts, f), 0))
  {
    var r := FaceSegments(ts, f);
    if |r| == 3 {
      var p1, p2, p3 := Project(ts[f.v1]), Project(ts[f.v2]), Project(ts[f.v3]);
      assert r == Outline(p1, p2, p3);
      assert !OffScreen(p1, p2, p3);
    }
  }

  /** Prefixing a face's outline keeps every triple of the list a triangle. */
  lemma TrianglesConcat(head: seq<Segment>, tail: seq<Segment>)
    requires |head| == 0 || (|head| == 3 && TriangleAt(head, 0))
    requires |tail| % 3 == 0
    requires forall k :: 0 <= k < |tail| / 3 ==> TriangleAt(tail, k)
    ensures forall k :: 0 <= k < |head + tail| / 3 ==> TriangleAt(head + tail, k)
  {
    var r := head + tail;
    forall k | 0 <= k < |r| / 3
      ensures TriangleAt(r, k)
    {
      if |head| == 3 && k == 0 {
        assert r[0] == head[0] && r[1] == head[1] && r[2] == head[2];
      } else {
        var k' := k - |head| / 3;
        assert TriangleAt(tail, k');
        assert r[3 * k] == tail[3 * k'];
        assert r[3 * k + 1] == tail[3 * k' + 1];
        assert r[3 * k + 2] == tail[3 * k' + 2];
      }
    }
  }

  /** A frame of the mesh under the given orientation, scale and position. */
  function RenderFrame(mesh: Mesh, o: Orientation, scale: real, position: Vec3): (r: seq<Segment>)
    requires ValidMesh(mesh)
    ensures |r| % 3 == 0 && |r| <= 3 * |mesh.faces|
    ensures forall k :: 0 <= k < |r| / 3 ==> TriangleAt(r, k)
  {
    var ts := TransformAll(mesh.vertices, o, scale, position);
    assert forall i :: 0 <= i < |mesh.faces| ==> ValidFace(mesh.faces[i], |ts|);
    RenderFacesShape(ts, mesh.faces);
    RenderFaces(ts, mesh.faces)
  }

  /** At most three segments per face, in whole triangles. */
  lemma RenderFacesShape(ts: seq<Vec3>, fs: seq<Face>)
    requires forall i :: 0 <= i < |fs| ==> ValidFace(fs[i], |ts|)
    ensures |RenderFaces(ts, fs)| % 3 == 0 && |RenderFaces(ts, fs)| <= 3 * |fs|
  {
    var n := CountDrawn(ts, fs);
    assert |RenderFaces(ts, fs)| == 3 * n && n <= |fs|;
    TripleBound(n, |fs|);
  }

  /** Three segments for each of at most m drawn faces. */
  lemma TripleBound(n: nat, m: nat)
    requires n <= m
    ensures (3 * n) % 3 == 0 && 3 * n <= 3 * m
  {
  }

  /** Rendering a concatenation of face lists concatenates their segments. */
  lemma {:induction false} RenderFacesAppend(ts: seq<Vec3>, fs1: seq<Face>, fs2: seq<Face>)
    requires forall i :: 0 <= i < |fs1| ==> ValidFace(fs1[i], |ts|)
    requires forall i :: 0 <= i < |fs2| ==> ValidFace(fs2[i], |ts|)
    ensures forall i :: 0 <= i < |fs1 + fs2| ==> ValidFace((fs1 + fs2)[i], |ts|)
    ensures RenderFaces(ts, fs1 + fs2) == RenderFaces(ts, fs1) + RenderFaces(ts, fs2)
    decreases |fs1|
  {
    assert forall i :: 0 <= i < |fs1 + fs2| ==> ValidFace((fs1 + fs2)[i], |ts|) by {
      forall i | 0 <= i < |fs1 + fs2|
        ensures ValidFace((fs1 + fs2)[i], |ts|)
      {
        if i < |fs1| {
          assert (fs1 + fs2)[i] == fs1[i];
        } else {
          assert (fs1 + fs2)[i] == fs2[i - |fs1|];
        }
      }
    }
    if |fs1| == 0 {
      assert fs1 + fs2 == fs2;
    } else {
      assert (fs1 + fs2)[1..] == fs1[1..] + fs2;
      RenderFacesAppend(ts, fs1[1..], fs2);
    }
  }

  /** A face with a corner nearer than the near plane contributes nothing. */
  lemma {:induction false} NearFacesNeverDrawn(ts: seq<Vec3>, fs: seq<Face>)
    requires forall i :: 0 <= i < |fs| ==>
      ValidFace(fs[i], |ts|) && NearCulled(ts[fs[i].v1], ts[fs[i].v2], ts[fs[i].v3])
    ensures RenderFaces(ts, fs) == []
    decreases |fs|
  {
    if |fs| > 0 {
      NearFacesNeverDrawn(ts, fs[1..]);
    }
  }

  /** The back-face test keeps exactly the faces whose normal has positive z. */
  lemma FacesCameraIffNormalTowardZ(a: Vec3, b: Vec3, c: Vec3)
    ensures FacesCamera(a, b, c) <==> FaceNormal(a, b, c).z > 0.0
  {
  }

  /** A face with a repeated corner has a zero normal and is never drawn. */
  lemma RepeatedCornerNeverDrawn(ts: seq<Vec3>, f: Face)
    requires ValidFace(f, |ts|)
    requires ts[f.v1] == ts[f.v2] || ts[f.v2] == ts[f.v3] || ts[f.v3] == ts[f.v1]
    ensures FaceNormal(ts[f.v1], ts[f.v2], ts[f.v3]) == ZERO
    ensures FaceSegments(ts, f) == []
  {
    var a, b, c := ts[f.v1], ts[f.v2], ts[f.v3];
    if b == c {
      CrossSelfIsZero(Subtract(b, a));
    } else {
      SubtractAddInverse(a, a);
      CrossSelfIsZero(Subtract(b, a));
      CrossSelfIsZero(Subtract(c, a));
    }
  }

  function Min3(a: int, b: int, c: int): int {
    if a <= b && a <= c then a else if b <= c then b else c
  }

  function Max3(a: int, b: int, c: int): int {
    if a >= b && a >= c then a else if b >= c then b else c
  }

  /**
   * The off-screen test is exactly "the bounding box of the projected corners
   * misses the closed rectangle [0, 128] x [0, 64]"; a corner on the right or
   * bottom edge still counts as on screen.
   */
  lemma OffScreenIffBoxMissesScreen(p1: Point, p2: Point, p3: Point)
    ensures OffScreen(p1, p2, p3) <==>
      || Max3(p1.x, p2.x, p3.x) < 0
      || Min3(p1.x, p2.x, p3.x) > SCREEN_WIDTH
      || Max3(p1.y, p2.y, p3.y) < 0
      || Min3(p1.y, p2.y, p3.y) > SCREEN_HEIGHT
  {
  }

  /** The projection of a point on the optical axis is the screen centre. */
  lemma AxisProjectsToCentre(z: real)
    requires z != 0.0
    ensures Project(Vec3(0.0, 0.0, z)) == Point(SCREEN_WIDTH / 2, SCREEN_HEIGHT / 2)
  {
  }

  /** The teapot can always be rendered: every face read stays inside the vertex table. */
  lemma TeapotFrameIsBounded(o: Orientation, scale: real, position: Vec3)
    ensures ValidMesh(InitTeapotModel())
    ensures |RenderFrame(InitTeapotModel(), o, scale, position)| <= 3 * 36
  {
  }

  /** Without motion the transformed vertices are the model's own. */
  lemma RenderFrameWithoutMotion(mesh: Mesh)
    requires ValidMesh(mesh)
    ensures RenderFrame(mesh, NO_ROTATION, 1.0, ZERO) == RenderFaces(mesh.vertices, mesh.faces)
  {
    var ts := TransformAll(mesh.vertices, NO_ROTATION, 1.0, ZERO);
    forall i | 0 <= i < |ts|
      ensures ts[i] == mesh.vertices[i]
    {
      TransformWithoutMotion(mesh.vertices[i]);
    }
    assert ts == mesh.vertices;
  }

  /** A one-face list renders as that face's segments. */
  lemma RenderSingleFace(ts: seq<Vec3>, f: Face)
    requires ValidFace(f, |ts|)
    ensures RenderFaces(ts, [f]) == FaceSegments(ts, f)
  {
    assert [f][1..] == [];
  }

  /** A right triangle of unit legs at depth 5, wound A, B, C so that its normal points toward +z. */
  const TRIANGLE_AT_5: seq<Vec3> := [Vec3(0.0, 0.0, 5.0), Vec3(1.0, 0.0, 5.0), Vec3(0.0, 1.0, 5.0)]

  /** Where the corners of the depth-5 triangle land on the screen. */
  lemma TriangleAt5Projection()
    ensures Project(Vec3(0.0, 0.0, 5.0)) == Point(64, 32)
    ensures Project(Vec3(1.0, 0.0, 5.0)) == Point(86, 32)
    ensures Project(Vec3(0.0, 1.0, 5.0)) == Point(64, 54)
  {
  }

  // The two lemmas below spell out TRIANGLE_AT_5 as a literal sequence rather than
  // naming the constant: on literals the verifier evaluates the projection and the
  // normal directly, while through the constant the same facts exceed its resource limit.

  /** Wound A, B, C the depth-5 triangle passes every test and contributes its outline. */
  lemma TriangleAt5IsDrawn()
    ensures FaceSegments([Vec3(0.0, 0.0, 5.0), Vec3(1.0, 0.0, 5.0), Vec3(0.0, 1.0, 5.0)], Face(0, 1, 2))
         == Outline(Point(64, 32), Point(86, 32), Point(64, 54))
  {
  }

  /** Wound A, C, B the depth-5 triangle faces away and contributes nothing. */
  lemma TriangleAt5ReversedIsDropped()
    ensures FaceSegments([Vec3(0.0, 0.0, 5.0), Vec3(1.0, 0.0, 5.0), Vec3(0.0, 1.0, 5.0)], Face(0, 2, 1)) == []
  {
  }

  /** A single triangle at depth 5, facing the camera, drawn without any motion. */
  lemma SingleTriangleScenario()
    ensures ValidMesh(Mesh(TRIANGLE_AT_5, [Face(0, 1, 2)]))
    ensures RenderFrame(Mesh(TRIANGLE_AT_5, [Face(0, 1, 2)]), NO_ROTATION, 1.0, ZERO)
         == Outline(Point(64, 32), Point(86, 32), Point(64, 54))
  {
    RenderFrameWithoutMotion(Mesh(TRIANGLE_AT_5, [Face(0, 1, 2)]));
    RenderSingleFace(TRIANGLE_AT_5, Face(0, 1, 2));
    TriangleAt5IsDrawn();
  }

  /** The same triangle with the opposite winding faces away and is dropped. */
  lemma ReversedTriangleScenario()
    ensures ValidMesh(Mesh(TRIANGLE_AT_5, [Face(0, 2, 1)]))
    ensures RenderFrame(Mesh(TRIANGLE_AT_5, [Face(0, 2, 1)]), NO_ROTATION, 1.0, ZERO) == []
  {
    RenderFrameWithoutMotion(Mesh(TRIANGLE_AT_5, [Face(0, 2, 1)]));
    RenderSingleFace(TRIANGLE_AT_5, Face(0, 2, 1));
    TriangleAt5ReversedIsDropped();
  }

  const TRIANGLE_AT_09: seq<Vec3> := [Vec3(0.0, 0.0, 0.9), Vec3(1.0, 0.0, 0.9), Vec3(0.0, 1.0, 0.9)]

  /** The same triangle at depth 0.9 is in front of the near plane and is dropped. */
  lemma NearTriangleScenario()
    ensures ValidMesh(Mesh(TRIANGLE_AT_09, [Face(0, 1, 2)]))
    ensures RenderFrame(Mesh(TRIANGLE_AT_09, [Face(0, 1, 2)]), NO_ROTATION, 1.0, ZERO) == []
  {
    var mesh := Mesh(TRIANGLE_AT_09, [Face(0, 1, 2)]);
    RenderFrameWithoutMotion(mesh);
    NearFacesNeverDrawn(TRIANGLE_AT_09, [Face(0, 1, 2)]);
  }

  /** Transforms every vertex in table order, as the first pass of a frame does. */
  method TransformVertices(vs: seq<Vec3>, o: Orientation, scale: real, position: Vec3) returns (ts: seq<Vec3>)
    ensures ts == TransformAll(vs, o, scale, position)
  {
    ts := [];
    var i := 0;
    while i < |vs|
      invariant 0 <= i <= |vs|
      invariant |ts| == i
      invariant forall k :: 0 <= k < i ==> ts[k] == TransformVertex(vs[k], o, scale, position)
    {
      ts := ts + [TransformVertex(vs[i], o, scale, position)];
      i := i + 1;
    }
  }

  /**
   * Walks the faces in order, skipping a face with a corner in front of the
   * near plane, one facing away, and one whose projection lies beyond a
   * screen edge, and emits the outline of every other face.
   */
  method DrawFaces(ts: seq<Vec3>, fs: seq<Face>) returns (segments: seq<Segment>)
    requires forall i :: 0 <= i < |fs| ==> ValidFace(fs[i], |ts|)
    ensures segments == RenderFaces(ts, fs)
  {
    segments := [];
    var j := 0;
    while j < |fs|
      invariant 0 <= j <= |fs|
      invariant segments == RenderFaces(ts, fs[..j])
    {
      var f := fs[j];
      assert fs[..j + 1] == fs[..j] + [f];
      RenderFacesAppend(ts, fs[..j], [f]);
      RenderSingleFace(ts, f);
      var drawn := DrawFace(ts, f);
      segments := segments + drawn;
      j := j + 1;
    }
    assert fs[..j] == fs;
  }

  /** One pass of the face loop: the near test, the back-face test, the off-screen test, then three edges. */
  method DrawFace(ts: seq<Vec3>, f: Face) returns (segments: seq<Segment>)
    requires ValidFace(f, |ts|)
    ensures segments == FaceSegments(ts, f)
  {
    segments := [];
    var a, b, c := ts[f.v1], ts[f.v2], ts[f.v3];
    if !NearCulled(a, b, c) && FacesCamera(a, b, c) {
      var p1, p2, p3 := Project(a), Project(b), Project(c);
      if !OffScreen(p1, p2, p3) {
        segments := Outline(p1, p2, p3);
      }
    }
  }

  /** A whole frame: transform all vertices, then draw the faces. */
  method RenderFrameLoop(mesh: Mesh, o: Orientation, scale: real, position: Vec3) returns (segments: seq<Segment>)
    requires ValidMesh(mesh)
    ensures segments == RenderFrame(mesh, o, scale, position)
  {
    var transformed := TransformVertices(mesh.vertices, o, scale, position);
    segments := DrawFaces(transformed, mesh.faces);
  }
}
