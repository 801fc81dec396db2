/**
 * The compiled-in teapot: a vertex table and a table of triangles that refer
 * to vertices by index. The whole model is a constant; its promise to the
 * renderer is that every face index names an existing vertex.
 */
module TeapotModel {
  import opened LinAlg

  /** Capacity of the static vertex array. */
  const MAX_VERTICES: int := 256
  /** Capacity of the static face array. */
  const MAX_FACES: int := 100

  /** A triangle given by three indices into the vertex table. */
  datatype Face = Face(v1: int, v2: int, v3: int)

  datatype Mesh = Mesh(vertices: seq<Vec3>, faces: seq<Face>)

  /** Every index of f names one of the n vertices. */
  predicate ValidFace(f: Face, n: int) {
    0 <= f.v1 < n && 0 <= f.v2 < n && 0 <= f.v3 < n
  }

  /** The mesh fits the static arrays and all of its faces index existing vertices. */
  predicate ValidMesh(m: Mesh) {
    && |m.vertices| <= MAX_VERTICES
    && |m.faces| <= MAX_FACES
    && forall i :: 0 <= i < |m.faces| ==> ValidFace(m.faces[i], |m.vertices|)
  }

  /** A box body with a spout, a handle, a lid and a knob on the lid. */
  function InitTeapotModel(): (m: Mesh)
    ensures |m.vertices| == 32 && |m.faces| == 36
    ensures ValidMesh(m)
  {
    Mesh(TeapotVertices(), TeapotFaces())
  }

  function TeapotVertices(): seq<Vec3> {
    [
      // body
      Vec3(-1.0, 0.0, -1.0),
      Vec3(1.0, 0.0, -1.0),
      Vec3(1.0, 0.0, 1.0),
      Vec3(-1.0, 0.0, 1.0),
      Vec3(-1.0, 1.0, -1.0),
      Vec3(1.0, 1.0, -1.0),
      Vec3(1.0, 1.0, 1.0),
      Vec3(-1.0, 1.0, 1.0),
      // spout
      Vec3(1.0, 0.5, 0.0),
      Vec3(2.0, 0.5, 0.0),
      Vec3(2.0, 0.8, 0.0),
      Vec3(1.0, 0.8, 0.0),
      // handle
      Vec3(-1.0, 0.5, 0.0),
      Vec3(-2.0, 0.5, 0.0),
      Vec3(-2.0, 0.8, 0.0),
      Vec3(-1.0, 0.8, 0.0),
      // lid
      Vec3(-0.5, 1.0, -0.5),
      Vec3(0.5, 1.0, -0.5),
      Vec3(0.5, 1.0, 0.5),
      Vec3(-0.5, 1.0, 0.5),
      Vec3(-0.5, 1.3, -0.5),
      Vec3(0.5, 1.3, -0.5),
      Vec3(0.5, 1.3, 0.5),
      Vec3(-0.5, 1.3, 0.5),
      // lid knob
      Vec3(-0.1, 1.3, -0.1),
      Vec3(0.1, 1.3, -0.1),
      Vec3(0.1, 1.3, 0.1),
      Vec3(-0.1, 1.3, 0.1),
      Vec3(-0.1, 1.6, -0.1),
      Vec3(0.1, 1.6, -0.1),
      Vec3(0.1, 1.6, 0.1),
      Vec3(-0.1, 1.6, 0.1)
    ]
  }

  function TeapotFaces(): seq<Face> {
    [
      // body bottom
      Face(0, 1, 2),
      Face(0, 2, 3),
      // body sides
      Face(0, 4, 1),
      Face(1, 4, 5),
      Face(1, 5, 2),
      Face(2, 5, 6),
      Face(2, 6, 3),
      Face(3, 6, 7),
      Face(3, 7, 0),
      Face(0, 7, 4),
      // body top
      Face(4, 7, 5),
      Face(5, 7, 6),
      // spout
      Face(8, 9, 10),
      Face(8, 10, 11),
      // handle
      Face(12, 13, 14),
      Face(12, 14, 15),
      // lid sides
      Face(16, 20, 17),
      Face(17, 20, 21),
      Face(17, 21, 18),
      Face(18, 21, 22),
      Face(18, 22, 19),
      Face(19, 22, 23),
      Face(19, 23, 16),
      Face(16, 23, 20),
      // lid top
      Face(20, 23, 21),
      Face(21, 23, 22),
      // knob sides
      Face(24, 28, 25),
      Face(25, 28, 29),
      Face(25, 29, 26),
      Face(26, 29, 30),
      Face(26, 30, 27),
      Face(27, 30, 31),
      Face(27, 31, 24),
      Face(24, 31, 28),
      // knob top
      Face(28, 31, 29),
      Face(29, 31, 30)
    ]
  }

  /** No face of the teapot repeats a vertex index. */
  lemma TeapotFacesHaveDistinctCorners()
    ensures forall i :: 0 <= i < |TeapotFaces()| ==>
      TeapotFaces()[i].v1 != TeapotFaces()[i].v2 &&
      TeapotFaces()[i].v2 != TeapotFaces()[i].v3 &&
      TeapotFaces()[i].v3 != TeapotFaces()[i].v1
  {
  }
}
