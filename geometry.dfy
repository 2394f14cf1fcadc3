/** The ray record and the cube fixture (Core/geometry.h). */
module Geometry {
  import opened LinAlg

  datatype Ray = Ray(origin: Vec3, direction: Vec3)

  datatype Cube = Cube(vertices: seq<Vec3>, indices: seq<nat>)

  /** The default-constructed cube: eight corners at +-0.1 and twelve triangles. */
  function NewCube(): Cube {
    Cube(
      [ Vec3(-0.1, 0.1, 0.1), Vec3(-0.1, -0.1, 0.1), Vec3(0.1, -0.1, 0.1), Vec3(0.1, 0.1, 0.1),
        Vec3(0.1, -0.1, -0.1), Vec3(0.1, 0.1, -0.1), Vec3(-0.1, -0.1, -0.1), Vec3(-0.1, 0.1, -0.1) ],
      [ 0, 1, 3,  1, 2, 3,  2, 5, 3,  2, 4, 5,  4, 7, 5,  4, 6, 7,
        0, 7, 6,  0, 6, 1,  0, 3, 5,  0, 5, 7,  1, 4, 2,  1, 6, 4 ])
  }

  predicate IsCorner(v: Vec3) {
    (v.x == 0.1 || v.x == -0.1) && (v.y == 0.1 || v.y == -0.1) && (v.z == 0.1 || v.z == -0.1)
  }

  /** Eight pairwise distinct corners with every coordinate +-0.1, i.e. all
      eight corners of the cube. */
  lemma CubeVertices()
    ensures |NewCube().vertices| == 8
    ensures forall i :: 0 <= i < 8 ==> IsCorner(NewCube().vertices[i])
    ensures forall i, j :: 0 <= i < j < 8 ==> NewCube().vertices[i] != NewCube().vertices[j]
  {
  }

  /** Twelve whole triangles, each index naming an existing vertex. */
  lemma CubeIndices()
    ensures |NewCube().indices| == 36 && |NewCube().indices| % 3 == 0
    ensures forall k :: 0 <= k < |NewCube().indices| ==> NewCube().indices[k] < |NewCube().vertices|
  {
  }

  /** No vertex is left out of the triangle list. */
  lemma CubeUsesEveryVertex()
    ensures forall v: nat :: v < |NewCube().vertices| ==> v in NewCube().indices
  {
    var ix := NewCube().indices;
    forall v: nat | v < |NewCube().vertices|
      ensures v in ix
    {
      var k := [0, 1, 6, 2, 10, 7, 16, 13][v];
      assert ix[k] == v;
    }
  }
}
