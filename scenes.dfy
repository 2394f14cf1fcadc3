/** Scenes, lights and loaded models as the two pipelines read them
    (Core/scene.h, Core/model.h), and the triangle and transform conventions
    both pipelines share. */
module Scenes {
  import opened LinAlg
  import opened Meshes

  datatype DirectionLight = DirectionLight(direction: Vec3, intensity: Vec3)

  /** A loaded model as a scene holds it. */
  datatype Model = Model(
    texturesLoaded: seq<Texture>, meshes: seq<Mesh>, directory: string,
    scale: Vec3, translate: Vec3)

  datatype Scene = Scene(models: seq<Model>, lights: seq<DirectionLight>, skyColor: Vec3)

  const DefaultSkyColor: Vec3 := Vec3(0.6, 0.7, 0.8)

  /** Every index of a mesh names one of its vertices, as the pipelines
      assume when they look vertices up. */
  predicate MeshIndexed(m: Mesh) {
    forall k :: 0 <= k < |m.indices| ==> m.indices[k] < |m.vertices|
  }

  predicate SceneIndexed(s: Scene) {
    forall i, j :: 0 <= i < |s.models| && 0 <= j < |s.models[i].meshes| ==> MeshIndexed(s.models[i].meshes[j])
  }

  /** What both pipelines need of a scene: indices name vertices and every
      map of a material can be sampled. */
  predicate MeshReady(m: Mesh) {
    MeshIndexed(m) && MapsSampleable(m.mat)
  }

  predicate ModelReady(m: Model) {
    forall j :: 0 <= j < |m.meshes| ==> MeshReady(m.meshes[j])
  }

  predicate SceneReady(s: Scene) {
    forall k :: 0 <= k < |s.models| ==> ModelReady(s.models[k])
  }
  lemma ReadyMesh(s: Scene, k: nat, j: nat)
    requires SceneReady(s) && k < |s.models| && j < |s.models[k].meshes|
    ensures MeshReady(s.models[k].meshes[j])
  {
  }


  /** The starts i = 0, 3, 6, ... of the triangles a loop `for (i = 0; i + 2 < n;
      i += 3)` visits, beginning at `from`. */
  function TriangleStartsFrom(from: nat, n: nat): seq<nat>
    decreases n - from
  {
    if from + 2 < n then [from] + TriangleStartsFrom(from + 3, n) else []
  }

  /** Only whole triples are drawn: there are n / 3 of them, the k-th starts at
      3k, and a trailing partial triple is ignored. */
  lemma {:induction false} TriangleStarts(from: nat, n: nat)
    requires from % 3 == 0
    ensures |TriangleStartsFrom(from, n)| == if from + 2 < n then n / 3 - from / 3 else 0
    ensures forall k :: 0 <= k < |TriangleStartsFrom(from, n)| ==>
      TriangleStartsFrom(from, n)[k] == from + 3 * k && TriangleStartsFrom(from, n)[k] + 2 < n
    decreases n - from
  {
    if from + 2 < n {
      TriangleStarts(from + 3, n);
    }
  }

  /** `glm::scale(m, v)`: scales the first three columns. */
  function GlmScale(m: Mat4, v: Vec3): Mat4 {
    Mat4(Scale4(v.x, m.c0), Scale4(v.y, m.c1), Scale4(v.z, m.c2), m.c3)
  }

  /** `glm::translate(m, v)`: replaces the last column by m * (v, 1). */
  function GlmTranslate(m: Mat4, v: Vec3): Mat4 {
    Mat4(m.c0, m.c1, m.c2, MulMV(m, Point(v, 1.0)))
  }

  /** The model matrix both pipelines build: scale first, then translate,
      i.e. the product S * T. */
  function ModelTransform(scale: Vec3, translate: Vec3): Mat4 {
    GlmTranslate(GlmScale(Identity, scale), translate)
  }

  /** S * T translates first: a point p lands on scale * (p + translate), which
      is not where `Utils::calcScaleTranslateMat4` puts it. */
  lemma ModelTransformMaps(scale: Vec3, translate: Vec3, p: Vec3)
    ensures MulMV(ModelTransform(scale, translate), Point(p, 1.0)) == Point(Mul3(scale, Add3(p, translate)), 1.0)
  {
  }
}
