/** The progressive path tracer (Core/Tracer/tracer.cpp): a ray/triangle
    test by Cramer's rule, a closest-hit search over every triangle of the
    scene, a bounce loop per pixel, and an accumulation buffer averaged over
    frames. The random bounce directions are an input. */
module Tracing {
  import opened LinAlg
  import opened Wrappers
  import opened Meshes
  import opened Scenes
  import opened Geometry
  import RasterShaders
  import Utils
  import Grid
  import Images
  import Cameras

  // ---------------------------------------------------------------------
  // One ray against one triangle

  /** The ray parameter t and the weights of the first two corners. */
  datatype Hit = Hit(t: real, alpha: real, beta: real)

  /** `rayIntersectionWithTriangle`: solves t d + alpha (p2 - p0) +
      beta (p2 - p1) = p2 - origin by Cramer's rule and rejects a singular
      system, t < 0, alpha outside [0, 1] and beta outside [0, 1 - alpha]. */
  function RayTriangle(ray: Ray, p0: Vec3, p1: Vec3, p2: Vec3): Option<Hit> {
    var ca := Sub3(p2, p0);
    var cb := Sub3(p2, p1);
    var co := Sub3(p2, ray.origin);
    var detA := Det3(Mat3(ray.direction, ca, cb));
    if detA == 0.0 then None
    else
      var t := Det3(Mat3(co, ca, cb)) / detA;
      if t < 0.0 then None
      else
        var alpha := Det3(Mat3(ray.direction, co, cb)) / detA;
        if alpha < 0.0 || alpha > 1.0 then None
        else
          var beta := Det3(Mat3(ray.direction, ca, co)) / detA;
          if beta < 0.0 || beta > 1.0 - alpha then None
          else Some(Hit(t, alpha, beta))
  }

  /** A hit is reported exactly when the system is regular and the solution
      lies in front of the origin and inside the triangle; the hit point
      origin + t d is then the point with weights alpha, beta and
      1 - alpha - beta of the corners p0, p1, p2. */
  lemma RayTriangleHit(ray: Ray, p0: Vec3, p1: Vec3, p2: Vec3)
    ensures
      var ca, cb, co := Sub3(p2, p0), Sub3(p2, p1), Sub3(p2, ray.origin);
      var det := Det3(Mat3(ray.direction, ca, cb));
      RayTriangle(ray, p0, p1, p2).Some? <==>
        (det != 0.0 && Det3(Mat3(co, ca, cb)) / det >= 0.0
         && 0.0 <= Det3(Mat3(ray.direction, co, cb)) / det <= 1.0
         && 0.0 <= Det3(Mat3(ray.direction, ca, co)) / det <= 1.0 - Det3(Mat3(ray.direction, co, cb)) / det)
    ensures
      RayTriangle(ray, p0, p1, p2).Some? ==>
        var h := RayTriangle(ray, p0, p1, p2).value;
        && h.t >= 0.0 && 0.0 <= h.alpha && 0.0 <= h.beta && h.alpha + h.beta <= 1.0
        && Add3(ray.origin, Scale3(h.t, ray.direction)) == Utils.LerpVec3(h.alpha, h.beta, p0, p1, p2)
  {
    if RayTriangle(ray, p0, p1, p2).Some? {
      var h := RayTriangle(ray, p0, p1, p2).value;
      var ca, cb, co := Sub3(p2, p0), Sub3(p2, p1), Sub3(p2, ray.origin);
      Cramer(ray.direction, ca, cb, co);
      var td := Scale3(h.t, ray.direction);
      assert Add3(Add3(td, Scale3(h.alpha, ca)), Scale3(h.beta, cb)) == co;
      assert Add3(ray.origin, td) == Utils.LerpVec3(h.alpha, h.beta, p0, p1, p2);
    }
  }

  // ---------------------------------------------------------------------
  // The closest-hit search

  /** Triangle k (its first index position) of mesh `mesh` of model `model`. */
  datatype Candidate = Candidate(model: nat, mesh: nat, k: nat)

  /** The candidate names a complete index triple of an existing mesh. */
  predicate CandidateIn(scene: Scene, c: Candidate) {
    c.model < |scene.models| && c.mesh < |scene.models[c.model].meshes|
    && c.k + 2 < |scene.models[c.model].meshes[c.mesh].indices|
  }

  predicate AllIn(scene: Scene, cs: seq<Candidate>) {
    forall p :: 0 <= p < |cs| ==> CandidateIn(scene, cs[p])
  }

  /** Corner `corner` of a candidate, taken through the model matrix S * T. */
  function WorldCorner(scene: Scene, c: Candidate, corner: nat): Vec3
    requires SceneReady(scene) && CandidateIn(scene, c) && corner < 3
  {
    var model := scene.models[c.model];
    var mesh := model.meshes[c.mesh];
    ReadyMesh(scene, c.model, c.mesh);
    Xyz(MulMV(ModelTransform(model.scale, model.translate), Point(mesh.vertices[mesh.indices[c.k + corner]].position, 1.0)))
  }

  function CandidateHit(ray: Ray, scene: Scene, c: Candidate): Option<Hit>
    requires SceneReady(scene) && CandidateIn(scene, c)
  {
    RayTriangle(ray, WorldCorner(scene, c, 0), WorldCorner(scene, c, 1), WorldCorner(scene, c, 2))
  }

  /** The first `count` triangles of a mesh, in index order. */
  function TrianglesOf(model: nat, mesh: nat, count: nat): (r: seq<Candidate>)
    ensures |r| == count
    ensures forall p :: 0 <= p < count ==> r[p] == Candidate(model, mesh, 3 * p)
  {
    if count == 0 then [] else TrianglesOf(model, mesh, count - 1) + [Candidate(model, mesh, 3 * (count - 1))]
  }

  /** The triangles of the first `j` meshes of model `i`. */
  function MeshesBefore(scene: Scene, i: nat, j: nat): seq<Candidate>
    requires i < |scene.models| && j <= |scene.models[i].meshes|
  {
    if j == 0 then []
    else MeshesBefore(scene, i, j - 1) + TrianglesOf(i, j - 1, |scene.models[i].meshes[j - 1].indices| / 3)
  }

  /** The triangles of the first `i` models. */
  function ModelsBefore(scene: Scene, i: nat): seq<Candidate>
    requires i <= |scene.models|
  {
    if i == 0 then [] else ModelsBefore(scene, i - 1) + MeshesBefore(scene, i - 1, |scene.models[i - 1].meshes|)
  }

  /** Every triangle `traceRay` tests, in the order it tests them. */
  function Candidates(scene: Scene): seq<Candidate> {
    ModelsBefore(scene, |scene.models|)
  }

  lemma TrianglesOfIn(scene: Scene, i: nat, j: nat, count: nat)
    requires i < |scene.models| && j < |scene.models[i].meshes| && count <= |scene.models[i].meshes[j].indices| / 3
    ensures AllIn(scene, TrianglesOf(i, j, count))
  {
  }

  lemma {:induction false} MeshesBeforeIn(scene: Scene, i: nat, j: nat)
    requires i < |scene.models| && j <= |scene.models[i].meshes|
    ensures AllIn(scene, MeshesBefore(scene, i, j))
  {
    if j > 0 {
      MeshesBeforeIn(scene, i, j - 1);
      TrianglesOfIn(scene, i, j - 1, |scene.models[i].meshes[j - 1].indices| / 3);
    }
  }

  lemma {:induction false} ModelsBeforeIn(scene: Scene, i: nat)
    requires i <= |scene.models|
    ensures AllIn(scene, ModelsBefore(scene, i))
  {
    if i > 0 {
      ModelsBeforeIn(scene, i - 1);
      MeshesBeforeIn(scene, i - 1, |scene.models[i - 1].meshes|);
    }
  }

  /** Every complete index triple at a multiple of 3 is tested. */
  lemma {:induction false} CandidatesComplete(scene: Scene, c: Candidate)
    requires CandidateIn(scene, c) && c.k % 3 == 0
    ensures c in Candidates(scene)
  {
    var n := |scene.models[c.model].meshes[c.mesh].indices|;
    var tris := TrianglesOf(c.model, c.mesh, n / 3);
    assert tris[c.k / 3] == c;
    InMeshesBefore(scene, c.model, c.mesh, |scene.models[c.model].meshes|, c);
    InModelsBefore(scene, c.model, |scene.models|, c);
  }

  lemma {:induction false} InMeshesBefore(scene: Scene, i: nat, m: nat, j: nat, c: Candidate)
    requires i < |scene.models| && m < j <= |scene.models[i].meshes|
    requires c in TrianglesOf(i, m, |scene.models[i].meshes[m].indices| / 3)
    ensures c in MeshesBefore(scene, i, j)
  {
    if j - 1 != m {
      InMeshesBefore(scene, i, m, j - 1, c);
    }
  }

  lemma {:induction false} InModelsBefore(scene: Scene, m: nat, i: nat, c: Candidate)
    requires m < i <= |scene.models|
    requires c in MeshesBefore(scene, m, |scene.models[m].meshes|)
    ensures c in ModelsBefore(scene, i)
  {
    if i - 1 != m {
      InModelsBefore(scene, m, i - 1, c);
    }
  }

  /** The running state of `traceRay`: the nearest distance so far, the
      model, mesh and first index position of the triangle it belongs to
      (-1 while none), and its weights. */
  datatype Nearest = Nearest(hitDistance: real, modelIndex: int, meshIndex: int, k: int, alpha: real, beta: real)

  const NoHit: Nearest := Nearest(FloatMax, -1, -1, -1, 0.0, 0.0)

  /** One step of the search, given the candidate's test result: a hit that
      is not farther replaces the nearest so far, so among equal distances
      the later triangle wins. */
  function Consider(acc: Nearest, c: Candidate, hit: Option<Hit>): Nearest {
    match hit
    case None => acc
    case Some(h) => if h.t > acc.hitDistance then acc else Nearest(h.t, c.model, c.mesh, c.k, h.alpha, h.beta)
  }

  /** The search over candidates in order, `hits` being their test results. */
  function Fold(cs: seq<Candidate>, hits: seq<Option<Hit>>): (r: Nearest)
    requires |hits| == |cs|
    ensures r.modelIndex < 0 ==> r == NoHit
    ensures r.modelIndex >= 0 ==> (r.meshIndex >= 0 && r.k >= 0 && Candidate(r.modelIndex, r.meshIndex, r.k) in cs)
  {
    if cs == [] then NoHit
    else Consider(Fold(cs[..|cs| - 1], hits[..|hits| - 1]), cs[|cs| - 1], hits[|hits| - 1])
  }

  /** The distance found is at most FLT_MAX and at most every hit's. */
  lemma {:induction false} FoldIsNearest(cs: seq<Candidate>, hits: seq<Option<Hit>>)
    requires |hits| == |cs|
    ensures Fold(cs, hits).hitDistance <= FloatMax
    ensures forall p :: 0 <= p < |hits| && hits[p].Some? ==> Fold(cs, hits).hitDistance <= hits[p].value.t
  {
    if cs != [] {
      var hs := hits[..|hits| - 1];
      FoldIsNearest(cs[..|cs| - 1], hs);
      assert forall p :: 0 <= p < |hs| ==> hs[p] == hits[p];
    }
  }

  /** The search finds nothing exactly when no result is a hit at a distance
      up to FLT_MAX. */
  lemma {:induction false} FoldMisses(cs: seq<Candidate>, hits: seq<Option<Hit>>)
    requires |hits| == |cs|
    ensures Fold(cs, hits).modelIndex < 0 <==>
      forall p :: 0 <= p < |hits| && hits[p].Some? ==> hits[p].value.t > FloatMax
  {
    if cs != [] {
      var hs := hits[..|hits| - 1];
      FoldMisses(cs[..|cs| - 1], hs);
      FoldIsNearest(cs[..|cs| - 1], hs);
      assert forall p :: 0 <= p < |hs| ==> hs[p] == hits[p];
    }
  }

  /** When the search finds something, it is candidate q with the hit's
      distance and weights, and every later hit is strictly farther: ties go
      to the last of the nearest triangles. */
  lemma {:induction false} FoldPicksLastNearest(cs: seq<Candidate>, hits: seq<Option<Hit>>) returns (q: int)
    requires |hits| == |cs| && Fold(cs, hits).modelIndex >= 0
    ensures 0 <= q < |cs|
    ensures var r := Fold(cs, hits);
      && cs[q] == Candidate(r.modelIndex, r.meshIndex, r.k)
      && hits[q] == Some(Hit(r.hitDistance, r.alpha, r.beta))
      && forall p :: q < p < |hits| && hits[p].Some? ==> hits[p].value.t > r.hitDistance
  {
    var init, hs := cs[..|cs| - 1], hits[..|hits| - 1];
    var r0 := Fold(init, hs);
    var h := hits[|hits| - 1];
    if h.Some? && !(h.value.t > r0.hitDistance) {
      q := |cs| - 1;
    } else {
      q := FoldPicksLastNearest(init, hs);
      assert forall p :: 0 <= p < |hs| ==> hs[p] == hits[p];
    }
  }

  /** The test results of the candidates, in order. */
  function HitsOf(ray: Ray, scene: Scene, cs: seq<Candidate>): (hits: seq<Option<Hit>>)
    requires SceneReady(scene) && AllIn(scene, cs)
    ensures |hits| == |cs|
  {
    if cs == [] then [] else HitsOf(ray, scene, cs[..|cs| - 1]) + [CandidateHit(ray, scene, cs[|cs| - 1])]
  }

  lemma {:induction false} HitsOfAt(ray: Ray, scene: Scene, cs: seq<Candidate>, p: nat)
    requires SceneReady(scene) && AllIn(scene, cs) && p < |cs|
    ensures HitsOf(ray, scene, cs)[p] == CandidateHit(ray, scene, cs[p])
  {
    if p < |cs| - 1 {
      HitsOfAt(ray, scene, cs[..|cs| - 1], p);
    }
  }

  /** The search over the candidates in order. */
  function Search(ray: Ray, scene: Scene, cs: seq<Candidate>): (r: Nearest)
    requires SceneReady(scene) && AllIn(scene, cs)
    ensures r.modelIndex >= 0 ==>
      (r.meshIndex >= 0 && r.k >= 0 && CandidateIn(scene, Candidate(r.modelIndex, r.meshIndex, r.k)))
  {
    if cs == [] then NoHit
    else Consider(Search(ray, scene, cs[..|cs| - 1]), cs[|cs| - 1], CandidateHit(ray, scene, cs[|cs| - 1]))
  }

  /** The search is the fold over the candidates' test results. */
  lemma {:induction false} SearchIsFold(ray: Ray, scene: Scene, cs: seq<Candidate>)
    requires SceneReady(scene) && AllIn(scene, cs)
    ensures Search(ray, scene, cs) == Fold(cs, HitsOf(ray, scene, cs))
  {
    if cs != [] {
      SearchIsFold(ray, scene, cs[..|cs| - 1]);
    }
  }

  // ---------------------------------------------------------------------
  // Hit records

  /** What `traceRay` reports. A miss sets only the distance and the indices;
      the fields the source leaves uninitialised are zero here. */
  datatype HitPayload = HitPayload(
    hitDistance: real, worldPosition: Vec3, worldNormal: Vec3, texcoords: Vec2, modelIndex: int, meshIndex: int)

  /** `miss`. */
  function Miss(): (r: HitPayload)
    ensures r.hitDistance == -1.0 && r.modelIndex == -1 && r.meshIndex == -1
  {
    HitPayload(-1.0, Vec3(0.0, 0.0, 0.0), Vec3(0.0, 0.0, 0.0), Vec2(0.0, 0.0), -1, -1)
  }

  /** `closestHit`: the point at distance t along the ray, and normal and
      texture coordinates interpolated with the hit's weights over the
      corners as stored in the mesh. The normal is interpolated from the
      corner positions, not from their normals. */
  function ClosestHit(ray: Ray, hitDistance: real, modelIndex: int, meshIndex: int,
                      v0: Vertex, v1: Vertex, v2: Vertex, alpha: real, beta: real): HitPayload
  {
    HitPayload(hitDistance, Add3(ray.origin, Scale3(hitDistance, ray.direction)),
               Utils.LerpVec3(alpha, beta, v0.position, v1.position, v2.position),
               Utils.LerpVec2(alpha, beta, v0.texcoords, v1.texcoords, v2.texcoords),
               modelIndex, meshIndex)
  }

  /** The corner of a candidate as stored in its mesh. */
  function MeshCorner(scene: Scene, c: Candidate, corner: nat): Vertex
    requires SceneReady(scene) && CandidateIn(scene, c) && corner < 3
  {
    var mesh := scene.models[c.model].meshes[c.mesh];
    ReadyMesh(scene, c.model, c.mesh);
    mesh.vertices[mesh.indices[c.k + corner]]
  }

  /** The end of `traceRay`: a miss when the search found nothing, otherwise
      `closestHit` on the triangle it found. */
  function Report(ray: Ray, scene: Scene, a: Nearest): HitPayload
    requires SceneReady(scene)
    requires a.modelIndex >= 0 ==> (a.meshIndex >= 0 && a.k >= 0 && CandidateIn(scene, Candidate(a.modelIndex, a.meshIndex, a.k)))
  {
    if a.modelIndex < 0 || a.meshIndex < 0 then Miss()
    else
      var c := Candidate(a.modelIndex, a.meshIndex, a.k);
      ClosestHit(ray, a.hitDistance, a.modelIndex, a.meshIndex,
                 MeshCorner(scene, c, 0), MeshCorner(scene, c, 1), MeshCorner(scene, c, 2), a.alpha, a.beta)
  }

  /** `traceRay`: the nearest hit over all triangles of the scene, or a miss. */
  function TraceRay(ray: Ray, scene: Scene): (r: HitPayload)
    requires SceneReady(scene)
    ensures r.modelIndex >= 0 ==>
      (r.modelIndex < |scene.models| && 0 <= r.meshIndex < |scene.models[r.modelIndex].meshes|)
  {
    ModelsBeforeIn(scene, |scene.models|);
    Report(ray, scene, Search(ray, scene, Candidates(scene)))
  }

  /** `traceRay` misses exactly when no triangle of the scene is hit at a
      distance up to FLT_MAX (hits[p] being the test result of candidate p,
      see HitsOfAt), and a miss is `miss()`'s record. */
  lemma TraceRayMisses(ray: Ray, scene: Scene)
    requires SceneReady(scene)
    ensures AllIn(scene, Candidates(scene))
    ensures var hits := HitsOf(ray, scene, Candidates(scene));
      TraceRay(ray, scene).modelIndex < 0 <==>
        forall p :: 0 <= p < |hits| && hits[p].Some? ==> hits[p].value.t > FloatMax
    ensures TraceRay(ray, scene).modelIndex < 0 ==> TraceRay(ray, scene) == Miss()
  {
    ModelsBeforeIn(scene, |scene.models|);
    var cs := Candidates(scene);
    SearchIsFold(ray, scene, cs);
    FoldMisses(cs, HitsOf(ray, scene, cs));
  }

  /** A reported hit is at a distance not above any triangle's hit. */
  lemma TraceRayIsNearest(ray: Ray, scene: Scene)
    requires SceneReady(scene)
    ensures AllIn(scene, Candidates(scene))
    ensures var hits := HitsOf(ray, scene, Candidates(scene));
      TraceRay(ray, scene).modelIndex >= 0 ==>
        forall p :: 0 <= p < |hits| && hits[p].Some? ==> TraceRay(ray, scene).hitDistance <= hits[p].value.t
  {
    ModelsBeforeIn(scene, |scene.models|);
    var cs := Candidates(scene);
    SearchIsFold(ray, scene, cs);
    FoldIsNearest(cs, HitsOf(ray, scene, cs));
  }

  /** A reported hit lies on a tested triangle, at that triangle's hit
      distance, at the point of the triangle (as placed by the model matrix)
      with the hit's weights. */
  lemma TraceRayOnTriangle(ray: Ray, scene: Scene)
    requires SceneReady(scene)
    ensures AllIn(scene, Candidates(scene))
    ensures TraceRay(ray, scene).modelIndex >= 0 ==>
      exists p :: 0 <= p < |Candidates(scene)| && CandidateHit(ray, scene, Candidates(scene)[p]).Some? &&
        var c := Candidates(scene)[p];
        var h := CandidateHit(ray, scene, c).value;
        && h.t == TraceRay(ray, scene).hitDistance
        && TraceRay(ray, scene).worldPosition
           == Utils.LerpVec3(h.alpha, h.beta, WorldCorner(scene, c, 0), WorldCorner(scene, c, 1), WorldCorner(scene, c, 2))
  {
    ModelsBeforeIn(scene, |scene.models|);
    var cs := Candidates(scene);
    if Search(ray, scene, cs).modelIndex >= 0 {
      var hits := HitsOf(ray, scene, cs);
      SearchIsFold(ray, scene, cs);
      var q := FoldPicksLastNearest(cs, hits);
      HitsOfAt(ray, scene, cs, q);
      var c := cs[q];
      RayTriangleHit(ray, WorldCorner(scene, c, 0), WorldCorner(scene, c, 1), WorldCorner(scene, c, 2));
    }
  }


  // ---------------------------------------------------------------------
  // Shading and the bounce loop

  /** What `shade` yields: the diffuse colour, and the normal it writes back
      into the hit record. */
  datatype Shaded = Shaded(kd: Vec3, normal: Vec3)

  /** `shade`: kd from the first diffuse map if any; the normal from the
      first normal map taken through the tangent frame built from the hit
      normal, if any. */
  function Shade(m: MathLib, mat: Material, hp: HitPayload): (r: Shaded)
    requires MapsSampleable(mat)
    ensures |mat.diffuseMaps| == 0 ==> r.kd == mat.kd
    ensures |mat.normalMaps| == 0 ==> r.normal == hp.worldNormal
  {
    var tc := hp.texcoords;
    var kd := if |mat.diffuseMaps| > 0 then Xyz(Sample(mat.diffuseMaps[0], tc.x, tc.y)) else mat.kd;
    var normal :=
      if |mat.normalMaps| > 0 then
        m.normalize(MulM3V(RasterShaders.Tbn(m, hp.worldNormal), Sub3(Xyz(Sample(mat.normalMaps[0], tc.x, tc.y)), Splat3(0.5))))
      else hp.worldNormal;
    Shaded(kd, normal)
  }

  /** The random direction source: a unit vector for pixel (x, y) and bounce i. */
  type Random = (nat, nat, nat) -> Vec3

  /** Bounces i, i + 1, ... of the loop in `perPixel` for pixel (x, y): a miss
      adds the sky colour times the contribution and stops; a hit adds the
      material's emission times the contribution, scales the contribution by
      kd and continues from the hit point along a random direction around the
      shading normal. */
  function Bounce(m: MathLib, scene: Scene, random: Random, bounces: int, x: nat, y: nat,
                  ray: Ray, light: Vec3, contribution: Vec3, i: nat): Vec3
    requires SceneReady(scene)
    decreases bounces - i
  {
    if i >= bounces then light
    else
      var hp := TraceRay(ray, scene);
      if hp.modelIndex < 0 then Add3(light, Mul3(scene.skyColor, contribution))
      else
        var mat := scene.models[hp.modelIndex].meshes[hp.meshIndex].mat;
        ReadyMesh(scene, hp.modelIndex, hp.meshIndex);
        var sh := Shade(m, mat, hp);
        Bounce(m, scene, random, bounces, x, y,
               Ray(Add3(hp.worldPosition, Scale3(0.0001, sh.normal)), m.normalize(Add3(random(x, y, i), sh.normal))),
               Add3(light, Mul3(GetEmission(mat), contribution)), Mul3(contribution, sh.kd), i + 1)
  }

  /** `perPixel`: the light gathered along the camera ray, alpha 1. */
  function Radiance(m: MathLib, scene: Scene, random: Random, bounces: int, x: nat, y: nat, origin: Vec3, direction: Vec3): Vec4
    requires SceneReady(scene)
  {
    Point(Bounce(m, scene, random, bounces, x, y, Ray(origin, direction), Vec3(0.0, 0.0, 0.0), Splat3(1.0), 0), 1.0)
  }

  /** A black sky, and no mesh emits light. */
  predicate Dark(scene: Scene) {
    && scene.skyColor == Vec3(0.0, 0.0, 0.0)
    && forall a, b :: 0 <= a < |scene.models| && 0 <= b < |scene.models[a].meshes| ==>
         GetEmission(scene.models[a].meshes[b].mat) == Vec3(0.0, 0.0, 0.0)
  }

  lemma DarkMesh(scene: Scene, a: nat, b: nat, contribution: Vec3)
    requires Dark(scene) && a < |scene.models| && b < |scene.models[a].meshes|
    ensures Add3(Vec3(0.0, 0.0, 0.0), Mul3(GetEmission(scene.models[a].meshes[b].mat), contribution)) == Vec3(0.0, 0.0, 0.0)
  {
  }

  /** A scene that emits nothing under a black sky gathers no light, whatever
      the bounce directions. */
  lemma {:induction false} DarkSceneBounce(m: MathLib, scene: Scene, random: Random, bounces: int, x: nat, y: nat,
                                           ray: Ray, contribution: Vec3, i: nat)
    requires SceneReady(scene) && Dark(scene)
    ensures Bounce(m, scene, random, bounces, x, y, ray, Vec3(0.0, 0.0, 0.0), contribution, i) == Vec3(0.0, 0.0, 0.0)
    decreases bounces - i
  {
    if i < bounces {
      var hp := TraceRay(ray, scene);
      if hp.modelIndex >= 0 {
        var mat := scene.models[hp.modelIndex].meshes[hp.meshIndex].mat;
        ReadyMesh(scene, hp.modelIndex, hp.meshIndex);
        var sh := Shade(m, mat, hp);
        DarkMesh(scene, hp.modelIndex, hp.meshIndex, contribution);
        DarkSceneBounce(m, scene, random, bounces, x, y,
          Ray(Add3(hp.worldPosition, Scale3(0.0001, sh.normal)), m.normalize(Add3(random(x, y, i), sh.normal))),
          Mul3(contribution, sh.kd), i + 1);
      }
    }
  }

  /** With no bounces the pixel is black; when the camera ray escapes, the
      pixel is the sky colour. */
  lemma RadianceFirstBounce(m: MathLib, scene: Scene, random: Random, bounces: int, x: nat, y: nat, origin: Vec3, direction: Vec3)
    requires SceneReady(scene)
    ensures bounces <= 0 ==> Radiance(m, scene, random, bounces, x, y, origin, direction) == Vec4(0.0, 0.0, 0.0, 1.0)
    ensures bounces >= 1 && TraceRay(Ray(origin, direction), scene).modelIndex < 0 ==>
      Radiance(m, scene, random, bounces, x, y, origin, direction) == Point(scene.skyColor, 1.0)
  {
  }

  // ---------------------------------------------------------------------
  // Progressive accumulation, one pixel at a time

  const Zero4: Vec4 := Vec4(0.0, 0.0, 0.0, 0.0)

  function Div4(v: Vec4, d: real): Vec4
    requires d != 0.0
  {
    Vec4(v.x / d, v.y / d, v.z / d, v.w / d)
  }

  /** The accumulator after a frame: restarted from zero on frame 1. */
  function Accumulate(acc: Vec4, frameIndex: int, sample: Vec4): Vec4 {
    Add4(if frameIndex == 1 then Zero4 else acc, sample)
  }

  /** The colour shown: the accumulator over the frame count, clamped. */
  function Shown(acc: Vec4, frameIndex: int): (r: Vec4)
    requires frameIndex != 0
    ensures InUnit4(r)
  {
    Clamp4(Div4(acc, frameIndex as real), 0.0, 1.0)
  }

  function ShownWord(acc: Vec4, frameIndex: int): bv32
    requires frameIndex != 0
  {
    Utils.UnitIsPackable(Shown(acc, frameIndex));
    Utils.PackColor(Shown(acc, frameIndex))
  }

  function NextFrameIndex(frameIndex: int, accumulate: bool): int {
    if accumulate then frameIndex + 1 else 1
  }

  function SampleSum(samples: seq<Vec4>): Vec4 {
    if samples == [] then Zero4 else Add4(SampleSum(samples[..|samples| - 1]), samples[|samples| - 1])
  }

  datatype PixelState = PixelState(acc: Vec4, frameIndex: int)

  /** One pixel over successive frames with the given samples. */
  function Frames(start: PixelState, samples: seq<Vec4>, accumulate: bool): PixelState {
    if samples == [] then start
    else
      var st := Frames(start, samples[..|samples| - 1], accumulate);
      PixelState(Accumulate(st.acc, st.frameIndex, samples[|samples| - 1]), NextFrameIndex(st.frameIndex, accumulate))
  }

  /** With accumulation on, n frames after a reset the accumulator holds the
      sum of the n samples and the frame index is n + 1, so the n-th frame
      shows their mean. */
  lemma {:induction false} ProgressiveMean(start: PixelState, samples: seq<Vec4>)
    requires start.frameIndex == 1 && samples != []
    ensures Frames(start, samples, true) == PixelState(SampleSum(samples), |samples| + 1)
    ensures Shown(Frames(start, samples, true).acc, |samples|) == Clamp4(Div4(SampleSum(samples), |samples| as real), 0.0, 1.0)
  {
    var init := samples[..|samples| - 1];
    if init == [] {
      assert SampleSum(init) == Zero4;
      assert Add4(Zero4, samples[0]) == samples[0];
    } else {
      ProgressiveMean(start, init);
    }
  }

  /** With accumulation off every frame shows only its own sample. */
  lemma {:induction false} NoAccumulationShowsLast(start: PixelState, samples: seq<Vec4>)
    requires samples != [] && (start.frameIndex == 1 || |samples| >= 2)
    ensures Frames(start, samples, false) == PixelState(samples[|samples| - 1], 1)
  {
    var init := samples[..|samples| - 1];
    if init != [] {
      if |init| >= 2 || start.frameIndex == 1 {
        NoAccumulationShowsLast(start, init);
      } else {
        assert Frames(start, init, false).frameIndex == 1;
      }
    }
    assert Add4(Zero4, samples[|samples| - 1]) == samples[|samples| - 1];
  }

  /** The light gathered for pixel i of a w-wide image. */
  function PixelSample(m: MathLib, scene: Scene, random: Random, bounces: int,
                       origin: Vec3, rays: seq<Vec3>, w: nat, i: nat): Vec4
    requires SceneReady(scene) && w > 0 && i < |rays|
  {
    Radiance(m, scene, random, bounces, i % w, i / w, origin, rays[i])
  }

  /** `samples` lists the sample of every pixel of a w-wide image. */
  ghost predicate SamplesOf(m: MathLib, scene: Scene, random: Random, bounces: int,
                            origin: Vec3, rays: seq<Vec3>, w: nat, samples: seq<Vec4>) {
    && SceneReady(scene) && |samples| == |rays|
    && forall i {:trigger PixelSample(m, scene, random, bounces, origin, rays, w, i)} ::
         0 <= i < |samples| && 0 < w ==> samples[i] == PixelSample(m, scene, random, bounces, origin, rays, w, i)
  }

  /** Entry x + y w of a w-wide image is pixel (x, y). */
  lemma PixelSampleAt(m: MathLib, scene: Scene, random: Random, bounces: int,
                      origin: Vec3, rays: seq<Vec3>, w: nat, x: nat, y: nat)
    requires SceneReady(scene) && x < w && x + y * w < |rays|
    ensures PixelSample(m, scene, random, bounces, origin, rays, w, x + y * w)
            == Radiance(m, scene, random, bounces, x, y, origin, rays[x + y * w])
  {
    Grid.IndexDecompose(x, y, w);
  }

  /** The triangle at k extends the list of those before it. */
  lemma NextTriangle(tested: seq<Candidate>, i: nat, j: nat, p: nat)
    ensures tested + TrianglesOf(i, j, p + 1) == (tested + TrianglesOf(i, j, p)) + [Candidate(i, j, 3 * p)]
  {
    assert TrianglesOf(i, j, p + 1) == TrianglesOf(i, j, p) + [Candidate(i, j, 3 * p)];
  }

  /** The candidates up to mesh j of model i, as the scan meets them. */
  lemma NextMesh(scene: Scene, i: nat, j: nat)
    requires i < |scene.models| && j <= |scene.models[i].meshes|
    ensures j == 0 ==> ModelsBefore(scene, i) + MeshesBefore(scene, i, j) == ModelsBefore(scene, i)
    ensures j > 0 ==> (ModelsBefore(scene, i) + MeshesBefore(scene, i, j)
      == (ModelsBefore(scene, i) + MeshesBefore(scene, i, j - 1)) + TrianglesOf(i, j - 1, |scene.models[i].meshes[j - 1].indices| / 3))
    ensures j == |scene.models[i].meshes| ==> ModelsBefore(scene, i) + MeshesBefore(scene, i, j) == ModelsBefore(scene, i + 1)
  {
  }

  lemma SearchAppend(ray: Ray, scene: Scene, cs: seq<Candidate>, c: Candidate)
    requires SceneReady(scene) && AllIn(scene, cs) && CandidateIn(scene, c)
    ensures AllIn(scene, cs + [c])
    ensures Search(ray, scene, cs + [c]) == Consider(Search(ray, scene, cs), c, CandidateHit(ray, scene, c))
  {
    assert (cs + [c])[..|cs|] == cs;
  }

  /** 0, 1, ..., n - 1. */
  function Iota(n: nat): (r: seq<nat>)
    ensures |r| == n && forall i :: 0 <= i < n ==> r[i] == i
  {
    if n == 0 then [] else Iota(n - 1) + [n - 1]
  }

  // ---------------------------------------------------------------------
  // The tracer

  /** `Tracer::Settings`, shared with the renderer that edits it. */
  class TracerSettings {
    var accumulate: bool
    var bounceTimes: int

    constructor ()
      ensures !accumulate && bounceTimes == 2
    {
      accumulate := false;
      bounceTimes := 2;
    }
  }

  class Tracer {
    /** The maths `shade` and the bounce directions use. */
    const math: MathLib
    const settings: TracerSettings
    var image: Images.Image?
    var imageData: array?<bv32>
    var accumulationData: array?<Vec4>
    var frameIndex: int
    var horizontalIter: seq<nat>
    var verticalIter: seq<nat>

    /** Once an image exists, both buffers have one entry per pixel, the frame
        index counts from 1 and the pixel lists enumerate columns and rows. */
    ghost predicate Valid()
      reads this, image
    {
      image == null ||
      (imageData != null && accumulationData != null && imageData as object != accumulationData as object
       && imageData.Length == image.width * image.height
       && accumulationData.Length == image.width * image.height
       && frameIndex >= 1
       && horizontalIter == Iota(image.width) && verticalIter == Iota(image.height))
    }

    constructor (math: MathLib)
      ensures Valid() && this.math == math && fresh(settings)
      ensures !settings.accumulate && settings.bounceTimes == 2
      ensures image == null && imageData == null && accumulationData == null && frameIndex == -1
    {
      this.math := math;
      settings := new TracerSettings();
      image := null;
      imageData := null;
      accumulationData := null;
      frameIndex := -1;
      horizontalIter := [];
      verticalIter := [];
    }

    /** `resetFrame`: the next frame restarts the accumulation. */
    method ResetFrame()
      modifies this`frameIndex
      ensures frameIndex == 1
    {
      frameIndex := 1;
    }

    /** `resize`: the first call creates the image; a new size reallocates both
        buffers, restarts the accumulation and rebuilds the pixel lists; the
        same size changes nothing. */
    method Resize(width: nat, height: nat)
      requires Valid()
      modifies this, image
      ensures Valid() && image != null && image.width == width && image.height == height
      ensures old(image) != null ==> image == old(image)
      ensures old(image) != null && old(image.width) == width && old(image.height) == height ==>
        imageData == old(imageData) && accumulationData == old(accumulationData) && frameIndex == old(frameIndex)
        && image.pixels == old(image.pixels)
      ensures old(image) == null || old(image.width) != width || old(image.height) != height ==>
        fresh(imageData) && fresh(accumulationData) && frameIndex == 1 && image.pixels == []
      ensures old(image) == null ==> fresh(image)
    {
      if image == null {
        image := new Images.Image(width, height);
      } else if width != image.width || height != image.height {
        image.Resize(width, height);
      } else {
        return;
      }
      imageData := new bv32[width * height];
      accumulationData := new Vec4[width * height];
      ResetFrame();
      horizontalIter := Iota(width);
      verticalIter := Iota(height);
    }

    /** One triangle of `traceRay`'s innermost loop: the index triple at k,
        placed by the model matrix, is tested against the ray and replaces the
        nearest hit so far unless it is farther. */
    method ScanTriangle(ray: Ray, scene: Scene, i: nat, j: nat, k: nat, modelTransform: Mat4, acc: Nearest, ghost tested: seq<Candidate>)
      returns (r: Nearest)
      requires SceneReady(scene) && CandidateIn(scene, Candidate(i, j, k))
      requires modelTransform == ModelTransform(scene.models[i].scale, scene.models[i].translate)
      requires AllIn(scene, tested) && acc == Search(ray, scene, tested)
      ensures AllIn(scene, tested + [Candidate(i, j, k)])
      ensures r == Search(ray, scene, tested + [Candidate(i, j, k)])
    {
      var mesh := scene.models[i].meshes[j];
      ReadyMesh(scene, i, j);
      var p0 := Xyz(MulMV(modelTransform, Point(mesh.vertices[mesh.indices[k]].position, 1.0)));
      var p1 := Xyz(MulMV(modelTransform, Point(mesh.vertices[mesh.indices[k + 1]].position, 1.0)));
      var p2 := Xyz(MulMV(modelTransform, Point(mesh.vertices[mesh.indices[k + 2]].position, 1.0)));
      var hit := RayTriangle(ray, p0, p1, p2);
      assert hit == CandidateHit(ray, scene, Candidate(i, j, k));
      r := acc;
      if hit.Some? && !(hit.value.t > r.hitDistance) {
        r := Nearest(hit.value.t, i, j, k, hit.value.alpha, hit.value.beta);
      }
      SearchAppend(ray, scene, tested, Candidate(i, j, k));
    }

    /** The body of `traceRay`'s loop over the triangles of mesh j of model
        i: tests each complete index triple, placed by the model matrix,
        against the ray and keeps the nearer hit. */
    method ScanMesh(ray: Ray, scene: Scene, i: nat, j: nat, modelTransform: Mat4, acc: Nearest, ghost tested: seq<Candidate>)
      returns (r: Nearest)
      requires SceneReady(scene) && i < |scene.models| && j < |scene.models[i].meshes|
      requires modelTransform == ModelTransform(scene.models[i].scale, scene.models[i].translate)
      requires AllIn(scene, tested) && acc == Search(ray, scene, tested)
      ensures AllIn(scene, tested + TrianglesOf(i, j, |scene.models[i].meshes[j].indices| / 3))
      ensures r == Search(ray, scene, tested + TrianglesOf(i, j, |scene.models[i].meshes[j].indices| / 3))
    {
      var mesh := scene.models[i].meshes[j];
      TrianglesOfIn(scene, i, j, |mesh.indices| / 3);
      r := acc;
      assert tested + TrianglesOf(i, j, 0) == tested;
      var k := 0;
      ghost var p := 0;
      ghost var cs := tested;
      while k + 2 < |mesh.indices|
        invariant k == 3 * p && k <= |mesh.indices|
        invariant cs == tested + TrianglesOf(i, j, p)
        invariant AllIn(scene, cs) && r == Search(ray, scene, cs)
      {
        r := ScanTriangle(ray, scene, i, j, k, modelTransform, r, cs);
        NextTriangle(tested, i, j, p);
        cs := cs + [Candidate(i, j, k)];
        k, p := k + 3, p + 1;
      }
      assert p == |mesh.indices| / 3;
    }

    /** The end of `traceRay`: a miss when no triangle was hit, otherwise the
        hit record of the nearest triangle. */
    method ReportNearest(ray: Ray, scene: Scene, nearest: Nearest) returns (r: HitPayload)
      requires SceneReady(scene)
      requires nearest.modelIndex >= 0 ==>
        (nearest.meshIndex >= 0 && nearest.k >= 0 && CandidateIn(scene, Candidate(nearest.modelIndex, nearest.meshIndex, nearest.k)))
      ensures r == Report(ray, scene, nearest)
    {
      if nearest.modelIndex < 0 || nearest.meshIndex < 0 {
        r := Miss();
      } else {
        var mesh := scene.models[nearest.modelIndex].meshes[nearest.meshIndex];
        ghost var c := Candidate(nearest.modelIndex, nearest.meshIndex, nearest.k);
        ReadyMesh(scene, nearest.modelIndex, nearest.meshIndex);
        var v0 := mesh.vertices[mesh.indices[nearest.k]];
        var v1 := mesh.vertices[mesh.indices[nearest.k + 1]];
        var v2 := mesh.vertices[mesh.indices[nearest.k + 2]];
        assert v0 == MeshCorner(scene, c, 0) && v1 == MeshCorner(scene, c, 1) && v2 == MeshCorner(scene, c, 2);
        r := ClosestHit(ray, nearest.hitDistance, nearest.modelIndex, nearest.meshIndex, v0, v1, v2, nearest.alpha, nearest.beta);
      }
    }

    /** `traceRay`: tests every complete index triple of every mesh of every
        model, in order, against the ray and keeps the nearest hit. */
    method TraceRayScan(ray: Ray, scene: Scene) returns (r: HitPayload)
      requires SceneReady(scene)
      ensures r == TraceRay(ray, scene)
    {
      var nearest := NoHit;
      var i := 0;
      while i < |scene.models|
        invariant 0 <= i <= |scene.models|
        invariant AllIn(scene, ModelsBefore(scene, i)) && nearest == Search(ray, scene, ModelsBefore(scene, i))
      {
        var model := scene.models[i];
        var modelTransform := Identity;
        modelTransform := GlmScale(modelTransform, model.scale);
        modelTransform := GlmTranslate(modelTransform, model.translate);
        NextMesh(scene, i, 0);
        var j := 0;
        while j < |model.meshes|
          invariant 0 <= j <= |model.meshes|
          invariant modelTransform == ModelTransform(model.scale, model.translate)
          invariant AllIn(scene, ModelsBefore(scene, i) + MeshesBefore(scene, i, j))
          invariant nearest == Search(ray, scene, ModelsBefore(scene, i) + MeshesBefore(scene, i, j))
        {
          nearest := ScanMesh(ray, scene, i, j, modelTransform, nearest, ModelsBefore(scene, i) + MeshesBefore(scene, i, j));
          NextMesh(scene, i, j + 1);
          j := j + 1;
        }
        i := i + 1;
      }
      r := ReportNearest(ray, scene, nearest);
    }
  
    /** One pass of the loop in `perPixel`: traces the ray; on a miss adds
        the sky and reports it, on a hit adds the emission, scales the
        contribution by kd and sets up the bounced ray. */
    method BounceOnce(scene: Scene, random: Random, x: nat, y: nat, i: nat, ray: Ray, light: Vec3, contribution: Vec3)
      returns (missed: bool, ray': Ray, light': Vec3, contribution': Vec3)
      requires SceneReady(scene) && i < settings.bounceTimes
      ensures missed ==> light' == Bounce(math, scene, random, settings.bounceTimes, x, y, ray, light, contribution, i)
      ensures !missed ==>
        Bounce(math, scene, random, settings.bounceTimes, x, y, ray', light', contribution', i + 1)
        == Bounce(math, scene, random, settings.bounceTimes, x, y, ray, light, contribution, i)
    {
      var hitPayload := TraceRayScan(ray, scene);
      if hitPayload.modelIndex < 0 {
        missed, ray', light', contribution' := true, ray, Add3(light, Mul3(scene.skyColor, contribution)), contribution;
        return;
      }
      var mat := scene.models[hitPayload.modelIndex].meshes[hitPayload.meshIndex].mat;
      ReadyMesh(scene, hitPayload.modelIndex, hitPayload.meshIndex);
      light' := Add3(light, Mul3(GetEmission(mat), contribution));
      var shaded := Shade(math, mat, hitPayload);
      contribution' := Mul3(contribution, shaded.kd);
      ray' := Ray(Add3(hitPayload.worldPosition, Scale3(0.0001, shaded.normal)),
                  math.normalize(Add3(random(x, y, i), shaded.normal)));
      missed := false;
    }

    /** `perPixel`: follows the camera ray through pixel (x, y), which starts
        at the camera position `origin` along `direction`, for up to
        `bounceTimes` bounces and returns the gathered light. */
    method PerPixel(scene: Scene, random: Random, x: nat, y: nat, origin: Vec3, direction: Vec3) returns (color: Vec4)
      requires SceneReady(scene)
      ensures color == Radiance(math, scene, random, settings.bounceTimes, x, y, origin, direction)
    {
      var ray := Ray(origin, direction);
      var light := Vec3(0.0, 0.0, 0.0);
      var contribution := Splat3(1.0);
      ghost var target := Bounce(math, scene, random, settings.bounceTimes, x, y, ray, light, contribution, 0);
      var i := 0;
      while i < settings.bounceTimes
        invariant Bounce(math, scene, random, settings.bounceTimes, x, y, ray, light, contribution, i) == target
        decreases settings.bounceTimes - i
      {
        var missed;
        missed, ray, light, contribution := BounceOnce(scene, random, x, y, i, ray, light, contribution);
        if missed {
          assert light == target;
          break;
        }
        i := i + 1;
      }
      assert light == target;
      color := Point(light, 1.0);
    }

    /** The body of `render` for pixel (x, y) of a `width`-wide image whose
        camera sits at `origin` and casts `rays`: adds the pixel's sample
        `sample` to its accumulator and stores the packed average. */
    method RenderPixel(scene: Scene, random: Random, origin: Vec3, rays: seq<Vec3>, width: nat, x: nat, y: nat,
                       ghost bounces: int, ghost samples: seq<Vec4>)
      requires accumulationData != null && imageData != null && SceneReady(scene)
      requires imageData as object != accumulationData as object
      requires accumulationData.Length == |rays| && imageData.Length == |rays|
      requires frameIndex >= 1 && x < width && x + y * width < |rays|
      requires bounces == settings.bounceTimes && SamplesOf(math, scene, random, bounces, origin, rays, width, samples)
      modifies accumulationData, imageData
      ensures forall i :: 0 <= i < accumulationData.Length ==>
        accumulationData[i] == if i == x + y * width then Add4(old(accumulationData[i]), samples[i]) else old(accumulationData[i])
      ensures forall i :: 0 <= i < imageData.Length ==>
        imageData[i] == if i == x + y * width then ShownWord(accumulationData[i], frameIndex) else old(imageData[i])
    {
      var index := x + y * width;
      var color := PerPixel(scene, random, x, y, origin, rays[index]);
      PixelSampleAt(math, scene, random, bounces, origin, rays, width, x, y);
      assert color == samples[index];
      AccumulatePixel(index, color);
    }

    /** Adds a sample to accumulator `index` and stores the packed average. */
    method AccumulatePixel(index: nat, color: Vec4)
      requires accumulationData != null && imageData != null && imageData as object != accumulationData as object
      requires frameIndex >= 1 && index < accumulationData.Length && index < imageData.Length
      modifies accumulationData, imageData
      ensures forall i :: 0 <= i < accumulationData.Length ==>
        accumulationData[i] == if i == index then Add4(old(accumulationData[i]), color) else old(accumulationData[i])
      ensures forall i :: 0 <= i < imageData.Length ==>
        imageData[i] == if i == index then ShownWord(accumulationData[i], frameIndex) else old(imageData[i])
    {
      accumulationData[index] := Add4(accumulationData[index], color);
      var accumulatedColor := Div4(accumulationData[index], frameIndex as real);
      accumulatedColor := Clamp4(accumulatedColor, 0.0, 1.0);
      Utils.UnitIsPackable(accumulatedColor);
      imageData[index] := Utils.PackColor(accumulatedColor);
    }

    /** One row of `render`'s pixel loop; `samples` holds each pixel's
        sample. */
    method RenderRow(scene: Scene, random: Random, origin: Vec3, rays: seq<Vec3>, width: nat, y: nat,
                     ghost bounces: int, ghost samples: seq<Vec4>)
      requires accumulationData != null && imageData != null && SceneReady(scene)
      requires imageData as object != accumulationData as object
      requires accumulationData.Length == |rays| && imageData.Length == |rays| && frameIndex >= 1
      requires y * width + width <= |rays|
      requires bounces == settings.bounceTimes && SamplesOf(math, scene, random, bounces, origin, rays, width, samples)
      modifies accumulationData, imageData
      ensures forall i :: 0 <= i < accumulationData.Length ==>
        accumulationData[i] == if y * width <= i < y * width + width then Add4(old(accumulationData[i]), samples[i])
                               else old(accumulationData[i])
      ensures forall i :: 0 <= i < imageData.Length ==>
        imageData[i] == if y * width <= i < y * width + width then ShownWord(accumulationData[i], frameIndex)
                        else old(imageData[i])
    {
      var start := y * width;
      var x := 0;
      while x < width
        invariant 0 <= x <= width && settings.bounceTimes == bounces
        invariant forall i :: 0 <= i < accumulationData.Length ==>
          accumulationData[i] == if start <= i < start + x then Add4(old(accumulationData[i]), samples[i])
                                 else old(accumulationData[i])
        invariant forall i :: 0 <= i < imageData.Length ==>
          imageData[i] == if start <= i < start + x then ShownWord(accumulationData[i], frameIndex)
                          else old(imageData[i])
      {
        RenderPixel(scene, random, origin, rays, width, x, y, bounces, samples);
        x := x + 1;
      }
    }

    /** The pixel loops of `render`, rows outermost: every accumulator gains
        its pixel's sample and every packed pixel shows its accumulator. */
    method RenderRows(scene: Scene, random: Random, origin: Vec3, rays: seq<Vec3>, width: nat, height: nat,
                      ghost bounces: int, ghost samples: seq<Vec4>)
      requires accumulationData != null && imageData != null && SceneReady(scene)
      requires imageData as object != accumulationData as object
      requires accumulationData.Length == |rays| && imageData.Length == |rays| && frameIndex >= 1
      requires |rays| == width * height
      requires bounces == settings.bounceTimes && SamplesOf(math, scene, random, bounces, origin, rays, width, samples)
      modifies accumulationData, imageData
      ensures forall i :: 0 <= i < accumulationData.Length ==> accumulationData[i] == Add4(old(accumulationData[i]), samples[i])
      ensures forall i :: 0 <= i < imageData.Length ==> imageData[i] == ShownWord(accumulationData[i], frameIndex)
    {
      var y, done := 0, 0;
      while y < height
        invariant 0 <= y <= height && done == y * width && done <= |rays|
        invariant settings.bounceTimes == bounces
        invariant forall i :: 0 <= i < accumulationData.Length ==>
          accumulationData[i] == if i < done then Add4(old(accumulationData[i]), samples[i]) else old(accumulationData[i])
        invariant forall i :: 0 <= i < done ==> imageData[i] == ShownWord(accumulationData[i], frameIndex)
      {
        Grid.RowEnd(y, width, height);
        RenderRow(scene, random, origin, rays, width, y, bounces, samples);
        y, done := y + 1, done + width;
      }
      assert done == |rays|;
    }

    /** `render`: restarts the accumulation on frame 1, adds every pixel's
        sample to its accumulator, publishes the packed averages and advances
        the frame index (or keeps it at 1 without accumulation). */
    method Render(scene: Scene, camera: Cameras.Camera, random: Random)
      requires Valid() && image != null && SceneReady(scene)
      requires |camera.rayDirections| == image.width * image.height
      modifies accumulationData, imageData, image`pixels, this`frameIndex
      ensures Valid()
      ensures forall i :: 0 < image.width && 0 <= i < accumulationData.Length ==>
        accumulationData[i] == Accumulate(old(accumulationData[i]), old(frameIndex),
          PixelSample(math, scene, random, settings.bounceTimes, camera.position, camera.rayDirections, image.width, i))
      ensures forall i :: 0 <= i < imageData.Length ==> imageData[i] == ShownWord(accumulationData[i], old(frameIndex))
      ensures image.pixels == imageData[..]
      ensures frameIndex == NextFrameIndex(old(frameIndex), settings.accumulate)
    {
      var height, width := image.height, image.width;
      var bounces, origin, rays := settings.bounceTimes, camera.position, camera.rayDirections;
      if frameIndex == 1 {
        forall i | 0 <= i < accumulationData.Length {
          accumulationData[i] := Zero4;
        }
      }
      ghost var samples := seq(|rays|, i requires 0 <= i < |rays| =>
        if width == 0 then Zero4 else PixelSample(math, scene, random, bounces, origin, rays, width, i));
      RenderRows(scene, random, origin, rays, width, height, bounces, samples);
      image.SetData(imageData[..]);
      if settings.accumulate {
        frameIndex := frameIndex + 1;
      } else {
        frameIndex := 1;
      }
      assert camera.position == origin && camera.rayDirections == rays && image.width == width && settings.bounceTimes == bounces;
    }
  }
}
