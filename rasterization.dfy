/** The rasterizing pipeline (Core/Rasterizer/rasterizer.cpp): colour and
    depth buffers, a bounding-box scan with the edge-function coverage test,
    early depth rejection, and packing of the colours for display. */
module Rasterization {
  import opened LinAlg
  import opened Meshes
  import opened Scenes
  import opened RasterShaders
  import Utils
  import Grid
  import Images
  import Cameras

  /** A triangle in screen space: x and y in pixels, w the clip-space w. */
  datatype Tri = Tri(v0: V2F, v1: V2F, v2: V2F)

  datatype Frame = Frame(color: seq<Vec4>, depth: seq<real>)

  /** What a draw reads besides the scene: the fragment maths, the camera's
      matrices and position, and the image size. */
  datatype Context = Context(
    math: MathLib, view: Mat4, projection: Mat4, viewport: Mat4, cameraPosition: Vec3,
    width: nat, height: nat)

  /** The bounding box, truncated to whole pixels and clipped to the image. */
  function Left(t: Tri): int {
    MaxInt(0, Trunc(Min(Min(t.v0.position.x, t.v1.position.x), t.v2.position.x)))
  }
  function Right(t: Tri, w: nat): int {
    MinInt(w - 1, Trunc(Max(Max(t.v0.position.x, t.v1.position.x), t.v2.position.x)))
  }
  function Bottom(t: Tri): int {
    MaxInt(0, Trunc(Min(Min(t.v0.position.y, t.v1.position.y), t.v2.position.y)))
  }
  function Top(t: Tri, h: nat): int {
    MinInt(h - 1, Trunc(Max(Max(t.v0.position.y, t.v1.position.y), t.v2.position.y)))
  }

  predicate InBox(t: Tri, w: nat, h: nat, x: int, y: int) {
    Left(t) <= x <= Right(t, w) && Bottom(t) <= y <= Top(t, h)
  }

  /** Clipping keeps every visited pixel inside the image, so its index
      y * width + x addresses the buffers. */
  lemma BoxInImage(t: Tri, w: nat, h: nat, x: int, y: int)
    requires InBox(t, w, h, x, y)
    ensures 0 <= x < w && 0 <= y < h && 0 <= y * w + x < w * h
  {
    Grid.IndexInRange(x, y, w, h);
  }

  /** The edge function of a -> b at pixel (x, y). */
  function Edge(a: Vec4, b: Vec4, x: real, y: real): real {
    (a.x - x) * (b.y - y) - (a.y - y) * (b.x - x)
  }

  /** All three edge values are non-negative. */
  predicate Covers(t: Tri, x: int, y: int) {
    && Edge(t.v0.position, t.v1.position, x as real, y as real) >= 0.0
    && Edge(t.v1.position, t.v2.position, x as real, y as real) >= 0.0
    && Edge(t.v2.position, t.v0.position, x as real, y as real) >= 0.0
  }

  datatype Weights = Weights(alpha: real, beta: real, gamma: real)

  /** Barycentric weights divided by each vertex's w. */
  function PerspectiveWeights(t: Tri, x: int, y: int): Weights {
    var t1 := Edge(t.v0.position, t.v1.position, x as real, y as real);
    var t2 := Edge(t.v1.position, t.v2.position, x as real, y as real);
    var t3 := Edge(t.v2.position, t.v0.position, x as real, y as real);
    var s := t1 + t2 + t3;
    Weights(FDiv(FDiv(t2, s), t.v0.position.w), FDiv(FDiv(t3, s), t.v1.position.w), FDiv(FDiv(t1, s), t.v2.position.w))
  }

  /** The perspective-corrected depth `zCorrection`. */
  function CorrectedDepth(t: Tri, x: int, y: int): real {
    var k := PerspectiveWeights(t, x, y);
    FDiv(1.0, k.alpha + k.beta + k.gamma)
  }

  /** The fragment's interpolated attributes; the view direction points from
      the fragment to the camera. */
  function Interpolated(t: Tri, x: int, y: int, cameraPosition: Vec3): V2F {
    var z := CorrectedDepth(t, x, y);
    var k := PerspectiveWeights(t, x, y);
    var worldPosition := Scale3(z, Utils.Lerp3Vec3(k.alpha, k.beta, k.gamma, t.v0.worldPosition, t.v1.worldPosition, t.v2.worldPosition));
    V2F(Scale4(z, Utils.Lerp3Vec4(k.alpha, k.beta, k.gamma, t.v0.position, t.v1.position, t.v2.position)),
        worldPosition,
        Scale4(z, Utils.Lerp3Vec4(k.alpha, k.beta, k.gamma, t.v0.albedo, t.v1.albedo, t.v2.albedo)),
        Scale3(z, Utils.Lerp3Vec3(k.alpha, k.beta, k.gamma, t.v0.normal, t.v1.normal, t.v2.normal)),
        Scale2(z, Utils.Lerp3Vec2(k.alpha, k.beta, k.gamma, t.v0.texcoords, t.v1.texcoords, t.v2.texcoords)),
        Sub3(cameraPosition, worldPosition))
  }

  /** Pixel (x, y) is visited, covered, and not rejected by the early depth
      test against the stored depth d. */
  predicate Passes(t: Tri, w: nat, h: nat, x: int, y: int, d: real) {
    InBox(t, w, h, x, y) && Covers(t, x, y) && !(CorrectedDepth(t, x, y) > d)
  }

  /** The stored depth after the triangle visited pixel (x, y). */
  function PixelDepth(t: Tri, w: nat, h: nat, x: int, y: int, d: real): real {
    if InBox(t, w, h, x, y) && Covers(t, x, y) then
      (if CorrectedDepth(t, x, y) > d then d else Min(d, CorrectedDepth(t, x, y)))
    else d
  }

  /** The stored colour after the triangle visited pixel (x, y). */
  function PixelColor(ctx: Context, t: Tri, mat: Material, lights: seq<DirectionLight>, x: int, y: int, c: Vec4, d: real): Vec4
    requires MapsSampleable(mat)
  {
    if Passes(t, ctx.width, ctx.height, x, y, d) then FragColor(ctx.math, Interpolated(t, x, y, ctx.cameraPosition), mat, lights)
    else c
  }

  /** Early rejection followed by `min` amounts to keeping the nearer depth:
      a covered pixel ends with min(old, z), any other pixel keeps its depth,
      and the colour changes only where the fragment is at least as near. */
  lemma PixelDepthIsMin(ctx: Context, t: Tri, mat: Material, lights: seq<DirectionLight>, x: int, y: int, c: Vec4, d: real)
    requires MapsSampleable(mat)
    ensures PixelDepth(t, ctx.width, ctx.height, x, y, d)
         == if InBox(t, ctx.width, ctx.height, x, y) && Covers(t, x, y) then Min(d, CorrectedDepth(t, x, y)) else d
    ensures PixelDepth(t, ctx.width, ctx.height, x, y, d) <= d
    ensures PixelColor(ctx, t, mat, lights, x, y, c, d) != c ==>
      InBox(t, ctx.width, ctx.height, x, y) && Covers(t, x, y) && CorrectedDepth(t, x, y) <= d
  {
  }

  predicate FrameFits(ctx: Context, f: Frame) {
    |f.color| == ctx.width * ctx.height && |f.depth| == ctx.width * ctx.height
  }

  /** One call of `rasterize`: every pixel of the box is updated on its own. */
  function DrawTriangle(ctx: Context, f: Frame, t: Tri, mat: Material, lights: seq<DirectionLight>): (r: Frame)
    requires MapsSampleable(mat) && FrameFits(ctx, f)
    ensures FrameFits(ctx, r)
  {
    if ctx.width == 0 then f
    else
      Frame(seq(|f.color|, i requires 0 <= i < |f.color| =>
                  PixelColor(ctx, t, mat, lights, i % ctx.width, i / ctx.width, f.color[i], f.depth[i])),
            seq(|f.depth|, i requires 0 <= i < |f.depth| =>
                  PixelDepth(t, ctx.width, ctx.height, i % ctx.width, i / ctx.width, f.depth[i])))
  }

  /** Pixel (x, y) of the frame after one triangle. */
  lemma DrawTriangleAt(ctx: Context, f: Frame, t: Tri, mat: Material, lights: seq<DirectionLight>, x: nat, y: nat)
    requires MapsSampleable(mat) && FrameFits(ctx, f) && x < ctx.width && y < ctx.height
    ensures 0 <= x + y * ctx.width < ctx.width * ctx.height
    ensures DrawTriangle(ctx, f, t, mat, lights).depth[x + y * ctx.width]
         == PixelDepth(t, ctx.width, ctx.height, x, y, f.depth[x + y * ctx.width])
    ensures DrawTriangle(ctx, f, t, mat, lights).color[x + y * ctx.width]
         == PixelColor(ctx, t, mat, lights, x, y, f.color[x + y * ctx.width], f.depth[x + y * ctx.width])
  {
    Grid.IndexInRange(x, y, ctx.width, ctx.height);
    Grid.IndexDecompose(x, y, ctx.width);
  }

  /** Pixel (px, py) comes before pixel (x, y) in the scan order. */
  predicate Before(px: int, py: int, x: int, y: int) {
    py < y || (py == y && px < x)
  }

  /** The buffers hold the triangle's updates for the box pixels scanned
      before (x, y) and their old values elsewhere. */
  ghost predicate DrawnBefore(ctx: Context, t: Tri, mat: Material, lights: seq<DirectionLight>,
                              c0: seq<Vec4>, d0: seq<real>, c: seq<Vec4>, d: seq<real>, x: int, y: int)
    requires MapsSampleable(mat)
  {
    && ctx.width > 0 && |c0| == |d0| == |c| == |d| == ctx.width * ctx.height
    && forall i :: 0 <= i < |c| ==>
      && c[i] == (if InBox(t, ctx.width, ctx.height, i % ctx.width, i / ctx.width) && Before(i % ctx.width, i / ctx.width, x, y)
                  then PixelColor(ctx, t, mat, lights, i % ctx.width, i / ctx.width, c0[i], d0[i]) else c0[i])
      && d[i] == (if InBox(t, ctx.width, ctx.height, i % ctx.width, i / ctx.width) && Before(i % ctx.width, i / ctx.width, x, y)
                  then PixelDepth(t, ctx.width, ctx.height, i % ctx.width, i / ctx.width, d0[i]) else d0[i])
  }

  lemma DrawnStart(ctx: Context, t: Tri, mat: Material, lights: seq<DirectionLight>, c0: seq<Vec4>, d0: seq<real>)
    requires MapsSampleable(mat) && ctx.width > 0 && |c0| == |d0| == ctx.width * ctx.height
    ensures DrawnBefore(ctx, t, mat, lights, c0, d0, c0, d0, Left(t), Bottom(t))
  {
  }

  /** Visiting box pixel (x, y) extends the scanned region by that pixel. */
  lemma DrawnStep(ctx: Context, t: Tri, mat: Material, lights: seq<DirectionLight>,
                  c0: seq<Vec4>, d0: seq<real>, c: seq<Vec4>, d: seq<real>, x: int, y: int)
    requires MapsSampleable(mat)
    requires DrawnBefore(ctx, t, mat, lights, c0, d0, c, d, x, y) && InBox(t, ctx.width, ctx.height, x, y)
    ensures 0 <= y * ctx.width + x < |c|
    ensures c[y * ctx.width + x] == c0[y * ctx.width + x] && d[y * ctx.width + x] == d0[y * ctx.width + x]
    ensures DrawnBefore(ctx, t, mat, lights, c0, d0,
      c[y * ctx.width + x := PixelColor(ctx, t, mat, lights, x, y, c[y * ctx.width + x], d[y * ctx.width + x])],
      d[y * ctx.width + x := PixelDepth(t, ctx.width, ctx.height, x, y, d[y * ctx.width + x])], x + 1, y)
  {
    var w := ctx.width;
    BoxInImage(t, w, ctx.height, x, y);
    Grid.IndexDecompose(x, y, w);
    var k := y * w + x;
    assert k == x + y * w;
    var c', d' := c[k := PixelColor(ctx, t, mat, lights, x, y, c[k], d[k])], d[k := PixelDepth(t, w, ctx.height, x, y, d[k])];
    forall i | 0 <= i < |c'|
      ensures c'[i] == (if InBox(t, w, ctx.height, i % w, i / w) && Before(i % w, i / w, x + 1, y)
                        then PixelColor(ctx, t, mat, lights, i % w, i / w, c0[i], d0[i]) else c0[i])
      ensures d'[i] == (if InBox(t, w, ctx.height, i % w, i / w) && Before(i % w, i / w, x + 1, y)
                        then PixelDepth(t, w, ctx.height, i % w, i / w, d0[i]) else d0[i])
    {
      if i != k {
        Grid.IndexSplit(i, w, ctx.height);
        assert !(i % w == x && i / w == y);
      }
    }
  }

  lemma DrawnNextRow(ctx: Context, t: Tri, mat: Material, lights: seq<DirectionLight>,
                     c0: seq<Vec4>, d0: seq<real>, c: seq<Vec4>, d: seq<real>, y: int)
    requires MapsSampleable(mat)
    requires DrawnBefore(ctx, t, mat, lights, c0, d0, c, d, MaxInt(Left(t), Right(t, ctx.width) + 1), y)
    ensures DrawnBefore(ctx, t, mat, lights, c0, d0, c, d, Left(t), y + 1)
  {
  }

  lemma DrawnDone(ctx: Context, t: Tri, mat: Material, lights: seq<DirectionLight>,
                  c0: seq<Vec4>, d0: seq<real>, c: seq<Vec4>, d: seq<real>, y: int)
    requires MapsSampleable(mat)
    requires y > Top(t, ctx.height)
    requires DrawnBefore(ctx, t, mat, lights, c0, d0, c, d, Left(t), y)
    ensures Frame(c, d) == DrawTriangle(ctx, Frame(c0, d0), t, mat, lights)
  {
  }

  // ---------------------------------------------------------------------
  // The whole frame

  /** The colour and depth every pixel is cleared to. */
  const ClearColor: Vec4 := Vec4(0.0, 0.0, 0.0, 1.0)

  function Cleared(ctx: Context): (f: Frame)
    ensures FrameFits(ctx, f)
  {
    Frame(seq(ctx.width * ctx.height, _ => ClearColor), seq(ctx.width * ctx.height, _ => FloatMax))
  }

  /** A vertex after the vertex stage of `render`: the shader's clip position
      divided by its w, mapped by the viewport, with w kept; the view
      direction points from the camera to the vertex. */
  function ScreenVertex(ctx: Context, model: Mat4, v: Vertex): V2F {
    var clip := MulMV(ctx.projection, MulMV(ctx.view, MulMV(model, Point(v.position, 1.0))));
    var w := clip.w;
    var screen := MulMV(ctx.viewport, Vec4(FDiv(clip.x, w), FDiv(clip.y, w), FDiv(clip.z, w), FDiv(clip.w, w)));
    var world := Xyz(MulMV(model, Point(v.position, 1.0)));
    V2F(Vec4(screen.x, screen.y, screen.z, w), world, Splat4(1.0), v.normal, v.texcoords, Sub3(world, ctx.cameraPosition))
  }

  function ScreenVertices(ctx: Context, model: Mat4, vs: seq<Vertex>): (r: seq<V2F>)
    ensures |r| == |vs|
  {
    seq(|vs|, i requires 0 <= i < |vs| => ScreenVertex(ctx, model, vs[i]))
  }

  predicate IndicesIn(indices: seq<nat>, n: nat) {
    forall k :: 0 <= k < |indices| ==> indices[k] < n
  }

  /** The triangles (i, i+1, i+2) for i = from, from + 3, ... while i + 2 is an
      index, drawn in order. */
  function DrawTrianglesFrom(ctx: Context, f: Frame, sv: seq<V2F>, indices: seq<nat>, mat: Material,
                             lights: seq<DirectionLight>, from: nat): (r: Frame)
    requires MapsSampleable(mat) && FrameFits(ctx, f) && IndicesIn(indices, |sv|)
    ensures FrameFits(ctx, r)
    decreases |indices| - from
  {
    if from + 2 < |indices| then
      var t := Tri(sv[indices[from]], sv[indices[from + 1]], sv[indices[from + 2]]);
      DrawTrianglesFrom(ctx, DrawTriangle(ctx, f, t, mat, lights), sv, indices, mat, lights, from + 3)
    else f
  }

  function DrawMesh(ctx: Context, f: Frame, model: Mat4, mesh: Mesh, lights: seq<DirectionLight>): (r: Frame)
    requires MeshReady(mesh) && FrameFits(ctx, f)
    ensures FrameFits(ctx, r)
  {
    DrawTrianglesFrom(ctx, f, ScreenVertices(ctx, model, mesh.vertices), mesh.indices, mesh.mat, lights, 0)
  }

  function DrawMeshesFrom(ctx: Context, f: Frame, model: Model, lights: seq<DirectionLight>, from: nat): (r: Frame)
    requires ModelReady(model) && FrameFits(ctx, f)
    ensures FrameFits(ctx, r)
    decreases |model.meshes| - from
  {
    if from < |model.meshes| then
      DrawMeshesFrom(ctx, DrawMesh(ctx, f, ModelTransform(model.scale, model.translate), model.meshes[from], lights),
                     model, lights, from + 1)
    else f
  }

  function DrawModelsFrom(ctx: Context, f: Frame, scene: Scene, from: nat): (r: Frame)
    requires SceneReady(scene) && FrameFits(ctx, f)
    ensures FrameFits(ctx, r)
    decreases |scene.models| - from
  {
    if from < |scene.models| then
      DrawModelsFrom(ctx, DrawMeshesFrom(ctx, f, scene.models[from], scene.lights, 0), scene, from + 1)
    else f
  }

  /** The colour and depth buffers after `render`. */
  function RenderFrame(ctx: Context, scene: Scene): (r: Frame)
    requires SceneReady(scene)
    ensures FrameFits(ctx, r)
  {
    DrawModelsFrom(ctx, Cleared(ctx), scene, 0)
  }

  // ---------------------------------------------------------------------
  // What a frame keeps

  predicate FrameInUnit(f: Frame) {
    forall i :: 0 <= i < |f.color| ==> InUnit4(f.color[i])
  }

  /** Frame g may follow frame f: the same size, no depth grew, and colours
      in [0, 1] stay there. */
  predicate Follows(f: Frame, g: Frame) {
    && |g.color| == |f.color| && |g.depth| == |f.depth|
    && (forall i :: 0 <= i < |f.depth| && i < |g.depth| ==> g.depth[i] <= f.depth[i])
    && (FrameInUnit(f) ==> FrameInUnit(g))
  }

  lemma FollowsTrans(f: Frame, g: Frame, h: Frame)
    requires Follows(f, g) && Follows(g, h)
    ensures Follows(f, h)
  {
  }

  lemma DrawTriangleFollows(ctx: Context, f: Frame, t: Tri, mat: Material, lights: seq<DirectionLight>)
    requires MapsSampleable(mat) && FrameFits(ctx, f)
    ensures Follows(f, DrawTriangle(ctx, f, t, mat, lights))
  {
    if ctx.width > 0 {
      var g := DrawTriangle(ctx, f, t, mat, lights);
      forall i | 0 <= i < |f.depth|
        ensures g.depth[i] <= f.depth[i]
      {
        PixelDepthIsMin(ctx, t, mat, lights, i % ctx.width, i / ctx.width, f.color[i], f.depth[i]);
      }
      if FrameInUnit(f) {
        forall i | 0 <= i < |g.color|
          ensures InUnit4(g.color[i])
        {
          FragColorInUnit(ctx.math, Interpolated(t, i % ctx.width, i / ctx.width, ctx.cameraPosition), mat, lights);
        }
      }
    }
  }

  lemma {:induction false} DrawTrianglesFromFollows(ctx: Context, f: Frame, sv: seq<V2F>, indices: seq<nat>,
                                                    mat: Material, lights: seq<DirectionLight>, from: nat)
    requires MapsSampleable(mat) && FrameFits(ctx, f) && IndicesIn(indices, |sv|)
    ensures Follows(f, DrawTrianglesFrom(ctx, f, sv, indices, mat, lights, from))
    decreases |indices| - from
  {
    if from + 2 < |indices| {
      var t := Tri(sv[indices[from]], sv[indices[from + 1]], sv[indices[from + 2]]);
      var g := DrawTriangle(ctx, f, t, mat, lights);
      DrawTriangleFollows(ctx, f, t, mat, lights);
      DrawTrianglesFromFollows(ctx, g, sv, indices, mat, lights, from + 3);
      FollowsTrans(f, g, DrawTrianglesFrom(ctx, g, sv, indices, mat, lights, from + 3));
    }
  }

  /** The triangles starting at the given indices, drawn in order. */
  function DrawAtStarts(ctx: Context, f: Frame, sv: seq<V2F>, indices: seq<nat>, mat: Material,
                        lights: seq<DirectionLight>, starts: seq<nat>): (r: Frame)
    requires MapsSampleable(mat) && FrameFits(ctx, f) && IndicesIn(indices, |sv|)
    requires forall k :: 0 <= k < |starts| ==> starts[k] + 2 < |indices|
    ensures FrameFits(ctx, r)
    decreases |starts|
  {
    if |starts| == 0 then f
    else
      var s := starts[0];
      var t := Tri(sv[indices[s]], sv[indices[s + 1]], sv[indices[s + 2]]);
      DrawAtStarts(ctx, DrawTriangle(ctx, f, t, mat, lights), sv, indices, mat, lights, starts[1..])
  }

  /** The primitive loop draws exactly the whole triples, at 0, 3, 6, ...:
      the triangles `TriangleStartsFrom` lists, in that order. */
  lemma {:induction false} DrawTrianglesFromStarts(ctx: Context, f: Frame, sv: seq<V2F>, indices: seq<nat>,
                                                   mat: Material, lights: seq<DirectionLight>, from: nat)
    requires MapsSampleable(mat) && FrameFits(ctx, f) && IndicesIn(indices, |sv|) && from % 3 == 0
    ensures var starts := TriangleStartsFrom(from, |indices|);
      && (forall k :: 0 <= k < |starts| ==> starts[k] + 2 < |indices|)
      && DrawTrianglesFrom(ctx, f, sv, indices, mat, lights, from) == DrawAtStarts(ctx, f, sv, indices, mat, lights, starts)
    decreases |indices| - from
  {
    TriangleStarts(from, |indices|);
    if from + 2 < |indices| {
      var t := Tri(sv[indices[from]], sv[indices[from + 1]], sv[indices[from + 2]]);
      DrawTrianglesFromStarts(ctx, DrawTriangle(ctx, f, t, mat, lights), sv, indices, mat, lights, from + 3);
      assert TriangleStartsFrom(from, |indices|)[1..] == TriangleStartsFrom(from + 3, |indices|);
    }
  }

  lemma {:induction false} DrawMeshesFromFollows(ctx: Context, f: Frame, model: Model, lights: seq<DirectionLight>, from: nat)
    requires ModelReady(model) && FrameFits(ctx, f)
    ensures Follows(f, DrawMeshesFrom(ctx, f, model, lights, from))
    decreases |model.meshes| - from
  {
    if from < |model.meshes| {
      var mesh := model.meshes[from];
      var mt := ModelTransform(model.scale, model.translate);
      var g := DrawMesh(ctx, f, mt, mesh, lights);
      DrawTrianglesFromFollows(ctx, f, ScreenVertices(ctx, mt, mesh.vertices), mesh.indices, mesh.mat, lights, 0);
      DrawMeshesFromFollows(ctx, g, model, lights, from + 1);
      FollowsTrans(f, g, DrawMeshesFrom(ctx, g, model, lights, from + 1));
    }
  }

  lemma {:induction false} DrawModelsFromFollows(ctx: Context, f: Frame, scene: Scene, from: nat)
    requires SceneReady(scene) && FrameFits(ctx, f)
    ensures Follows(f, DrawModelsFrom(ctx, f, scene, from))
    decreases |scene.models| - from
  {
    if from < |scene.models| {
      var g := DrawMeshesFrom(ctx, f, scene.models[from], scene.lights, 0);
      DrawMeshesFromFollows(ctx, f, scene.models[from], scene.lights, 0);
      DrawModelsFromFollows(ctx, g, scene, from + 1);
      FollowsTrans(f, g, DrawModelsFrom(ctx, g, scene, from + 1));
    }
  }

  /** After `render` every colour is in [0, 1], so it packs into bytes, and
      no depth exceeds the cleared value FLT_MAX. */
  lemma RenderFrameBounds(ctx: Context, scene: Scene)
    requires SceneReady(scene)
    ensures FrameInUnit(RenderFrame(ctx, scene))
    ensures forall i :: 0 <= i < |RenderFrame(ctx, scene).depth| ==> RenderFrame(ctx, scene).depth[i] <= FloatMax
  {
    DrawModelsFromFollows(ctx, Cleared(ctx), scene, 0);
  }

  /** A scene without models renders the cleared frame: opaque black. */
  lemma EmptySceneIsClear(ctx: Context, scene: Scene)
    requires |scene.models| == 0
    ensures RenderFrame(ctx, scene) == Cleared(ctx)
    ensures forall i :: 0 <= i < |RenderFrame(ctx, scene).color| ==>
      Utils.Packable(RenderFrame(ctx, scene).color[i]) && Utils.PackColor(RenderFrame(ctx, scene).color[i]) == 0xFF00_0000
  {
    Utils.PackColorExtremes();
  }

  /** The packed words `render` hands to the image. */
  function PackedFrame(f: Frame): (r: seq<bv32>)
    requires FrameInUnit(f)
    ensures |r| == |f.color|
  {
    seq(|f.color|, i requires 0 <= i < |f.color| => Utils.UnitIsPackable(f.color[i]); Utils.PackColor(f.color[i]))
  }

  /** What `render` reads from the camera and the image. */
  function CameraContext(math: MathLib, camera: Cameras.Camera, width: nat, height: nat): Context
    reads camera
  {
    Context(math, camera.view, camera.projection, camera.viewportTransform, camera.position, width, height)
  }

  // ---------------------------------------------------------------------
  // The rasterizer object

  class Rasterizer {
    /** The maths the fragment shader uses. */
    const math: MathLib
    var image: Images.Image?
    var imageData: array?<bv32>
    var colorBuffer: seq<Vec4>
    var depthBuffer: seq<real>

    /** Once an image exists, the buffers have one entry per pixel. */
    ghost predicate Valid()
      reads this, image
    {
      image == null || (imageData != null && imageData.Length == image.width * image.height
                        && |colorBuffer| == image.width * image.height && |depthBuffer| == image.width * image.height)
    }

    constructor (math: MathLib)
      ensures Valid() && this.math == math
      ensures image == null && imageData == null && colorBuffer == [] && depthBuffer == []
    {
      this.math := math;
      image := null;
      imageData := null;
      colorBuffer := [];
      depthBuffer := [];
    }

    /** `resize`: the first call creates the image; a new size reallocates the
        packed words and resizes both buffers; the same size changes nothing. */
    method Resize(width: nat, height: nat)
      requires Valid()
      modifies this, image
      ensures Valid() && image != null && image.width == width && image.height == height
      ensures old(image) != null ==> image == old(image)
      ensures old(image) != null && old(image.width) == width && old(image.height) == height ==>
        imageData == old(imageData) && colorBuffer == old(colorBuffer) && depthBuffer == old(depthBuffer)
        && image.pixels == old(image.pixels)
      ensures old(image) == null || old(image.width) != width || old(image.height) != height ==>
        && fresh(imageData) && image.pixels == []
        && colorBuffer == ResizeSeq(old(colorBuffer), width * height, Vec4(0.0, 0.0, 0.0, 0.0))
        && depthBuffer == ResizeSeq(old(depthBuffer), width * height, 0.0)
      ensures old(image) == null ==> fresh(image)
    {
      if image == null {
        image := new Images.Image(width, height);
      } else if width != image.width || height != image.height {
        image.Resize(width, height);
      } else {
        return;
      }
      imageData := new bv32[width * height];
      colorBuffer := ResizeSeq(colorBuffer, width * height, Vec4(0.0, 0.0, 0.0, 0.0));
      depthBuffer := ResizeSeq(depthBuffer, width * height, 0.0);
    }

    /** The buffers as a frame. */
    function Current(): Frame
      reads this`colorBuffer, this`depthBuffer
    {
      Frame(colorBuffer, depthBuffer)
    }

    /** The body of the scan for box pixel (x, y). */
    method ShadePixel(t: Tri, mat: Material, lights: seq<DirectionLight>, ctx: Context, x: int, y: int)
      requires ctx.math == math && MapsSampleable(mat) && InBox(t, ctx.width, ctx.height, x, y)
      requires |colorBuffer| == ctx.width * ctx.height && |depthBuffer| == ctx.width * ctx.height
      modifies this`colorBuffer, this`depthBuffer
      ensures 0 <= y * ctx.width + x < |old(colorBuffer)|
      ensures colorBuffer == old(colorBuffer)[y * ctx.width + x :=
        PixelColor(ctx, t, mat, lights, x, y, old(colorBuffer)[y * ctx.width + x], old(depthBuffer)[y * ctx.width + x])]
      ensures depthBuffer == old(depthBuffer)[y * ctx.width + x :=
        PixelDepth(t, ctx.width, ctx.height, x, y, old(depthBuffer)[y * ctx.width + x])]
    {
      BoxInImage(t, ctx.width, ctx.height, x, y);
      var index := y * ctx.width + x;
      var t1 := Edge(t.v0.position, t.v1.position, x as real, y as real);
      var t2 := Edge(t.v1.position, t.v2.position, x as real, y as real);
      var t3 := Edge(t.v2.position, t.v0.position, x as real, y as real);
      if t1 >= 0.0 && t2 >= 0.0 && t3 >= 0.0 {
        var alpha := FDiv(FDiv(t2, t1 + t2 + t3), t.v0.position.w);
        var beta := FDiv(FDiv(t3, t1 + t2 + t3), t.v1.position.w);
        var gamma := FDiv(FDiv(t1, t1 + t2 + t3), t.v2.position.w);
        var zCorrection := FDiv(1.0, alpha + beta + gamma);
        assert zCorrection == CorrectedDepth(t, x, y);
        if zCorrection > depthBuffer[index] {
          return;
        }
        var color := Frag(math, Interpolated(t, x, y, ctx.cameraPosition), mat, lights);
        colorBuffer := colorBuffer[index := color];
        depthBuffer := depthBuffer[index := Min(depthBuffer[index], zCorrection)];
      }
    }

    /** `rasterize`: scans the clipped bounding box row by row, tests each
        pixel against the three edges and the stored depth, and writes the
        fragment's colour and the nearer depth. */
    method Rasterize(t: Tri, mat: Material, lights: seq<DirectionLight>, ctx: Context)
      requires Valid() && image != null && ctx.width == image.width && ctx.height == image.height && ctx.math == math
      requires MapsSampleable(mat)
      modifies this`colorBuffer, this`depthBuffer
      ensures Current() == DrawTriangle(ctx, old(Current()), t, mat, lights)
    {
      var width: int, height: int := image.width, image.height;
      if width == 0 {
        return;
      }
      ghost var c0, d0 := colorBuffer, depthBuffer;
      var left := Trunc(Min(Min(t.v0.position.x, t.v1.position.x), t.v2.position.x));
      var right := Trunc(Max(Max(t.v0.position.x, t.v1.position.x), t.v2.position.x));
      var bottom := Trunc(Min(Min(t.v0.position.y, t.v1.position.y), t.v2.position.y));
      var top := Trunc(Max(Max(t.v0.position.y, t.v1.position.y), t.v2.position.y));
      left := MaxInt(0, left);
      right := MinInt(width - 1, right);
      bottom := MaxInt(0, bottom);
      top := MinInt(height - 1, top);
      DrawnStart(ctx, t, mat, lights, c0, d0);
      var y := bottom;
      while y <= top
        invariant bottom <= y
        invariant DrawnBefore(ctx, t, mat, lights, c0, d0, colorBuffer, depthBuffer, left, y)
        decreases top - y
      {
        var x := left;
        while x <= right
          invariant left <= x <= MaxInt(left, right + 1)
          invariant DrawnBefore(ctx, t, mat, lights, c0, d0, colorBuffer, depthBuffer, x, y)
          decreases right - x
        {
          DrawnStep(ctx, t, mat, lights, c0, d0, colorBuffer, depthBuffer, x, y);
          ShadePixel(t, mat, lights, ctx, x, y);
          x := x + 1;
        }
        DrawnNextRow(ctx, t, mat, lights, c0, d0, colorBuffer, depthBuffer, y);
        y := y + 1;
      }
      DrawnDone(ctx, t, mat, lights, c0, d0, colorBuffer, depthBuffer, MaxInt(y, bottom));
    }
    /** `render`: clears the buffers, runs every triangle of every mesh of
        every model through the vertex stage and `rasterize`, then packs the
        colours and publishes them to the image. */
    method Render(scene: Scene, camera: Cameras.Camera)
      requires Valid() && image != null && SceneReady(scene)
      modifies this`colorBuffer, this`depthBuffer, imageData, image`pixels
      ensures Current() == RenderFrame(CameraContext(math, camera, image.width, image.height), scene)
      ensures FrameInUnit(Current()) && image.pixels == PackedFrame(Current())
      ensures imageData[..] == image.pixels
    {
      var ctx := CameraContext(math, camera, image.width, image.height);
      colorBuffer := seq(|colorBuffer|, _ => ClearColor);
      depthBuffer := seq(|depthBuffer|, _ => FloatMax);
      assert Current() == Cleared(ctx);
      var vs := new BasicVertexShader();
      vs.SetView(camera.view);
      vs.SetProjection(camera.projection);
      var k := 0;
      while k < |scene.models|
        invariant 0 <= k <= |scene.models|
        invariant FrameFits(ctx, Current())
        invariant DrawModelsFrom(ctx, Current(), scene, k) == RenderFrame(ctx, scene)
        invariant vs.view == ctx.view && vs.projection == ctx.projection
      {
        DrawModelOnce(scene.models[k], scene.lights, ctx, vs);
        k := k + 1;
      }
      RenderFrameBounds(ctx, scene);
      Publish();
    }

    /** The end of `render`: packs every colour into `imageData` and hands
        the words to the image. */
    method Publish()
      requires Valid() && image != null && FrameInUnit(Current())
      modifies imageData, image`pixels
      ensures image.pixels == PackedFrame(Current()) && imageData[..] == image.pixels
    {
      var i := 0;
      while i < image.width * image.height
        invariant 0 <= i <= image.width * image.height
        invariant forall q :: 0 <= q < i ==> imageData[q] == PackedFrame(Current())[q]
      {
        imageData[i] := PackedFrame(Current())[i];
        i := i + 1;
      }
      image.SetData(imageData[..]);
    }

    /** One model of `render`: sets the model matrix S * T, then draws each
        mesh. */
    method DrawModelOnce(model: Model, lights: seq<DirectionLight>, ctx: Context, vs: BasicVertexShader)
      requires Valid() && image != null && ctx.width == image.width && ctx.height == image.height && ctx.math == math
      requires ModelReady(model) && FrameFits(ctx, Current())
      requires vs.view == ctx.view && vs.projection == ctx.projection
      modifies this`colorBuffer, this`depthBuffer, vs`model
      ensures FrameFits(ctx, Current()) && vs.view == ctx.view && vs.projection == ctx.projection
      ensures Current() == DrawMeshesFrom(ctx, old(Current()), model, lights, 0)
    {
      ghost var before := Current();
      var modelTransform := Identity;
      modelTransform := GlmScale(modelTransform, model.scale);
      modelTransform := GlmTranslate(modelTransform, model.translate);
      vs.SetModel(modelTransform);
      assert vs.model == ModelTransform(model.scale, model.translate);
      var j := 0;
      while j < |model.meshes|
        invariant 0 <= j <= |model.meshes|
        invariant Valid() && FrameFits(ctx, Current())
        invariant DrawMeshesFrom(ctx, Current(), model, lights, j) == DrawMeshesFrom(ctx, before, model, lights, 0)
        invariant vs.view == ctx.view && vs.projection == ctx.projection
        invariant vs.model == ModelTransform(model.scale, model.translate)
      {
        DrawMeshOnce(model.meshes[j], lights, ctx, vs);
        j := j + 1;
      }
    }

    /** One mesh of `render`: the vertex stage over its vertices, then its
        triangles in index order. */
    method DrawMeshOnce(mesh: Mesh, lights: seq<DirectionLight>, ctx: Context, vs: BasicVertexShader)
      requires Valid() && image != null && ctx.width == image.width && ctx.height == image.height && ctx.math == math
      requires MeshReady(mesh) && FrameFits(ctx, Current())
      requires vs.view == ctx.view && vs.projection == ctx.projection
      modifies this`colorBuffer, this`depthBuffer
      ensures FrameFits(ctx, Current())
      ensures Current() == DrawMesh(ctx, old(Current()), vs.model, mesh, lights)
    {
      var v2fs: seq<V2F> := [];
      var n := 0;
      while n < |mesh.vertices|
        invariant 0 <= n <= |mesh.vertices|
        invariant |v2fs| == n && forall q :: 0 <= q < n ==> v2fs[q] == ScreenVertex(ctx, vs.model, mesh.vertices[q])
      {
        var vertex := mesh.vertices[n];
        var v2f := vs.Vert(A2V(Point(vertex.position, 1.0), Splat4(1.0), vertex.normal, vertex.texcoords,
                               vertex.tangent, vertex.bitangent));
        var w := v2f.position.w;
        var p := Vec4(FDiv(v2f.position.x, w), FDiv(v2f.position.y, w), FDiv(v2f.position.z, w), FDiv(v2f.position.w, w));
        p := MulMV(ctx.viewport, p);
        v2f := v2f.(position := Vec4(p.x, p.y, p.z, w), viewDir := Sub3(v2f.worldPosition, ctx.cameraPosition));
        v2fs := v2fs + [v2f];
        n := n + 1;
      }
      assert v2fs == ScreenVertices(ctx, vs.model, mesh.vertices);
      ghost var start := Current();
      var i := 0;
      while i + 2 < |mesh.indices|
        invariant FrameFits(ctx, Current())
        invariant DrawTrianglesFrom(ctx, Current(), v2fs, mesh.indices, mesh.mat, lights, i)
               == DrawTrianglesFrom(ctx, start, v2fs, mesh.indices, mesh.mat, lights, 0)
        decreases |mesh.indices| - i
      {
        Rasterize(Tri(v2fs[mesh.indices[i]], v2fs[mesh.indices[i + 1]], v2fs[mesh.indices[i + 2]]), mesh.mat, lights, ctx);
        i := i + 3;
      }
    }
  }
}
