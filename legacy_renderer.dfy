/** The rasterizer of the older Eigen pipeline (src/Renderer.cpp): triangles
    re-wound counter-clockwise, a bounding box scanned with exclusive upper
    bounds, edge values updated incrementally along each row with an early
    exit once the row has left the triangle, and a depth buffer in which the
    larger value is nearer. The fragment shader's lighting is an input. */
module LegacyRendering {
  import opened LinAlg
  import opened Wrappers
  import opened LegacyShaders
  import opened LegacyBuffers
  import LegacyModels
  import Grid

  // ---------------------------------------------------------------------
  // Texture routing

  /** `setTexture`: a texture goes to the slot its type names; a height
      texture and any other type are ignored. */
  function Routed(s: FragmentState, tex: Texture): FragmentState {
    if tex.kind == "texture_diffuse" then s.(diffuseTex := Some(tex))
    else if tex.kind == "texture_specular" then s.(specularTex := Some(tex))
    else if tex.kind == "texture_normal" then s.(normalTex := Some(tex))
    else s
  }

  /** Every texture of a mesh routed in turn. */
  function RouteAll(s: FragmentState, texs: seq<Texture>): FragmentState {
    if texs == [] then s else Routed(RouteAll(s, texs[..|texs| - 1]), texs[|texs| - 1])
  }

  /** The last texture of the given type. */
  function LastOfKind(texs: seq<Texture>, kind: string): Option<Texture> {
    if texs == [] then None
    else if texs[|texs| - 1].kind == kind then Some(texs[|texs| - 1])
    else LastOfKind(texs[..|texs| - 1], kind)
  }

  function OrElse(o: Option<Texture>, d: Option<Texture>): Option<Texture> {
    if o.Some? then o else d
  }

  /** After routing a list, each slot holds the last texture of its type, or
      what it held before when there is none; the height slot and everything
      else are never touched. */
  lemma {:induction false} RouteAllPicksLast(s: FragmentState, texs: seq<Texture>)
    ensures RouteAll(s, texs).diffuseTex == OrElse(LastOfKind(texs, "texture_diffuse"), s.diffuseTex)
    ensures RouteAll(s, texs).specularTex == OrElse(LastOfKind(texs, "texture_specular"), s.specularTex)
    ensures RouteAll(s, texs).normalTex == OrElse(LastOfKind(texs, "texture_normal"), s.normalTex)
    ensures RouteAll(s, texs).heightTex == s.heightTex
    ensures RouteAll(s, texs).(diffuseTex := s.diffuseTex, specularTex := s.specularTex, normalTex := s.normalTex) == s
  {
    if texs != [] {
      RouteAllPicksLast(s, texs[..|texs| - 1]);
    }
  }

  method SetTexture(fs: FragmentShader, tex: Texture)
    modifies fs
    ensures fs.State() == Routed(old(fs.State()), tex)
  {
    if tex.kind == "texture_diffuse" {
      fs.SetDiffuseTexture(tex);
    } else if tex.kind == "texture_specular" {
      fs.SetSpecularTexture(tex);
    } else if tex.kind == "texture_normal" {
      fs.SetNormalTexture(tex);
    } else if tex.kind == "texture_height" {
    }
  }

  // ---------------------------------------------------------------------
  // Winding

  datatype Tri = Tri(v0: V2F, v1: V2F, v2: V2F)

  /** The z-component of the cross product of (ux, uy) and (vx, vy). */
  function Cross(ux: real, uy: real, vx: real, vy: real): real {
    ux * vy - uy * vx
  }

  /** ca_x * ab_y - ca_y * ab_x, with ca = a - c and ab = b - a: negative
      when a, b, c run clockwise on screen. */
  function Orientation(a: Vec4, b: Vec4, c: Vec4): real {
    Cross(a.x - c.x, a.y - c.y, b.x - a.x, b.y - a.y)
  }

  lemma CrossSwap(px: real, py: real, qx: real, qy: real)
    ensures Cross(-px, -py, qx, qy) == -Cross(-qx, -qy, px, py)
  {
    assert Cross(-px, -py, qx, qy) == -(px * qy) + py * qx;
    assert Cross(-qx, -qy, px, py) == -(qx * py) + qy * px;
  }

  /** Exchanging the last two corners negates the orientation. */
  lemma OrientationSwap(a: Vec4, b: Vec4, c: Vec4)
    ensures Orientation(a, c, b) == -Orientation(a, b, c)
  {
    var px, py, qx, qy := b.x - a.x, b.y - a.y, c.x - a.x, c.y - a.y;
    assert a.x - b.x == -px && a.y - b.y == -py && a.x - c.x == -qx && a.y - c.y == -qy;
    CrossSwap(px, py, qx, qy);
  }

  /** The triangle `counterclockwise` leaves: the last two corners exchanged
      when the orientation is negative. */
  function Ccw(t: Tri): (r: Tri)
    ensures Orientation(r.v0.position, r.v1.position, r.v2.position) >= 0.0
    ensures multiset{r.v0, r.v1, r.v2} == multiset{t.v0, t.v1, t.v2} && r.v0 == t.v0
  {
    OrientationSwap(t.v0.position, t.v1.position, t.v2.position);
    if Orientation(t.v0.position, t.v1.position, t.v2.position) < 0.0 then Tri(t.v0, t.v2, t.v1) else t
  }

  /** `counterclockwise`, in place on the three corners. */
  method Counterclockwise(v: array<V2F>)
    requires v.Length == 3
    modifies v
    ensures Tri(v[0], v[1], v[2]) == Ccw(Tri(old(v[0]), old(v[1]), old(v[2])))
  {
    var abx := v[1].position.x - v[0].position.x;
    var aby := v[1].position.y - v[0].position.y;
    var cax := v[0].position.x - v[2].position.x;
    var cay := v[0].position.y - v[2].position.y;
    if cax * aby - cay * abx < 0.0 {
      v[1], v[2] := v[2], v[1];
    }
  }

  // ---------------------------------------------------------------------
  // Bounding box and edges

  datatype Box = Box(xmin: int, ymin: int, xmax: int, ymax: int)

  function Ceil(r: real): int {
    -((-r).Floor)
  }

  /** The floor of the least and the ceiling of the greatest corner
      coordinate, clipped to [0, width - 1] and [0, height - 1]. */
  function BoundingBox(t: Tri, width: int, height: int): (b: Box)
    ensures 0 <= b.xmin && 0 <= b.ymin && b.xmax <= width - 1 && b.ymax <= height - 1
  {
    var p0, p1, p2 := t.v0.position, t.v1.position, t.v2.position;
    Box(MaxInt(Min(Min(p0.x, p1.x), p2.x).Floor, 0), MaxInt(Min(Min(p0.y, p1.y), p2.y).Floor, 0),
        MinInt(Ceil(Max(Max(p0.x, p1.x), p2.x)), width - 1), MinInt(Ceil(Max(Max(p0.y, p1.y), p2.y)), height - 1))
  }

  /** The differences and constants the three edge values are built from. */
  datatype Edges = Edges(abx: real, aby: real, bcx: real, bcy: real, cax: real, cay: real, c1: real, c2: real, c3: real)

  function EdgesOf(t: Tri): Edges {
    var p0, p1, p2 := t.v0.position, t.v1.position, t.v2.position;
    Edges(p1.x - p0.x, p1.y - p0.y, p2.x - p1.x, p2.y - p1.y, p0.x - p2.x, p0.y - p2.y,
          p0.x * p1.y - p1.x * p0.y, p1.x * p2.y - p2.x * p1.y, p2.x * p0.y - p0.x * p2.y)
  }

  /** pa, pb and pc at the centre of pixel (i, j). */
  function EdgeA(e: Edges, i: int, j: int): real {
    e.abx * (j as real + 0.5) - e.aby * (i as real + 0.5) + e.c1
  }
  function EdgeB(e: Edges, i: int, j: int): real {
    e.bcx * (j as real + 0.5) - e.bcy * (i as real + 0.5) + e.c2
  }
  function EdgeC(e: Edges, i: int, j: int): real {
    e.cax * (j as real + 0.5) - e.cay * (i as real + 0.5) + e.c3
  }

  predicate Covered(e: Edges, i: int, j: int) {
    EdgeA(e, i, j) > 0.0 && EdgeB(e, i, j) > 0.0 && EdgeC(e, i, j) > 0.0
  }

  /** One column to the right lowers each edge value by its y difference,
      which is what the incremental update does. */
  lemma EdgeStep(e: Edges, i: int, j: int)
    ensures EdgeA(e, i + 1, j) == EdgeA(e, i, j) - e.aby
    ensures EdgeB(e, i + 1, j) == EdgeB(e, i, j) - e.bcy
    ensures EdgeC(e, i + 1, j) == EdgeC(e, i, j) - e.cay
  {
    var x := i as real + 0.5;
    assert (i + 1) as real + 0.5 == x + 1.0;
    assert e.aby * (x + 1.0) == e.aby * x + e.aby;
    assert e.bcy * (x + 1.0) == e.bcy * x + e.bcy;
    assert e.cay * (x + 1.0) == e.cay * x + e.cay;
  }

  /** pa is the cross product of the edge a->b with the vector from a to the
      pixel centre, so a pixel is covered exactly when its centre lies
      strictly to the left of all three edges. */
  lemma EdgeIsCross(t: Tri, i: int, j: int)
    ensures var a, b, x, y := t.v0.position, t.v1.position, i as real + 0.5, j as real + 0.5;
      EdgeA(EdgesOf(t), i, j) == (b.x - a.x) * (y - a.y) - (b.y - a.y) * (x - a.x)
  {
    var a, b, x, y := t.v0.position, t.v1.position, i as real + 0.5, j as real + 0.5;
    var dx, dy := b.x - a.x, b.y - a.y;
    assert dx * (y - a.y) == dx * y - dx * a.y;
    assert dy * (x - a.x) == dy * x - dy * a.x;
    assert dx * a.y - dy * a.x == -(a.x * b.y - b.x * a.y);
  }

  // ---------------------------------------------------------------------
  // One pixel

  /** `compute_barycentric2D` at (x, y). */
  function Barycentric(t: Tri, x: real, y: real): (real, real, real) {
    var v0, v1, v2 := t.v0.position, t.v1.position, t.v2.position;
    (FDiv(x * (v1.y - v2.y) + (v2.x - v1.x) * y + v1.x * v2.y - v2.x * v1.y,
          v0.x * (v1.y - v2.y) + (v2.x - v1.x) * v0.y + v1.x * v2.y - v2.x * v1.y),
     FDiv(x * (v2.y - v0.y) + (v0.x - v2.x) * y + v2.x * v0.y - v0.x * v2.y,
          v1.x * (v2.y - v0.y) + (v0.x - v2.x) * v1.y + v2.x * v0.y - v0.x * v2.y),
     FDiv(x * (v0.y - v1.y) + (v1.x - v0.x) * y + v0.x * v1.y - v1.x * v0.y,
          v2.x * (v0.y - v1.y) + (v1.x - v0.x) * v2.y + v0.x * v1.y - v1.x * v0.y))
  }

  /** The weights divided by each corner's w. */
  function Weights(t: Tri, i: int, j: int): (real, real, real) {
    var abc := Barycentric(t, i as real + 0.5, j as real + 0.5);
    (FDiv(abc.0, t.v0.position.w), FDiv(abc.1, t.v1.position.w), FDiv(abc.2, t.v2.position.w))
  }

  function ZCorrection(t: Tri, i: int, j: int): real {
    var k := Weights(t, i, j);
    FDiv(1.0, k.0 + k.1 + k.2)
  }

  /** The values handed to the fragment shader: each attribute interpolated
      with the corrected weights and scaled by the corrected depth. The
      position is not set by the source; zero here. */
  function Interpolated(t: Tri, i: int, j: int): V2F {
    var k, z := Weights(t, i, j), ZCorrection(t, i, j);
    V2F(Zero4,
        Scale3(z, Add3(Add3(Scale3(k.0, t.v0.color), Scale3(k.1, t.v1.color)), Scale3(k.2, t.v2.color))),
        Scale3(z, Add3(Add3(Scale3(k.0, t.v0.normal), Scale3(k.1, t.v1.normal)), Scale3(k.2, t.v2.normal))),
        Scale2(z, Add2(Add2(Scale2(k.0, t.v0.texcoords), Scale2(k.1, t.v1.texcoords)), Scale2(k.2, t.v2.texcoords))),
        Scale3(z, Add3(Add3(Scale3(k.0, t.v0.viewspacePos), Scale3(k.1, t.v1.viewspacePos)), Scale3(k.2, t.v2.viewspacePos))))
  }

  /** What a draw reads besides the triangle: the frame size and the
      fragment shader with its state. */
  datatype Context = Context(width: int, height: int, fragment: Fragment, state: FragmentState)

  datatype Frame = Frame(color: seq<Vec4>, depth: seq<real>)

  predicate Fits(ctx: Context, f: Frame) {
    ctx.width >= 0 && ctx.height >= 0 && |f.color| == ctx.width * ctx.height && |f.depth| == ctx.width * ctx.height
  }

  /** g follows f: no depth went down, and a colour changed only where the
      depth went strictly up. */
  predicate Advances(f: Frame, g: Frame) {
    && |g.color| == |f.color| && |g.depth| == |f.depth|
    && forall k :: 0 <= k < |f.depth| ==>
         f.depth[k] <= g.depth[k] && (k < |f.color| && g.color[k] != f.color[k] ==> f.depth[k] < g.depth[k])
  }

  /** The depth test of one covered pixel: a larger corrected depth is
      nearer; it replaces the stored depth and the colour. */
  function PixelStep(ctx: Context, t: Tri, f: Frame, i: int, j: int): (r: Frame)
    requires Fits(ctx, f) && 0 <= i < ctx.width && 0 <= j < ctx.height
    ensures Fits(ctx, r)
  {
    var index := FlippedIndex(ctx.width, ctx.height, i, j);
    var z := ZCorrection(t, i, j);
    if z > f.depth[index] then
      Frame(f.color[index := ctx.fragment(ctx.state, Interpolated(t, i, j))], f.depth[index := z])
    else
      f
  }

  /** One pixel's depth test touches only its own index: it takes the
      corrected depth and the shaded colour when that depth is strictly
      greater than the stored one, and keeps both otherwise. */
  lemma PixelStepEffect(ctx: Context, t: Tri, f: Frame, i: int, j: int)
    requires Fits(ctx, f) && 0 <= i < ctx.width && 0 <= j < ctx.height
    ensures var r, index, z := PixelStep(ctx, t, f, i, j), FlippedIndex(ctx.width, ctx.height, i, j), ZCorrection(t, i, j);
      && (z > f.depth[index] ==> r.depth[index] == z && r.color[index] == ctx.fragment(ctx.state, Interpolated(t, i, j)))
      && (z <= f.depth[index] ==> r.depth[index] == f.depth[index] && r.color[index] == f.color[index])
      && (forall k :: 0 <= k < |f.depth| && k != index ==> r.color[k] == f.color[k] && r.depth[k] == f.depth[k])
      && Advances(f, r)
  {
  }

  predicate BoxFits(ctx: Context, b: Box) {
    0 <= b.xmin && 0 <= b.ymin && b.xmax <= ctx.width - 1 && b.ymax <= ctx.height - 1
  }

  /** The three edge values `rasterize` carries along a row. */
  datatype EdgeValues = EdgeValues(pa: real, pb: real, pc: real)

  /** The edge values at the centre of pixel (i, j). */
  function EdgesAt(e: Edges, i: int, j: int): EdgeValues {
    EdgeValues(EdgeA(e, i, j), EdgeB(e, i, j), EdgeC(e, i, j))
  }

  /** The incremental update after each column. */
  function Next(e: Edges, p: EdgeValues): EdgeValues {
    EdgeValues(p.pa - e.aby, p.pb - e.bcy, p.pc - e.cay)
  }

  predicate Inside(p: EdgeValues) {
    p.pa > 0.0 && p.pb > 0.0 && p.pc > 0.0
  }

  /** Stepping the values one column is evaluating them one column on, so
      the row tests exactly the pixels whose centres are covered. */
  lemma NextIsEdgesAt(e: Edges, i: int, j: int)
    ensures Next(e, EdgesAt(e, i, j)) == EdgesAt(e, i + 1, j)
    ensures Inside(EdgesAt(e, i, j)) <==> Covered(e, i, j)
  {
    EdgeStep(e, i, j);
  }

  /** The rest of row j from column i, p holding the edge values there:
      covered pixels are depth-tested; the first uncovered pixel after a
      covered one ends the row. */
  function RowFrom(ctx: Context, t: Tri, b: Box, f: Frame, j: int, i: int, p: EdgeValues, entered: bool): (r: Frame)
    requires Fits(ctx, f) && BoxFits(ctx, b) && b.xmin <= i && 0 <= j < ctx.height
    ensures Fits(ctx, r)
    decreases b.xmax - i
  {
    if i >= b.xmax then f
    else if Inside(p) then RowFrom(ctx, t, b, PixelStep(ctx, t, f, i, j), j, i + 1, Next(EdgesOf(t), p), true)
    else if entered then f
    else RowFrom(ctx, t, b, f, j, i + 1, Next(EdgesOf(t), p), false)
  }

  /** Row j of the box from its first column. */
  function Row(ctx: Context, t: Tri, b: Box, f: Frame, j: int): (r: Frame)
    requires Fits(ctx, f) && BoxFits(ctx, b) && 0 <= j < ctx.height
    ensures Fits(ctx, r)
  {
    RowFrom(ctx, t, b, f, j, b.xmin, EdgesAt(EdgesOf(t), b.xmin, j), false)
  }

  /** Rows j up to (not including) ymax. */
  function RowsFrom(ctx: Context, t: Tri, b: Box, f: Frame, j: int): (r: Frame)
    requires Fits(ctx, f) && BoxFits(ctx, b) && b.ymin <= j
    ensures Fits(ctx, r)
    decreases b.ymax - j
  {
    if j >= b.ymax then f else RowsFrom(ctx, t, b, Row(ctx, t, b, f, j), j + 1)
  }

  /** `rasterize`: the box of the triangle as given, the rows of the
      re-wound triangle. */
  function DrawTriangle(ctx: Context, t: Tri, f: Frame): (r: Frame)
    requires Fits(ctx, f)
    ensures Fits(ctx, r)
  {
    var b := BoundingBox(t, ctx.width, ctx.height);
    RowsFrom(ctx, Ccw(t), b, f, b.ymin)
  }

  // ---------------------------------------------------------------------
  // Meshes

  /** The viewport matrix of `render`, written by rows. */
  function Viewport(width: int, height: int): Mat4 {
    var w, h := width as real / 2.0, height as real / 2.0;
    FromRows(Vec4(w, 0.0, 0.0, w), Vec4(0.0, h, 0.0, h), Vec4(0.0, 0.0, 1.0, 0.0), Vec4(0.0, 0.0, 0.0, 1.0))
  }

  /** A vertex after the perspective divide and the viewport, with its w
      restored. */
  function ToScreen(width: int, height: int, v: V2F): (r: V2F)
    ensures r.position.w == v.position.w
    ensures r.color == v.color && r.normal == v.normal && r.texcoords == v.texcoords && r.viewspacePos == v.viewspacePos
  {
    var p, w := v.position, v.position.w;
    var s := MulMV(Viewport(width, height), Vec4(FDiv(p.x, w), FDiv(p.y, w), FDiv(p.z, w), FDiv(p.w, w)));
    v.(position := Vec4(s.x, s.y, s.z, w))
  }

  /** The vertex stage of `render` for one vertex: the shader's output with
      its view-space position recovered through `inverse`. */
  function ShadedVertex(model: Mat4, view: Mat4, projection: Mat4, inverse: Mat4, vertex: Vertex): V2F {
    var v := VertexStage(model, view, projection, vertex);
    v.(viewspacePos := Xyz(MulMV(inverse, v.position)))
  }

  /** The shader state `render` sets up for a mesh: texture slots cleared,
      then routed from the mesh's textures, then its colours and exponent. */
  function MeshState(s: FragmentState, mesh: LegacyModels.Mesh): FragmentState {
    RouteAll(s.(diffuseTex := None, specularTex := None, normalTex := None, heightTex := None), mesh.textures)
      .(ka := mesh.ka, kd := mesh.kd, ks := mesh.ks, ns := mesh.ns)
  }

  /** Every index of a mesh names a vertex, and the list holds whole
      triangles, as the stride-3 loop of `render` needs. */
  predicate MeshReady(mesh: LegacyModels.Mesh) {
    |mesh.indices| % 3 == 0 && IndicesIn(mesh.indices, |mesh.vertices|)
  }

  /** The triangle at index position i, in screen space. */
  function ScreenTri(ctx: Context, v2fs: seq<V2F>, indices: seq<nat>, i: nat): Tri
    requires i + 2 < |indices| && IndicesIn(indices, |v2fs|)
  {
    Tri(ToScreen(ctx.width, ctx.height, v2fs[indices[i]]),
        ToScreen(ctx.width, ctx.height, v2fs[indices[i + 1]]),
        ToScreen(ctx.width, ctx.height, v2fs[indices[i + 2]]))
  }

  predicate IndicesIn(indices: seq<nat>, count: int) {
    forall k :: 0 <= k < |indices| ==> indices[k] < count
  }

  /** Below a multiple of three, a multiple of three leaves room for a
      whole triangle. */
  lemma WholeTriangleLeft(length: int, count: int, n: int)
    requires length == 3 * count && 3 * n < length
    ensures 3 * n + 2 < length && n + 1 <= count
  {
  }

  /** Triangles n, n + 1, ... (index positions 3n on), drawn in order. */
  function TrianglesFrom(ctx: Context, v2fs: seq<V2F>, indices: seq<nat>, f: Frame, n: nat): (r: Frame)
    requires Fits(ctx, f) && |indices| % 3 == 0 && 3 * n <= |indices| && IndicesIn(indices, |v2fs|)
    ensures Fits(ctx, r)
    decreases |indices| - 3 * n
  {
    if 3 * n == |indices| then f
    else TrianglesFrom(ctx, v2fs, indices, DrawTriangle(ctx, ScreenTri(ctx, v2fs, indices, 3 * n), f), n + 1)
  }

  // ---------------------------------------------------------------------
  // Drawing only ever brings pixels nearer

  lemma AdvancesTrans(f: Frame, g: Frame, h: Frame)
    requires Advances(f, g) && Advances(g, h)
    ensures Advances(f, h)
  {
  }

  lemma {:induction false} RowFromAdvances(ctx: Context, t: Tri, b: Box, f: Frame, j: int, i: int, p: EdgeValues, entered: bool)
    requires Fits(ctx, f) && BoxFits(ctx, b) && b.xmin <= i && 0 <= j < ctx.height
    ensures Advances(f, RowFrom(ctx, t, b, f, j, i, p, entered))
    decreases b.xmax - i
  {
    var q := Next(EdgesOf(t), p);
    if i >= b.xmax {
    } else if Inside(p) {
      var g := PixelStep(ctx, t, f, i, j);
      PixelStepEffect(ctx, t, f, i, j);
      RowFromAdvances(ctx, t, b, g, j, i + 1, q, true);
      AdvancesTrans(f, g, RowFrom(ctx, t, b, g, j, i + 1, q, true));
    } else if !entered {
      RowFromAdvances(ctx, t, b, f, j, i + 1, q, false);
    }
  }

  lemma {:induction false} RowsFromAdvances(ctx: Context, t: Tri, b: Box, f: Frame, j: int)
    requires Fits(ctx, f) && BoxFits(ctx, b) && b.ymin <= j
    ensures Advances(f, RowsFrom(ctx, t, b, f, j))
    decreases b.ymax - j
  {
    if j < b.ymax {
      var g := Row(ctx, t, b, f, j);
      RowFromAdvances(ctx, t, b, f, j, b.xmin, EdgesAt(EdgesOf(t), b.xmin, j), false);
      RowsFromAdvances(ctx, t, b, g, j + 1);
      AdvancesTrans(f, g, RowsFrom(ctx, t, b, g, j + 1));
    }
  }

  /** Drawing a triangle never lowers a depth, and changes a colour only
      where it raised the depth there. */
  lemma DrawTriangleAdvances(ctx: Context, t: Tri, f: Frame)
    requires Fits(ctx, f)
    ensures Advances(f, DrawTriangle(ctx, t, f))
  {
    var b := BoundingBox(t, ctx.width, ctx.height);
    RowsFromAdvances(ctx, Ccw(t), b, f, b.ymin);
  }

  lemma {:induction false} TrianglesFromAdvances(ctx: Context, v2fs: seq<V2F>, indices: seq<nat>, f: Frame, n: nat)
    requires Fits(ctx, f) && |indices| % 3 == 0 && 3 * n <= |indices| && IndicesIn(indices, |v2fs|)
    ensures Advances(f, TrianglesFrom(ctx, v2fs, indices, f, n))
    decreases |indices| - 3 * n
  {
    if 3 * n < |indices| {
      WholeTriangleLeft(|indices|, |indices| / 3, n);
      var t := ScreenTri(ctx, v2fs, indices, 3 * n);
      var g := DrawTriangle(ctx, t, f);
      DrawTriangleAdvances(ctx, t, f);
      TrianglesFromAdvances(ctx, v2fs, indices, g, n + 1);
      AdvancesTrans(f, g, TrianglesFrom(ctx, v2fs, indices, g, n + 1));
    }
  }

  // ---------------------------------------------------------------------
  // Where a triangle draws

  /** Buffer index k is the flipped index of a pixel whose column lies in
      [xmin, xmax) and whose row lies in [j, ymax). */
  predicate InRows(ctx: Context, b: Box, j: int, k: int) {
    ctx.width > 0 && b.xmin <= k % ctx.width < b.xmax && j <= ctx.height - 1 - k / ctx.width < b.ymax
  }

  /** The rest of row j touches only pixels of that row from column i to
      xmax (exclusive). */
  lemma {:induction false} RowFromStaysInRow(ctx: Context, t: Tri, b: Box, f: Frame, j: int, i: int, p: EdgeValues, entered: bool, k: int)
    requires Fits(ctx, f) && BoxFits(ctx, b) && b.xmin <= i && 0 <= j < ctx.height && 0 <= k < |f.depth|
    requires !(ctx.width > 0 && i <= k % ctx.width < b.xmax && k / ctx.width == ctx.height - 1 - j)
    ensures RowFrom(ctx, t, b, f, j, i, p, entered).color[k] == f.color[k]
    ensures RowFrom(ctx, t, b, f, j, i, p, entered).depth[k] == f.depth[k]
    decreases b.xmax - i
  {
    var q := Next(EdgesOf(t), p);
    if i < b.xmax {
      if Inside(p) {
        var index := FlippedIndex(ctx.width, ctx.height, i, j);
        assert k != index;
        PixelStepEffect(ctx, t, f, i, j);
        RowFromStaysInRow(ctx, t, b, PixelStep(ctx, t, f, i, j), j, i + 1, q, true, k);
      } else if !entered {
        RowFromStaysInRow(ctx, t, b, f, j, i + 1, q, false, k);
      }
    }
  }

  lemma {:induction false} RowsFromStaysInBox(ctx: Context, t: Tri, b: Box, f: Frame, j: int, k: int)
    requires Fits(ctx, f) && BoxFits(ctx, b) && b.ymin <= j && 0 <= k < |f.depth| && !InRows(ctx, b, j, k)
    ensures RowsFrom(ctx, t, b, f, j).color[k] == f.color[k] && RowsFrom(ctx, t, b, f, j).depth[k] == f.depth[k]
    decreases b.ymax - j
  {
    if j < b.ymax {
      RowFromStaysInRow(ctx, t, b, f, j, b.xmin, EdgesAt(EdgesOf(t), b.xmin, j), false, k);
      RowsFromStaysInBox(ctx, t, b, Row(ctx, t, b, f, j), j + 1, k);
    }
  }

  /** A triangle changes no pixel outside its clipped bounding box, whose
      upper bounds the scan excludes. */
  lemma DrawTriangleStaysInBox(ctx: Context, t: Tri, f: Frame, k: int)
    requires Fits(ctx, f) && 0 <= k < |f.depth|
    requires var b := BoundingBox(t, ctx.width, ctx.height); !InRows(ctx, b, b.ymin, k)
    ensures DrawTriangle(ctx, t, f).color[k] == f.color[k] && DrawTriangle(ctx, t, f).depth[k] == f.depth[k]
  {
    var b := BoundingBox(t, ctx.width, ctx.height);
    RowsFromStaysInBox(ctx, Ccw(t), b, f, b.ymin, k);
  }

  // ---------------------------------------------------------------------
  // What a triangle draws

  /** Moving right never raises an edge value whose y difference is not
      negative. */
  lemma {:induction false} EdgesFall(e: Edges, i: int, j: int, x: int)
    requires i <= x
    ensures e.aby >= 0.0 ==> EdgeA(e, x, j) <= EdgeA(e, i, j)
    ensures e.bcy >= 0.0 ==> EdgeB(e, x, j) <= EdgeB(e, i, j)
    ensures e.cay >= 0.0 ==> EdgeC(e, x, j) <= EdgeC(e, i, j)
    decreases x - i
  {
    if x > i {
      EdgesFall(e, i, j, x - 1);
      EdgeStep(e, x - 1, j);
    }
  }

  /** The covered pixels of a row are contiguous: once a row leaves the
      triangle it does not come back, so ending the row at the first
      uncovered pixel after a covered one skips no covered pixel. */
  lemma LeavingStaysOut(e: Edges, i: int, j: int, x: int)
    requires Covered(e, i - 1, j) && !Covered(e, i, j) && i <= x
    ensures !Covered(e, x, j)
  {
    EdgeStep(e, i - 1, j);
    EdgesFall(e, i, j, x);
  }

  /** The depth test at a pixel depends only on that pixel's stored colour
      and depth. */
  lemma PixelStepLocal(ctx: Context, t: Tri, f: Frame, g: Frame, i: int, j: int)
    requires Fits(ctx, f) && Fits(ctx, g) && 0 <= i < ctx.width && 0 <= j < ctx.height
    requires var k := FlippedIndex(ctx.width, ctx.height, i, j); f.color[k] == g.color[k] && f.depth[k] == g.depth[k]
    ensures var k := FlippedIndex(ctx.width, ctx.height, i, j);
      PixelStep(ctx, t, f, i, j).color[k] == PixelStep(ctx, t, g, i, j).color[k]
      && PixelStep(ctx, t, f, i, j).depth[k] == PixelStep(ctx, t, g, i, j).depth[k]
  {
    PixelStepEffect(ctx, t, f, i, j);
    PixelStepEffect(ctx, t, g, i, j);
  }

  /** Buffer index k is the flipped index of a covered pixel of row j at a
      column in [i, xmax). */
  predicate DrawsAt(ctx: Context, e: Edges, b: Box, j: int, i: int, k: int) {
    ctx.width > 0 && i <= k % ctx.width < b.xmax && k / ctx.width == ctx.height - 1 - j && Covered(e, k % ctx.width, j)
  }

  /** Buffer index k is the flipped index of a covered pixel whose column
      lies in [xmin, xmax) and whose row lies in [j, ymax). */
  predicate DrawnIn(ctx: Context, e: Edges, b: Box, j: int, k: int) {
    InRows(ctx, b, j, k) && Covered(e, k % ctx.width, ctx.height - 1 - k / ctx.width)
  }

  /** The rest of row j depth-tests every covered pixel from column i to
      xmax exactly once, and leaves every other entry alone: the early
      exit loses nothing. */
  lemma {:induction false} RowFromAt(ctx: Context, t: Tri, b: Box, f: Frame, j: int, i: int, p: EdgeValues, entered: bool, k: int)
    requires Fits(ctx, f) && BoxFits(ctx, b) && b.xmin <= i && 0 <= j < ctx.height && 0 <= k < |f.depth|
    requires p == EdgesAt(EdgesOf(t), i, j) && (entered ==> Covered(EdgesOf(t), i - 1, j))
    ensures var r := RowFrom(ctx, t, b, f, j, i, p, entered);
      DrawsAt(ctx, EdgesOf(t), b, j, i, k) ==>
        r.color[k] == PixelStep(ctx, t, f, k % ctx.width, j).color[k] && r.depth[k] == PixelStep(ctx, t, f, k % ctx.width, j).depth[k]
    ensures var r := RowFrom(ctx, t, b, f, j, i, p, entered);
      !DrawsAt(ctx, EdgesOf(t), b, j, i, k) ==> r.color[k] == f.color[k] && r.depth[k] == f.depth[k]
    decreases b.xmax - i
  {
    var e := EdgesOf(t);
    NextIsEdgesAt(e, i, j);
    var q := Next(e, p);
    if i < b.xmax {
      var index := FlippedIndex(ctx.width, ctx.height, i, j);
      var onRow := k / ctx.width == ctx.height - 1 - j;
      if onRow {
        FlippedIndexOnto(ctx.width, ctx.height, k);
      }
      if Inside(p) {
        var g := PixelStep(ctx, t, f, i, j);
        PixelStepEffect(ctx, t, f, i, j);
        RowFromAt(ctx, t, b, g, j, i + 1, q, true, k);
        if k != index && DrawsAt(ctx, e, b, j, i, k) {
          PixelStepLocal(ctx, t, f, g, k % ctx.width, j);
        }
      } else if entered {
        if onRow && i <= k % ctx.width {
          LeavingStaysOut(e, i, j, k % ctx.width);
        }
      } else {
        RowFromAt(ctx, t, b, f, j, i + 1, q, false, k);
      }
    }
  }

  /** The rows from j to ymax depth-test every covered pixel of the box
      below row j's start exactly once and leave every other entry alone. */
  lemma {:induction false} RowsFromAt(ctx: Context, t: Tri, b: Box, f: Frame, j: int, k: int)
    requires Fits(ctx, f) && BoxFits(ctx, b) && b.ymin <= j && 0 <= k < |f.depth|
    ensures var r, y := RowsFrom(ctx, t, b, f, j), ctx.height - 1 - k / ctx.width;
      DrawnIn(ctx, EdgesOf(t), b, j, k) ==>
        r.color[k] == PixelStep(ctx, t, f, k % ctx.width, y).color[k] && r.depth[k] == PixelStep(ctx, t, f, k % ctx.width, y).depth[k]
    ensures var r := RowsFrom(ctx, t, b, f, j);
      !DrawnIn(ctx, EdgesOf(t), b, j, k) ==> r.color[k] == f.color[k] && r.depth[k] == f.depth[k]
    decreases b.ymax - j
  {
    if j < b.ymax {
      var e := EdgesOf(t);
      var g := Row(ctx, t, b, f, j);
      RowFromAt(ctx, t, b, f, j, b.xmin, EdgesAt(e, b.xmin, j), false, k);
      RowsFromAt(ctx, t, b, g, j + 1, k);
      if DrawnIn(ctx, e, b, j + 1, k) {
        var y := ctx.height - 1 - k / ctx.width;
        FlippedIndexOnto(ctx.width, ctx.height, k);
        PixelStepLocal(ctx, t, f, g, k % ctx.width, y);
      }
    }
  }

  /** `rasterize` depth-tests exactly the pixels of the clipped box (upper
      bounds excluded) whose centres the re-wound triangle covers, each
      once, and leaves every other entry of both buffers alone. */
  lemma DrawTriangleAt(ctx: Context, t: Tri, f: Frame, k: int)
    requires Fits(ctx, f) && 0 <= k < |f.depth|
    ensures var r, b, y := DrawTriangle(ctx, t, f), BoundingBox(t, ctx.width, ctx.height), ctx.height - 1 - k / ctx.width;
      DrawnIn(ctx, EdgesOf(Ccw(t)), b, b.ymin, k) ==>
        r.color[k] == PixelStep(ctx, Ccw(t), f, k % ctx.width, y).color[k] && r.depth[k] == PixelStep(ctx, Ccw(t), f, k % ctx.width, y).depth[k]
    ensures var r, b := DrawTriangle(ctx, t, f), BoundingBox(t, ctx.width, ctx.height);
      !DrawnIn(ctx, EdgesOf(Ccw(t)), b, b.ymin, k) ==> r.color[k] == f.color[k] && r.depth[k] == f.depth[k]
  {
    var b := BoundingBox(t, ctx.width, ctx.height);
    RowsFromAt(ctx, Ccw(t), b, f, b.ymin, k);
  }

  // ---------------------------------------------------------------------
  // Meshes and models

  /** What a draw takes from the vertex shader and the caller: the three
      matrices, matrix inversion, and the fragment shader's lighting. */
  datatype Pipeline = Pipeline(model: Mat4, view: Mat4, projection: Mat4, invert: Mat4 -> Mat4, fragment: Fragment)

  /** The shaded vertices of a mesh, view-space positions recovered through
      the inverse of projection * view. */
  function MeshV2Fs(p: Pipeline, vertices: seq<Vertex>): (r: seq<V2F>)
    ensures |r| == |vertices|
  {
    seq(|vertices|, k requires 0 <= k < |vertices| =>
      ShadedVertex(p.model, p.view, p.projection, p.invert(MulMM(p.projection, p.view)), vertices[k]))
  }

  /** `render(Mesh)`: the triangles of the mesh in index order, drawn with
      the shader state set up for it. */
  function DrawMesh(width: int, height: int, p: Pipeline, s: FragmentState, mesh: LegacyModels.Mesh, f: Frame): (r: Frame)
    requires Fits(Context(width, height, p.fragment, s), f) && MeshReady(mesh)
    ensures Fits(Context(width, height, p.fragment, s), r)
  {
    TrianglesFrom(Context(width, height, p.fragment, MeshState(s, mesh)), MeshV2Fs(p, mesh.vertices), mesh.indices, f, 0)
  }

  predicate MeshesReady(meshes: seq<LegacyModels.Mesh>) {
    forall m :: 0 <= m < |meshes| ==> MeshReady(meshes[m])
  }

  /** The shader state and the frame after drawing. */
  datatype Drawn = Drawn(state: FragmentState, frame: Frame)

  /** The meshes from position k on, drawn in order, each with the shader
      state the previous one left. */
  function MeshesFrom(width: int, height: int, p: Pipeline, meshes: seq<LegacyModels.Mesh>, s: FragmentState, f: Frame, k: nat): (r: Drawn)
    requires Fits(Context(width, height, p.fragment, s), f) && k <= |meshes| && MeshesReady(meshes)
    ensures Fits(Context(width, height, p.fragment, s), r.frame)
    decreases |meshes| - k
  {
    if k == |meshes| then Drawn(s, f)
    else MeshesFrom(width, height, p, meshes, MeshState(s, meshes[k]), DrawMesh(width, height, p, s, meshes[k], f), k + 1)
  }

  /** Drawing meshes only ever brings pixels nearer. */
  lemma {:induction false} MeshesFromAdvances(width: int, height: int, p: Pipeline, meshes: seq<LegacyModels.Mesh>, s: FragmentState, f: Frame, k: nat)
    requires Fits(Context(width, height, p.fragment, s), f) && k <= |meshes| && MeshesReady(meshes)
    ensures Advances(f, MeshesFrom(width, height, p, meshes, s, f, k).frame)
    decreases |meshes| - k
  {
    if k < |meshes| {
      var m := meshes[k];
      var g := DrawMesh(width, height, p, s, m, f);
      TrianglesFromAdvances(Context(width, height, p.fragment, MeshState(s, m)), MeshV2Fs(p, m.vertices), m.indices, f, 0);
      MeshesFromAdvances(width, height, p, meshes, MeshState(s, m), g, k + 1);
      AdvancesTrans(f, g, MeshesFrom(width, height, p, meshes, MeshState(s, m), g, k + 1).frame);
    }
  }

  /** After a non-empty model the shader holds the last mesh's colours and
      exponent, its last texture of each routed type (or none), no height
      texture, and the eye position it started with. */
  lemma {:induction false} MeshesFromLeavesLastMesh(width: int, height: int, p: Pipeline, meshes: seq<LegacyModels.Mesh>,
                                                     s: FragmentState, f: Frame, k: nat)
    requires Fits(Context(width, height, p.fragment, s), f) && k < |meshes| && MeshesReady(meshes)
    ensures var r, last := MeshesFrom(width, height, p, meshes, s, f, k).state, meshes[|meshes| - 1];
      && r.ka == last.ka && r.kd == last.kd && r.ks == last.ks && r.ns == last.ns
      && r.diffuseTex == LastOfKind(last.textures, "texture_diffuse")
      && r.specularTex == LastOfKind(last.textures, "texture_specular")
      && r.normalTex == LastOfKind(last.textures, "texture_normal")
      && r.heightTex.None? && r.eyePos == s.eyePos
    decreases |meshes| - k
  {
    var m := meshes[k];
    RouteAllPicksLast(s.(diffuseTex := None, specularTex := None, normalTex := None, heightTex := None), m.textures);
    if k + 1 < |meshes| {
      MeshesFromLeavesLastMesh(width, height, p, meshes, MeshState(s, m), DrawMesh(width, height, p, s, m, f), k + 1);
    }
  }

  // ---------------------------------------------------------------------
  // Frame output

  /** `static_cast<unsigned char>` of a float: truncation, then the low
      eight bits. Only [0, 256) is defined in C++; outside it the model
      wraps. */
  function UCharCast(x: real): (b: bv8)
    ensures 0.0 <= x < 256.0 ==> b as int == x.Floor
  {
    var n := Trunc(x) % 256;
    assert 0.0 <= x < 256.0 ==> n == Trunc(x) == x.Floor;
    n as bv8
  }

  /** The four bytes of one colour, in channel order. */
  function PixelBytes(c: Vec4): (r: seq<bv8>)
    ensures |r| == 4
  {
    [UCharCast(c.x), UCharCast(c.y), UCharCast(c.z), UCharCast(c.w)]
  }

  /** The byte frame `generate_frame` writes: the colours' bytes one pixel
      after another. */
  function FrameBytes(colors: seq<Vec4>): (r: seq<bv8>)
    ensures |r| == 4 * |colors|
  {
    if |colors| == 0 then [] else FrameBytes(colors[..|colors| - 1]) + PixelBytes(colors[|colors| - 1])
  }

  /** Bytes 4p to 4p + 3 of the frame are the bytes of colour p. */
  lemma {:induction false} FrameBytesAt(colors: seq<Vec4>, p: int)
    requires 0 <= p < |colors|
    ensures FrameBytes(colors)[4 * p .. 4 * p + 4] == PixelBytes(colors[p])
  {
    var n := |colors| - 1;
    var front, last := FrameBytes(colors[..n]), PixelBytes(colors[n]);
    assert FrameBytes(colors) == front + last;
    Grid.QuadOfConcat(front, last, p);
    if p < n {
      FrameBytesAt(colors[..n], p);
      assert colors[..n][p] == colors[p];
    }
  }

  /** A whole number in [0, 255] survives the cast to a byte. */
  lemma UCharCastExact(x: real)
    requires 0.0 <= x <= 255.0 && x == x.Floor as real
    ensures ByteValue(UCharCast(x)) == x
  {
  }

  /** A colour whose channels are whole numbers in [0, 255] comes out of the
      byte frame unchanged: bytes 4p to 4p + 3 read back as its channels. */
  lemma FrameBytesExact(colors: seq<Vec4>, p: int)
    requires 0 <= p < |colors|
    requires var c := colors[p];
      && 0.0 <= c.x <= 255.0 && c.x == c.x.Floor as real && 0.0 <= c.y <= 255.0 && c.y == c.y.Floor as real
      && 0.0 <= c.z <= 255.0 && c.z == c.z.Floor as real && 0.0 <= c.w <= 255.0 && c.w == c.w.Floor as real
    ensures ByteValue(FrameBytes(colors)[4 * p]) == colors[p].x
    ensures ByteValue(FrameBytes(colors)[4 * p + 1]) == colors[p].y
    ensures ByteValue(FrameBytes(colors)[4 * p + 2]) == colors[p].z
    ensures ByteValue(FrameBytes(colors)[4 * p + 3]) == colors[p].w
  {
    var c := colors[p];
    var r, q := FrameBytes(colors), PixelBytes(c);
    FrameBytesAt(colors, p);
    Grid.QuadAt(r, p, q);
    UCharCastExact(c.x);
    UCharCastExact(c.y);
    UCharCastExact(c.z);
    UCharCastExact(c.w);
  }

  /** One pixel of `generate_frame`: the four channel bytes of colour i go to
      bytes 4i to 4i + 3, which extends the finished prefix by one pixel. */
  method WritePixelBytes(bytes: seq<bv8>, colors: seq<Vec4>, i: nat) returns (r: seq<bv8>)
    requires |bytes| == 4 * |colors| && i < |colors|
    requires bytes[..4 * i] == FrameBytes(colors[..i])
    ensures |r| == |bytes| && r[..4 * (i + 1)] == FrameBytes(colors[..i + 1])
  {
    var c := colors[i];
    r := bytes[4 * i := UCharCast(c.x)][4 * i + 1 := UCharCast(c.y)][4 * i + 2 := UCharCast(c.z)][4 * i + 3 := UCharCast(c.w)];
    assert colors[..i + 1][..i] == colors[..i];
    Grid.QuadWrite(bytes, i, PixelBytes(c));
  }

  /** The viewport step of `render`, in place on the three corners. */
  method ViewportTransform(v: array<V2F>, width: int, height: int)
    requires v.Length == 3
    modifies v
    ensures forall k :: 0 <= k < 3 ==> v[k] == ToScreen(width, height, old(v[k]))
  {
    var viewport := Viewport(width, height);
    for j := 0 to 3
      invariant forall k :: 0 <= k < j ==> v[k] == ToScreen(width, height, old(v[k]))
      invariant forall k :: j <= k < 3 ==> v[k] == old(v[k])
    {
      var w := v[j].position.w;
      var p := v[j].position;
      var s := MulMV(viewport, Vec4(FDiv(p.x, w), FDiv(p.y, w), FDiv(p.z, w), FDiv(p.w, w)));
      v[j] := v[j].(position := Vec4(s.x, s.y, s.z, w));
    }
  }

  // ---------------------------------------------------------------------
  // The scan of `rasterize`, on frame values

  /** One covered pixel: barycentric weights, perspective correction, the
      depth test, and the fragment shader's colour. */
  method ShadePixel(ctx: Context, t: Tri, f: Frame, i: int, j: int) returns (g: Frame)
    requires Fits(ctx, f) && 0 <= i < ctx.width && 0 <= j < ctx.height
    ensures g == PixelStep(ctx, t, f, i, j)
  {
    var abc := Barycentric(t, i as real + 0.5, j as real + 0.5);
    var alpha, beta, gamma := FDiv(abc.0, t.v0.position.w), FDiv(abc.1, t.v1.position.w), FDiv(abc.2, t.v2.position.w);
    var z := FDiv(1.0, alpha + beta + gamma);
    var index := FlippedIndex(ctx.width, ctx.height, i, j);
    g := f;
    if z > f.depth[index] {
      g := Frame(f.color[index := ctx.fragment(ctx.state, Interpolated(t, i, j))], f.depth[index := z]);
    }
  }

  /** One column of the inner loop: a covered pixel is shaded; an uncovered
      one after a covered one stops the row. */
  method ScanPixel(ctx: Context, t: Tri, b: Box, f: Frame, j: int, i: int, p: EdgeValues, entered: bool)
    returns (g: Frame, entered': bool, stop: bool)
    requires Fits(ctx, f) && BoxFits(ctx, b) && b.xmin <= i < b.xmax && 0 <= j < ctx.height
    ensures Fits(ctx, g)
    ensures stop ==> g == RowFrom(ctx, t, b, f, j, i, p, entered)
    ensures !stop ==> RowFrom(ctx, t, b, g, j, i + 1, Next(EdgesOf(t), p), entered') == RowFrom(ctx, t, b, f, j, i, p, entered)
  {
    g, entered', stop := f, entered, false;
    if p.pa > 0.0 && p.pb > 0.0 && p.pc > 0.0 {
      g := ShadePixel(ctx, t, f, i, j);
      entered' := true;
    } else if entered {
      stop := true;
    }
  }

  /** The three edge functions at the first column of row j. */
  method RowStart(e: Edges, b: Box, j: int) returns (p: EdgeValues)
    ensures p == EdgesAt(e, b.xmin, j)
  {
    var pa := e.abx * (j as real + 0.5) - e.aby * (b.xmin as real + 0.5) + e.c1;
    var pb := e.bcx * (j as real + 0.5) - e.bcy * (b.xmin as real + 0.5) + e.c2;
    var pc := e.cax * (j as real + 0.5) - e.cay * (b.xmin as real + 0.5) + e.c3;
    p := EdgeValues(pa, pb, pc);
  }

  /** The inner loop: edge values stepped one column at a time, leaving the
      row at the first uncovered pixel after a covered one. */
  method ScanRow(ctx: Context, t: Tri, b: Box, f: Frame, j: int) returns (g: Frame)
    requires Fits(ctx, f) && BoxFits(ctx, b) && 0 <= j < ctx.height
    ensures g == Row(ctx, t, b, f, j)
  {
    var e := EdgesOf(t);
    var p := RowStart(e, b, j);
    var entered := false;
    var i := b.xmin;
    g := f;
    while i < b.xmax
      invariant b.xmin <= i && Fits(ctx, g)
      invariant RowFrom(ctx, t, b, g, j, i, p, entered) == Row(ctx, t, b, f, j)
    {
      var stop;
      g, entered, stop := ScanPixel(ctx, t, b, g, j, i, p, entered);
      if stop {
        break;
      }
      p := EdgeValues(p.pa - e.aby, p.pb - e.bcy, p.pc - e.cay);
      i := i + 1;
    }
  }

  /** The outer loop: the rows of the box, upper bound excluded. */
  method ScanBox(ctx: Context, t: Tri, b: Box, f: Frame) returns (g: Frame)
    requires Fits(ctx, f) && BoxFits(ctx, b)
    ensures g == RowsFrom(ctx, t, b, f, b.ymin)
  {
    g := f;
    var j := b.ymin;
    while j < b.ymax
      invariant b.ymin <= j && Fits(ctx, g)
      invariant RowsFrom(ctx, t, b, g, j) == RowsFrom(ctx, t, b, f, b.ymin)
    {
      g := ScanRow(ctx, t, b, g, j);
      j := j + 1;
    }
  }

  /** Primitive assembly for the triangle at index position i: its three
      shaded vertices through the perspective divide and the viewport. */
  method AssembleTriangle(ctx: Context, v2fs: seq<V2F>, indices: seq<nat>, i: nat) returns (v: array<V2F>)
    requires i + 2 < |indices| && IndicesIn(indices, |v2fs|)
    ensures fresh(v) && v.Length == 3 && Tri(v[0], v[1], v[2]) == ScreenTri(ctx, v2fs, indices, i)
  {
    v := new V2F[3][v2fs[indices[i]], v2fs[indices[i + 1]], v2fs[indices[i + 2]]];
    ViewportTransform(v, ctx.width, ctx.height);
  }

  // ---------------------------------------------------------------------
  // The renderer

  class LegacyRenderer {
    const frameBuffer: FrameBuffer
    const colorBuffer: Buffer<Vec4>
    const depthBuffer: Buffer<real>

    /** The three buffers share one size; the byte frame holds four bytes
        per pixel. */
    ghost predicate Valid()
      reads this, frameBuffer, colorBuffer, depthBuffer
    {
      && frameBuffer.width >= 0 && frameBuffer.height >= 0
      && colorBuffer.width == depthBuffer.width == frameBuffer.width
      && colorBuffer.height == depthBuffer.height == frameBuffer.height
      && |colorBuffer.buf| == |depthBuffer.buf| == frameBuffer.width * frameBuffer.height
      && |frameBuffer.buf| == 4 * |colorBuffer.buf|
    }

    /** The colour and depth buffers as one frame. */
    function Current(): Frame
      reads colorBuffer, depthBuffer
    {
      Frame(colorBuffer.buf, depthBuffer.buf)
    }

    /** What `reset_buffer` leaves: transparent black, the lowest depth, zero
        bytes. */
    ghost predicate Cleared()
      reads colorBuffer, depthBuffer, frameBuffer
    {
      && (forall k :: 0 <= k < |colorBuffer.buf| ==> colorBuffer.buf[k] == Zero4)
      && (forall k :: 0 <= k < |depthBuffer.buf| ==> depthBuffer.buf[k] == FloatLowest)
      && frameBuffer.Zeroed()
    }

    /** `Renderer(width, height)`: three buffers of that size. The depth
        floats are value-initialised to 0; the colours, uninitialised in the
        source, are zero here. */
    constructor (width: nat, height: nat)
      ensures Valid() && frameBuffer.width == width && frameBuffer.height == height
      ensures frameBuffer.Zeroed()
      ensures forall k :: 0 <= k < |depthBuffer.buf| ==> depthBuffer.buf[k] == 0.0 && colorBuffer.buf[k] == Zero4
    {
      frameBuffer := new FrameBuffer(width, height);
      colorBuffer := new Buffer(width, height, Zero4);
      depthBuffer := new Buffer(width, height, 0.0);
    }

    /** `reset_buffer`. */
    method ResetBuffer()
      requires Valid()
      modifies colorBuffer`buf, depthBuffer`buf, frameBuffer`buf
      ensures Valid() && Cleared()
    {
      colorBuffer.Reset(Zero4);
      depthBuffer.Reset(FloatLowest);
      frameBuffer.Reset();
    }

    /** `rasterize`: the corners are re-wound in place and the rows of the
        bounding box are scanned into the colour and depth buffers. */
    method Rasterize(v: array<V2F>, fs: FragmentShader, fragment: Fragment)
      requires Valid() && v.Length == 3
      modifies v, colorBuffer`buf, depthBuffer`buf
      ensures Valid()
      ensures Tri(v[0], v[1], v[2]) == Ccw(old(Tri(v[0], v[1], v[2])))
      ensures Current() == DrawTriangle(Context(frameBuffer.width, frameBuffer.height, fragment, fs.State()),
                                        old(Tri(v[0], v[1], v[2])), old(Current()))
    {
      var b := BoundingBox(Tri(v[0], v[1], v[2]), frameBuffer.width, frameBuffer.height);
      Counterclockwise(v);
      var ctx := Context(frameBuffer.width, frameBuffer.height, fragment, fs.State());
      var g := ScanBox(ctx, Tri(v[0], v[1], v[2]), b, Current());
      colorBuffer.buf, depthBuffer.buf := g.color, g.depth;
    }

    /** `render(Mesh)`: every vertex through the vertex shader, view-space
        positions through the inverse of projection * view, the shader set
        up for the mesh, then each triangle of three indices taken through
        the perspective divide and the viewport and rasterized. */
    method RenderMesh(mesh: LegacyModels.Mesh, vs: VertexShader, fs: FragmentShader, invert: Mat4 -> Mat4, fragment: Fragment)
      requires Valid() && MeshReady(mesh)
      modifies fs, colorBuffer`buf, depthBuffer`buf
      ensures Valid()
      ensures fs.State() == MeshState(old(fs.State()), mesh)
      ensures Current() == DrawMesh(frameBuffer.width, frameBuffer.height, Pipeline(vs.model, vs.view, vs.projection, invert, fragment),
                                    old(fs.State()), mesh, old(Current()))
    {
      var v2fs := ShadeVertices(mesh.vertices, vs, invert);
      SetUpShader(mesh, fs);
      DrawTriangles(v2fs, mesh.indices, fs, fragment);
    }

    /** The primitive loop of `render(Mesh)`: each three indices make a
        triangle, taken through the perspective divide and the viewport and
        rasterized. */
    method DrawTriangles(v2fs: seq<V2F>, indices: seq<nat>, fs: FragmentShader, fragment: Fragment)
      requires Valid() && |indices| % 3 == 0 && IndicesIn(indices, |v2fs|)
      modifies colorBuffer`buf, depthBuffer`buf
      ensures Valid()
      ensures Current() == TrianglesFrom(Context(frameBuffer.width, frameBuffer.height, fragment, fs.State()), v2fs, indices, old(Current()), 0)
    {
      var ctx := Context(frameBuffer.width, frameBuffer.height, fragment, fs.State());
      ghost var count := |indices| / 3;
      assert |indices| == 3 * count;
      var i := 0;
      ghost var n := 0;
      while i < |indices|
        invariant i == 3 * n && n <= count && Valid()
        invariant TrianglesFrom(ctx, v2fs, indices, Current(), n) == TrianglesFrom(ctx, v2fs, indices, old(Current()), 0)
      {
        WholeTriangleLeft(|indices|, count, n);
        var v := AssembleTriangle(ctx, v2fs, indices, i);
        Rasterize(v, fs, fragment);
        i, n := i + 3, n + 1;
      }
    }

    /** The two vertex loops of `render(Mesh)`. */
    method ShadeVertices(vertices: seq<Vertex>, vs: VertexShader, invert: Mat4 -> Mat4) returns (v2fs: seq<V2F>)
      ensures v2fs == MeshV2Fs(Pipeline(vs.model, vs.view, vs.projection, invert, (s, v) => Zero4), vertices)
    {
      v2fs := [];
      var k := 0;
      while k < |vertices|
        invariant 0 <= k <= |vertices| && |v2fs| == k
        invariant forall m :: 0 <= m < k ==> v2fs[m] == VertexStage(vs.model, vs.view, vs.projection, vertices[m])
      {
        var o := vs.Shade(vertices[k]);
        v2fs := v2fs + [o];
        k := k + 1;
      }
      var projection := vs.GetProjection();
      var view := vs.GetView();
      var inverse := invert(MulMM(projection, view));
      k := 0;
      while k < |v2fs|
        invariant 0 <= k <= |v2fs| == |vertices|
        invariant forall m :: 0 <= m < k ==> v2fs[m] == ShadedVertex(vs.model, vs.view, vs.projection, inverse, vertices[m])
        invariant forall m :: k <= m < |v2fs| ==> v2fs[m] == VertexStage(vs.model, vs.view, vs.projection, vertices[m])
      {
        var pos := MulMV(inverse, v2fs[k].position);
        v2fs := v2fs[k := v2fs[k].(viewspacePos := Vec3(pos.x, pos.y, pos.z))];
        k := k + 1;
      }
    }

    /** The shader set-up of `render(Mesh)`: texture pointers cleared, each
        texture routed, then the mesh's colours and exponent. */
    method SetUpShader(mesh: LegacyModels.Mesh, fs: FragmentShader)
      modifies fs
      ensures fs.State() == MeshState(old(fs.State()), mesh)
    {
      fs.ResetTexture();
      var s0 := fs.State();
      var k := 0;
      while k < |mesh.textures|
        invariant 0 <= k <= |mesh.textures|
        invariant fs.State() == RouteAll(s0, mesh.textures[..k])
      {
        SetTexture(fs, mesh.textures[k]);
        assert mesh.textures[..k + 1][..k] == mesh.textures[..k];
        k := k + 1;
      }
      assert mesh.textures[..k] == mesh.textures;
      fs.SetKa(mesh.ka);
      fs.SetKd(mesh.kd);
      fs.SetKs(mesh.ks);
      fs.SetNs(mesh.ns);
    }

    /** `render(Model)`: the meshes in order. */
    method RenderModel(model: LegacyModels.Model, vs: VertexShader, fs: FragmentShader, invert: Mat4 -> Mat4, fragment: Fragment)
      requires Valid() && MeshesReady(model.meshes)
      modifies fs, colorBuffer`buf, depthBuffer`buf
      ensures Valid()
      ensures Drawn(fs.State(), Current()) == MeshesFrom(frameBuffer.width, frameBuffer.height,
        Pipeline(vs.model, vs.view, vs.projection, invert, fragment), model.meshes, old(fs.State()), old(Current()), 0)
    {
      var p := Pipeline(vs.model, vs.view, vs.projection, invert, fragment);
      var meshes, w, h := model.meshes, frameBuffer.width, frameBuffer.height;
      ghost var goal := MeshesFrom(w, h, p, meshes, fs.State(), Current(), 0);
      var k := 0;
      while k < |meshes|
        invariant 0 <= k <= |meshes| && Valid()
        invariant MeshesFrom(w, h, p, meshes, fs.State(), Current(), k) == goal
      {
        ghost var s, f := fs.State(), Current();
        RenderMesh(meshes[k], vs, fs, invert, fragment);
        assert Drawn(fs.State(), Current()) == Drawn(MeshState(s, meshes[k]), DrawMesh(w, h, p, s, meshes[k], f));
        k := k + 1;
      }
    }

    /** `generate_frame`: each colour's four channels cast to bytes. */
    method GenerateFrame()
      requires Valid()
      modifies frameBuffer`buf
      ensures Valid() && frameBuffer.buf == FrameBytes(colorBuffer.buf)
    {
      var len := |colorBuffer.buf|;
      var i := 0;
      while i < len
        invariant 0 <= i <= len && Valid()
        invariant frameBuffer.buf[..4 * i] == FrameBytes(colorBuffer.buf[..i])
      {
        frameBuffer.buf := WritePixelBytes(frameBuffer.buf, colorBuffer.buf, i);
        i := i + 1;
      }
      assert frameBuffer.buf[..4 * i] == frameBuffer.buf && colorBuffer.buf[..i] == colorBuffer.buf;
    }
  }

  /** A pixel whose depth is still the lowest after any number of draws
      from a cleared frame was never coloured. */
  lemma UndrawnStaysBlack(f: Frame, g: Frame, k: int)
    requires Advances(f, g) && 0 <= k < |f.depth| && k < |f.color|
    requires f.depth[k] == FloatLowest && f.color[k] == Zero4 && g.depth[k] == FloatLowest
    ensures g.color[k] == Zero4
  {
  }
}
