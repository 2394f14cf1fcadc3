/** The vertex and fragment shaders of the new rasterizer
    (Core/Rasterizer/shader.h). */
module RasterShaders {
  import opened LinAlg
  import opened Meshes
  import opened Scenes

  /** Vertex attributes going into the vertex shader. */
  datatype A2V = A2V(position: Vec4, albedo: Vec4, normal: Vec3, texcoords: Vec2, tangent: Vec3, bitangent: Vec3)

  /** Values passed from the vertex shader to the fragment shader. */
  datatype V2F = V2F(position: Vec4, worldPosition: Vec3, albedo: Vec4, normal: Vec3, texcoords: Vec2, viewDir: Vec3)

  class BasicVertexShader {
    var model: Mat4
    var view: Mat4
    var projection: Mat4

    constructor ()
      ensures model == Identity && view == Identity && projection == Identity
    {
      model, view, projection := Identity, Identity, Identity;
    }

    method SetModel(m: Mat4)
      modifies this`model
      ensures model == m
    {
      model := m;
    }

    method SetView(v: Mat4)
      modifies this`view
      ensures view == v
    {
      view := v;
    }

    method SetProjection(p: Mat4)
      modifies this`projection
      ensures projection == p
    {
      projection := p;
    }

    /** `vert`: the clip position is the vertex taken through model, view and
        projection in turn; attributes pass through. The view direction is
        left for the caller (zero here). */
    function Vert(a2v: A2V): (v: V2F)
      reads this
      ensures v.position == MulMV(projection, MulMV(view, MulMV(model, a2v.position)))
      ensures v.worldPosition == Xyz(MulMV(model, a2v.position))
      ensures v.albedo == a2v.albedo && v.normal == a2v.normal && v.texcoords == a2v.texcoords
    {
      V2F(MulMV(projection, MulMV(view, MulMV(model, a2v.position))), Xyz(MulMV(model, a2v.position)),
          a2v.albedo, a2v.normal, a2v.texcoords, Vec3(0.0, 0.0, 0.0))
    }
  }

  /** The diffuse coefficient: the first diffuse map's sample, else kd. */
  function DiffuseCoefficient(mat: Material, tc: Vec2): Vec3
    requires MapsSampleable(mat)
  {
    if |mat.diffuseMaps| > 0 then Xyz(Sample(mat.diffuseMaps[0], tc.x, tc.y)) else mat.kd
  }

  /** The specular coefficient: the first specular map's sample, else ks. */
  function SpecularCoefficient(mat: Material, tc: Vec2): Vec3
    requires MapsSampleable(mat)
  {
    if |mat.specularMaps| > 0 then Xyz(Sample(mat.specularMaps[0], tc.x, tc.y)) else mat.ks
  }

  /** The tangent frame built from the normal alone. */
  function Tbn(m: MathLib, n: Vec3): Mat3 {
    var s := m.sqrt(n.x * n.x + n.z * n.z);
    var t := Vec3(FDiv(n.x * n.y, s), -s, FDiv(n.y * n.z, s));
    Mat3(t, Cross3(n, t), n)
  }

  /** The normal read from the first normal map, taken into the tangent frame. */
  function NormalMapNormal(m: MathLib, mat: Material, v2f: V2F): Vec3
    requires MapsSampleable(mat) && |mat.normalMaps| > 0
  {
    var s := Sample(mat.normalMaps[0], v2f.texcoords.x, v2f.texcoords.y);
    m.normalize(MulM3V(Tbn(m, v2f.normal), Sub3(Xyz(s), Splat3(0.5))))
  }

  /** The texture the height-based normal comes from: displacement first. */
  function HeightTexture(mat: Material): Texture
    requires |mat.displacementMaps| > 0 || |mat.bumpMaps| > 0
  {
    if |mat.displacementMaps| > 0 then mat.displacementMaps[0] else mat.bumpMaps[0]
  }

  /** The normal from finite differences of the height texture. */
  function HeightNormal(m: MathLib, tex: Texture, v2f: V2F): Vec3
    requires tex.Sampleable()
  {
    var kh, kn := 0.2, 0.1;
    var u, v := v2f.texcoords.x, v2f.texcoords.y;
    var f0 := m.normalize(Xyz(Sample(tex, u, v)));
    var fu := m.normalize(Xyz(Sample(tex, u + 1.0 / tex.width as real, v)));
    var fv := m.normalize(Xyz(Sample(tex, u, v + 1.0 / tex.height as real)));
    var dU := kh * kn * m.length(Sub3(fu, f0));
    var dV := kh * kn * m.length(Sub3(fv, f0));
    m.normalize(MulM3V(Tbn(m, v2f.normal), Vec3(-dU, -dV, 1.0)))
  }

  /** The normal `frag` shades with. */
  function ShadingNormal(m: MathLib, mat: Material, v2f: V2F): Vec3
    requires MapsSampleable(mat)
  {
    var n1 := if |mat.normalMaps| > 0 then NormalMapNormal(m, mat, v2f) else v2f.normal;
    if |mat.displacementMaps| > 0 || |mat.bumpMaps| > 0 then HeightNormal(m, HeightTexture(mat), v2f) else n1
  }

  /** Without maps the interpolated normal is used; a normal map replaces it;
      a displacement or bump map replaces both, displacement first. */
  lemma ShadingNormalSelection(m: MathLib, mat: Material, v2f: V2F)
    requires MapsSampleable(mat)
    ensures |mat.normalMaps| == 0 && |mat.displacementMaps| == 0 && |mat.bumpMaps| == 0 ==>
      ShadingNormal(m, mat, v2f) == v2f.normal
    ensures |mat.normalMaps| > 0 && |mat.displacementMaps| == 0 && |mat.bumpMaps| == 0 ==>
      ShadingNormal(m, mat, v2f) == NormalMapNormal(m, mat, v2f)
    ensures |mat.displacementMaps| > 0 ==>
      ShadingNormal(m, mat, v2f) == HeightNormal(m, mat.displacementMaps[0], v2f)
    ensures |mat.displacementMaps| == 0 && |mat.bumpMaps| > 0 ==>
      ShadingNormal(m, mat, v2f) == HeightNormal(m, mat.bumpMaps[0], v2f)
  {
  }

  /** The diffuse and specular sums over the lights. */
  datatype Lighting = Lighting(diffuse: Vec3, specular: Vec3)

  function DiffuseTerm(m: MathLib, light: DirectionLight, kd: Vec3, normal: Vec3): Vec3 {
    Scale3(Max(0.0, Dot3(m.normalize(Neg3(light.direction)), normal)), Mul3(kd, light.intensity))
  }

  function SpecularTerm(m: MathLib, light: DirectionLight, ks: Vec3, normal: Vec3, viewDir: Vec3, ns: real): Vec3 {
    var halfVec := m.normalize(Add3(m.normalize(Neg3(light.direction)), viewDir));
    Scale3(m.pow(Max(0.0, Dot3(halfVec, normal)), ns), Mul3(ks, light.intensity))
  }

  /** One diffuse and one specular term per light, summed in order. */
  function LightSum(m: MathLib, lights: seq<DirectionLight>, kd: Vec3, ks: Vec3, normal: Vec3, viewDir: Vec3, ns: real): Lighting
  {
    if |lights| == 0 then Lighting(Splat3(0.0), Splat3(0.0))
    else
      var l := LightSum(m, lights[..|lights| - 1], kd, ks, normal, viewDir, ns);
      var light := lights[|lights| - 1];
      Lighting(Add3(l.diffuse, DiffuseTerm(m, light, kd, normal)),
               Add3(l.specular, SpecularTerm(m, light, ks, normal, viewDir, ns)))
  }

  /** The colour `frag` returns. */
  function FragColor(m: MathLib, v2f: V2F, mat: Material, lights: seq<DirectionLight>): Vec4
    requires MapsSampleable(mat)
  {
    var viewPos := Add3(v2f.viewDir, v2f.worldPosition);
    var viewDir := m.normalize(Sub3(viewPos, v2f.worldPosition));
    var ambient := Mul3(Splat3(0.2), mat.ka);
    var l := LightSum(m, lights, DiffuseCoefficient(mat, v2f.texcoords), SpecularCoefficient(mat, v2f.texcoords),
                      ShadingNormal(m, mat, v2f), viewDir, mat.ns);
    Point(Clamp3(Add3(Add3(ambient, l.diffuse), l.specular), 0.0, 1.0), 1.0)
  }

  /** The output is a colour in [0, 1] with alpha 1. */
  lemma FragColorInUnit(m: MathLib, v2f: V2F, mat: Material, lights: seq<DirectionLight>)
    requires MapsSampleable(mat)
    ensures InUnit4(FragColor(m, v2f, mat, lights)) && FragColor(m, v2f, mat, lights).w == 1.0
  {
  }

  /** With no lights only the ambient term 0.2 * ka remains. */
  lemma FragColorNoLights(m: MathLib, v2f: V2F, mat: Material)
    requires MapsSampleable(mat)
    ensures FragColor(m, v2f, mat, []) == Point(Clamp3(Mul3(Splat3(0.2), mat.ka), 0.0, 1.0), 1.0)
  {
    assert Add3(Add3(Mul3(Splat3(0.2), mat.ka), Splat3(0.0)), Splat3(0.0)) == Mul3(Splat3(0.2), mat.ka);
  }

  /** The world position does not matter: the view direction is
      normalize(viewDir), and the displaced position is never read. */
  lemma FragIgnoresWorldPosition(m: MathLib, v2f: V2F, mat: Material, lights: seq<DirectionLight>, p: Vec3)
    requires MapsSampleable(mat)
    ensures FragColor(m, v2f, mat, lights) == FragColor(m, v2f.(worldPosition := p), mat, lights)
  {
    assert Sub3(Add3(v2f.viewDir, v2f.worldPosition), v2f.worldPosition) == v2f.viewDir;
    assert Sub3(Add3(v2f.viewDir, p), p) == v2f.viewDir;
    assert ShadingNormal(m, mat, v2f) == ShadingNormal(m, mat, v2f.(worldPosition := p));
  }

  /** The loop of `frag` over the lights, from zero sums. */
  method AddLights(m: MathLib, lights: seq<DirectionLight>, kd: Vec3, ks: Vec3, normal: Vec3, viewDir: Vec3, ns: real)
    returns (diffuse: Vec3, specular: Vec3)
    ensures Lighting(diffuse, specular) == LightSum(m, lights, kd, ks, normal, viewDir, ns)
  {
    diffuse, specular := Splat3(0.0), Splat3(0.0);
    var i := 0;
    while i < |lights|
      invariant 0 <= i <= |lights|
      invariant Lighting(diffuse, specular) == LightSum(m, lights[..i], kd, ks, normal, viewDir, ns)
    {
      assert lights[..i + 1][..i] == lights[..i];
      diffuse := Add3(diffuse, DiffuseTerm(m, lights[i], kd, normal));
      specular := Add3(specular, SpecularTerm(m, lights[i], ks, normal, viewDir, ns));
      i := i + 1;
    }
    assert lights[..i] == lights;
  }

  /** `frag`: the material's coefficients and normal, then the lights. */
  method Frag(m: MathLib, v2f: V2F, mat: Material, lights: seq<DirectionLight>) returns (color: Vec4)
    requires MapsSampleable(mat)
    ensures color == FragColor(m, v2f, mat, lights)
  {
    var ambient := Splat3(0.2);
    var kd := mat.kd;
    var ks := mat.ks;
    var normal := v2f.normal;
    if |mat.diffuseMaps| > 0 {
      kd := Xyz(Sample(mat.diffuseMaps[0], v2f.texcoords.x, v2f.texcoords.y));
    }
    if |mat.specularMaps| > 0 {
      ks := Xyz(Sample(mat.specularMaps[0], v2f.texcoords.x, v2f.texcoords.y));
    }
    if |mat.normalMaps| > 0 {
      normal := NormalMapNormal(m, mat, v2f);
    }
    if |mat.displacementMaps| > 0 || |mat.bumpMaps| > 0 {
      normal := HeightNormal(m, HeightTexture(mat), v2f);
    }
    assert kd == DiffuseCoefficient(mat, v2f.texcoords) && ks == SpecularCoefficient(mat, v2f.texcoords);
    assert normal == ShadingNormal(m, mat, v2f);
    var viewPos := Add3(v2f.viewDir, v2f.worldPosition);
    var viewDir := m.normalize(Sub3(viewPos, v2f.worldPosition));
    ambient := Mul3(ambient, mat.ka);
    var diffuse, specular := AddLights(m, lights, kd, ks, normal, viewDir, mat.ns);
    color := Point(Clamp3(Add3(Add3(ambient, diffuse), specular), 0.0, 1.0), 1.0);
  }
}
