/** The shaders of the older Eigen pipeline (src/Shader.h, src/Shader.cpp):
    byte textures read without wrapping, a vertex shader holding three
    matrices, and the state a fragment shader reads. The point-light
    lighting of `fragment_shader` is not modelled: the rasterizer receives
    it as a function of that state. */
module LegacyShaders {
  import opened LinAlg
  import opened Wrappers

  datatype Vertex = Vertex(position: Vec4, color: Vec3, normal: Vec3, texcoords: Vec2, tangent: Vec3, bitangent: Vec3)

  /** A decoded texture: four bytes (RGBA) per texel, row by row. */
  datatype Texture = Texture(data: seq<bv8>, width: int, height: int, kind: string, path: string)
  {
    /** What the loader produces: four bytes for each of width * height texels. */
    predicate Complete() {
      width >= 0 && height >= 0 && |data| == 4 * (width * height)
    }
  }

  datatype V2F = V2F(position: Vec4, color: Vec3, normal: Vec3, texcoords: Vec2, viewspacePos: Vec3)

  const Zero4: Vec4 := Vec4(0.0, 0.0, 0.0, 0.0)

  function ByteValue(b: bv8): real {
    (b as int) as real
  }

  /** The texel index `get_value` computes: the truncation of width * u plus
      the truncation of v * height - 1 rows. Nothing wraps or clamps u and v. */
  function TexelIndex(t: Texture, u: real, v: real): int {
    Trunc(t.width as real * u) + Trunc(v * t.height as real - 1.0) * t.width
  }

  /** The four bytes of texel `index`, as floats. */
  function Texel(t: Texture, index: int): Vec4
    requires 0 <= 4 * index && 4 * index + 3 < |t.data|
  {
    Vec4(ByteValue(t.data[4 * index]), ByteValue(t.data[4 * index + 1]),
         ByteValue(t.data[4 * index + 2]), ByteValue(t.data[4 * index + 3]))
  }

  /** `get_value` as written: its guard `index > width * height` lets
      index == width * height through. Err(index) stands for a read of bytes
      the texture does not have. */
  function GetValueAsWritten(t: Texture, u: real, v: real): Result<Vec4, int> {
    var index := TexelIndex(t, u, v);
    if index < 0 || index > t.width * t.height then Ok(Zero4)
    else if 4 * index + 3 >= |t.data| then Err(index)
    else Ok(Texel(t, index))
  }

  /** On a complete texture the written guard reads past the data exactly when
      the index is width * height, one texel past the last. */
  lemma GetValueReadsPastEnd(t: Texture, u: real, v: real)
    requires t.Complete()
    ensures GetValueAsWritten(t, u, v).Err? <==> TexelIndex(t, u, v) == t.width * t.height
  {
  }

  /** A one-texel texture read at (0, 2): the index is 0 + trunc(2 - 1) * 1 = 1,
      which passes the guard and reads bytes 4 to 7 of a 4-byte texture. */
  lemma GetValueCounterexample()
    ensures var t := Texture([0, 0, 0, 0], 1, 1, "texture_diffuse", "");
      t.Complete() && TexelIndex(t, 0.0, 2.0) == 1 && GetValueAsWritten(t, 0.0, 2.0) == Err(1)
  {
    var t := Texture([0, 0, 0, 0], 1, 1, "texture_diffuse", "");
    assert Trunc(2.0 * 1 as real - 1.0) == 1;
  }

  /** `get_value` with the guard `index >= width * height`: an index outside
      the texels gives transparent black, any other the texel's four bytes,
      so every channel lies in [0, 255]. */
  function GetValue(t: Texture, u: real, v: real): (c: Vec4)
    requires t.Complete()
    ensures 0 <= TexelIndex(t, u, v) < t.width * t.height ==> c == Texel(t, TexelIndex(t, u, v))
    ensures !(0 <= TexelIndex(t, u, v) < t.width * t.height) ==> c == Zero4
    ensures 0.0 <= c.x <= 255.0 && 0.0 <= c.y <= 255.0 && 0.0 <= c.z <= 255.0 && 0.0 <= c.w <= 255.0
  {
    var index := TexelIndex(t, u, v);
    if index < 0 || index >= t.width * t.height then Zero4 else Texel(t, index)
  }

  /** The corrected read agrees with the written one on every input except
      the one index the written guard gets wrong. */
  lemma GetValueAgrees(t: Texture, u: real, v: real)
    requires t.Complete() && TexelIndex(t, u, v) != t.width * t.height
    ensures GetValueAsWritten(t, u, v) == Ok(GetValue(t, u, v))
  {
  }

  /** `vertex_shader` for the given matrices: the position is taken through
      model, view and projection in turn; colour, normal and texture
      coordinates pass through; the view-space position is left to the
      caller (zero here). */
  function VertexStage(model: Mat4, view: Mat4, projection: Mat4, vertex: Vertex): (r: V2F)
    ensures r.position == MulMV(projection, MulMV(view, MulMV(model, vertex.position)))
    ensures r.color == vertex.color && r.normal == vertex.normal && r.texcoords == vertex.texcoords
  {
    V2F(MulMV(projection, MulMV(view, MulMV(model, vertex.position))), vertex.color, vertex.normal,
        vertex.texcoords, Vec3(0.0, 0.0, 0.0))
  }

  /** With the default (identity) matrices a vertex keeps its position. */
  lemma DefaultVertexStageKeepsPosition(vertex: Vertex)
    ensures VertexStage(Identity, Identity, Identity, vertex).position == vertex.position
  {
    var p := vertex.position;
    assert MulMV(Identity, p) == p;
  }

  class VertexShader {
    var model: Mat4
    var view: Mat4
    var projection: Mat4

    /** `VertexShader()`: all three matrices are the identity. */
    constructor ()
      ensures model == Identity && view == Identity && projection == Identity
    {
      model, view, projection := Identity, Identity, Identity;
    }

    constructor WithMatrices(model: Mat4, view: Mat4, projection: Mat4)
      ensures this.model == model && this.view == view && this.projection == projection
    {
      this.model, this.view, this.projection := model, view, projection;
    }

    method SetModel(m: Mat4)
      modifies this`model
      ensures model == m
    {
      model := m;
    }

    method SetView(v: Mat4)
      modifies this`view
      ensures view == v
    {
      view := v;
    }

    method SetProjection(p: Mat4)
      modifies this`projection
      ensures projection == p
    {
      projection := p;
    }

    method GetModel() returns (m: Mat4)
      ensures m == model
    {
      m := model;
    }

    method GetView() returns (v: Mat4)
      ensures v == view
    {
      v := view;
    }

    method GetProjection() returns (p: Mat4)
      ensures p == projection
    {
      p := projection;
    }

    /** `vertex_shader`. */
    method Shade(vertex: Vertex) returns (r: V2F)
      ensures r == VertexStage(model, view, projection, vertex)
    {
      r := V2F(MulMV(projection, MulMV(view, MulMV(model, vertex.position))), vertex.color, vertex.normal,
               vertex.texcoords, Vec3(0.0, 0.0, 0.0));
    }
  }

  /** Everything `fragment_shader` reads besides the interpolated values. */
  datatype FragmentState = FragmentState(
    eyePos: Vec3,
    diffuseTex: Option<Texture>, specularTex: Option<Texture>,
    normalTex: Option<Texture>, heightTex: Option<Texture>,
    ka: Vec3, kd: Vec3, ks: Vec3, ns: real)

  /** The lighting of `fragment_shader`, left uninterpreted. */
  type Fragment = (FragmentState, V2F) -> Vec4

  class FragmentShader {
    var eyePos: Vec3
    /** The texture pointers; None stands for a null pointer. */
    var diffuseTex: Option<Texture>
    var specularTex: Option<Texture>
    var normalTex: Option<Texture>
    var heightTex: Option<Texture>
    var kaDefault: Vec3
    var kdDefault: Vec3
    var ksDefault: Vec3
    var ns: real

    function State(): FragmentState
      reads this
    {
      FragmentState(eyePos, diffuseTex, specularTex, normalTex, heightTex, kaDefault, kdDefault, ksDefault, ns)
    }

    /** `FragmentShader()`: all four texture pointers are null. The other
        members are left uninitialised by the source; zero here. */
    constructor ()
      ensures diffuseTex.None? && specularTex.None? && normalTex.None? && heightTex.None?
    {
      diffuseTex, specularTex, normalTex, heightTex := None, None, None, None;
      eyePos := Vec3(0.0, 0.0, 0.0);
      kaDefault, kdDefault, ksDefault := Vec3(0.0, 0.0, 0.0), Vec3(0.0, 0.0, 0.0), Vec3(0.0, 0.0, 0.0);
      ns := 0.0;
    }

    method SetEyePos(p: Vec3)
      modifies this`eyePos
      ensures eyePos == p
    {
      eyePos := p;
    }

    method SetDiffuseTexture(t: Texture)
      modifies this`diffuseTex
      ensures diffuseTex == Some(t)
    {
      diffuseTex := Some(t);
    }

    method SetSpecularTexture(t: Texture)
      modifies this`specularTex
      ensures specularTex == Some(t)
    {
      specularTex := Some(t);
    }

    method SetNormalTexture(t: Texture)
      modifies this`normalTex
      ensures normalTex == Some(t)
    {
      normalTex := Some(t);
    }

    method SetHeightTexture(t: Texture)
      modifies this`heightTex
      ensures heightTex == Some(t)
    {
      heightTex := Some(t);
    }

    method SetKa(ka: Vec3)
      modifies this`kaDefault
      ensures kaDefault == ka
    {
      kaDefault := ka;
    }

    method SetKd(kd: Vec3)
      modifies this`kdDefault
      ensures kdDefault == kd
    {
      kdDefault := kd;
    }

    method SetKs(ks: Vec3)
      modifies this`ksDefault
      ensures ksDefault == ks
    {
      ksDefault := ks;
    }

    /** `set_Ns` (declared only; taken to store the exponent). */
    method SetNs(n: real)
      modifies this`ns
      ensures ns == n
    {
      ns := n;
    }

    /** `reset_texture` (declared only; taken to null the four pointers). */
    method ResetTexture()
      modifies this`diffuseTex, this`specularTex, this`normalTex, this`heightTex
      ensures diffuseTex.None? && specularTex.None? && normalTex.None? && heightTex.None?
    {
      diffuseTex, specularTex, normalTex, heightTex := None, None, None, None;
    }
  }
}
