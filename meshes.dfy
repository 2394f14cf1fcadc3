/** Textures, materials and meshes (Core/mesh.h). */
module Meshes {
  import opened LinAlg
  import Grid

  datatype Vertex = Vertex(position: Vec3, normal: Vec3, texcoords: Vec2, tangent: Vec3, bitangent: Vec3)

  /** A decoded texture: `data` holds one RGBA texel per pixel, row by row. */
  datatype Texture = Texture(data: seq<Vec4>, width: int, height: int, kind: string, file: string)
  {
    /** What `getValue` needs: at least one texel per axis and a full table. */
    predicate Sampleable() {
      width >= 1 && height >= 1 && |data| == width * height
    }
  }

  predicate IsInteger(x: real) {
    x.Floor as real == x
  }

  /** The first wrap loop: add one until the coordinate is non-negative. */
  function WrapUp(u: real): real
    decreases if u < 0.0 then (-u).Floor + 1 else 0
  {
    if u < 0.0 then WrapUp(u + 1.0) else u
  }

  /** The second wrap loop: subtract one while the coordinate exceeds one. */
  function WrapDown(u: real): real
    decreases if u > 1.0 then u.Floor else 0
  {
    if u > 1.0 then WrapDown(u - 1.0) else u
  }

  /** A texture coordinate after both wrap loops. */
  function Wrap(u: real): real {
    WrapDown(WrapUp(u))
  }

  lemma FloorShift(x: real, n: int)
    ensures (x + n as real).Floor == x.Floor + n
  {
  }

  lemma {:induction false} WrapUpSpec(u: real)
    ensures WrapUp(u) >= 0.0 && IsInteger(WrapUp(u) - u)
    ensures u >= 0.0 ==> WrapUp(u) == u
    ensures u < 0.0 ==> WrapUp(u) < 1.0
    decreases if u < 0.0 then (-u).Floor + 1 else 0
  {
    if u < 0.0 {
      WrapUpSpec(u + 1.0);
      var d := WrapUp(u + 1.0) - (u + 1.0);
      FloorShift(d, 1);
      assert WrapUp(u) - u == d + 1.0;
    } else {
      assert WrapUp(u) - u == 0.0;
    }
  }

  lemma {:induction false} WrapDownSpec(u: real)
    requires u >= 0.0
    ensures 0.0 <= WrapDown(u) <= 1.0 && IsInteger(WrapDown(u) - u)
    ensures u <= 1.0 ==> WrapDown(u) == u
    ensures u > 1.0 ==> WrapDown(u) > 0.0
    decreases if u > 1.0 then u.Floor else 0
  {
    if u > 1.0 {
      WrapDownSpec(u - 1.0);
      var d := WrapDown(u - 1.0) - (u - 1.0);
      FloorShift(d, -1);
      assert WrapDown(u) - u == d + (-1) as real;
    } else {
      assert WrapDown(u) - u == 0.0;
    }
  }

  /** Both loops together move the coordinate by a whole number into [0, 1],
      and leave a coordinate already in [0, 1] alone. */
  lemma WrapInUnit(u: real)
    ensures 0.0 <= Wrap(u) <= 1.0 && IsInteger(Wrap(u) - u)
    ensures 0.0 <= u <= 1.0 ==> Wrap(u) == u
  {
    WrapUpSpec(u);
    WrapDownSpec(WrapUp(u));
  }

  /** Closed form: the fractional part, except that whole numbers go to 0 when
      they are at most 0 and to 1 when they are positive (1 is not reduced). */
  lemma WrapClosedForm(u: real)
    ensures Wrap(u) == if IsInteger(u) then (if u <= 0.0 then 0.0 else 1.0) else u - u.Floor as real
  {
    WrapUpSpec(u);
    WrapDownSpec(WrapUp(u));
    var r := Wrap(u);
    var n := (r - u).Floor;
    assert r == u + n as real;
    if IsInteger(u) {
      if u <= 0.0 {
        assert WrapUp(u) < 1.0 && IsInteger(WrapUp(u));
        assert WrapUp(u) == 0.0;
      } else {
        assert WrapUp(u) == u && u >= 1.0;
      }
    } else {
      assert r.Floor == u.Floor + n;
    }
  }

  /** A coordinate strictly inside (0, 1) and the same coordinate plus one wrap
      to the same value. */
  lemma WrapPeriodic(u: real)
    requires 0.0 < u < 1.0
    ensures Wrap(u + 1.0) == Wrap(u) == u
  {
    WrapClosedForm(u);
    WrapClosedForm(u + 1.0);
    assert (u + 1.0).Floor == 1;
  }

  function ClampInt(x: int, lo: int, hi: int): (r: int)
    requires lo <= hi
    ensures lo <= r <= hi
    ensures lo <= x <= hi ==> r == x
  {
    if x < lo then lo else if hi < x then hi else x
  }

  lemma ScaledTruncBound(s: real, n: int)
    requires 0.0 <= s <= 1.0 && n >= 0
    ensures 0 <= Trunc(s * n as real) <= n
    ensures 0 <= Trunc(n as real * s) <= n
  {
    var p := s * n as real;
    MulNonNeg(s, n as real);
    MulNonNeg(1.0 - s, n as real);
    assert n as real - p == (1.0 - s) * n as real;
    assert n as real * s == p;
  }

  lemma MulNonNeg(a: real, b: real)
    requires a >= 0.0 && b >= 0.0
    ensures a * b >= 0.0
  {
  }

  lemma ClampsIdle(w: int, h: int, col: int, row: int)
    requires 0 <= col < w && 0 <= row < h
    ensures ClampInt(col, 0, w - 1) + ClampInt(row * w, 0, (h - 1) * w) == col + row * w
    ensures 0 <= col + row * w < w * h
    ensures (col + row * w) % w == col && (col + row * w) / w == row
  {
    Grid.MulSub(h - 1, row, w);
    Grid.MulNonNeg(h - 1 - row, w);
    Grid.MulNonNeg(row, w);
    Grid.IndexInRange(col, row, w, h);
    Grid.IndexDecompose(col, row, w);
  }

  /** `(int)((width - 1) * u)`: the column of a wrapped u. */
  function TexelColumn(w: int, wu: real): int {
    Trunc((w - 1) as real * wu)
  }

  /** `(int)(v * (height - 1))`: the row of a wrapped v. */
  function TexelRow(h: int, wv: real): int {
    Trunc(wv * (h - 1) as real)
  }

  /** Wrapped coordinates give a column and a row inside the table. */
  lemma TexelInTable(w: int, h: int, wu: real, wv: real)
    requires w >= 1 && h >= 1 && 0.0 <= wu <= 1.0 && 0.0 <= wv <= 1.0
    ensures 0 <= TexelColumn(w, wu) < w && 0 <= TexelRow(h, wv) < h
  {
    ScaledTruncBound(wu, w - 1);
    ScaledTruncBound(wv, h - 1);
  }

  /** The clamped index expression of `getValue` on already wrapped
      coordinates: it never leaves the texel table, and the clamps never bite
      because the coordinates lie in [0, 1]. */
  function ClampedIndex(w: int, h: int, wu: real, wv: real): (i: int)
    requires w >= 1 && h >= 1 && 0.0 <= wu <= 1.0 && 0.0 <= wv <= 1.0
    ensures 0 <= i < w * h
    ensures i % w == TexelColumn(w, wu)
    ensures i / w == TexelRow(h, wv)
  {
    TexelInTable(w, h, wu, wv);
    var col, row := TexelColumn(w, wu), TexelRow(h, wv);
    ClampsIdle(w, h, col, row);
    ClampInt(col, 0, w - 1) + ClampInt(row * w, 0, (h - 1) * w)
  }

  /** The index `getValue` reads for (u, v): its column is the truncation of
      (width - 1) times the wrapped u, its row the truncation of the wrapped v
      times (height - 1). */
  function TexelIndex(t: Texture, u: real, v: real): (i: int)
    requires t.width >= 1 && t.height >= 1
    ensures 0 <= i < t.width * t.height
    ensures i % t.width == TexelColumn(t.width, Wrap(u))
    ensures i / t.width == TexelRow(t.height, Wrap(v))
  {
    WrapInUnit(u);
    WrapInUnit(v);
    ClampedIndex(t.width, t.height, Wrap(u), Wrap(v))
  }

  /** The texel `getValue` returns. */
  function Sample(t: Texture, u: real, v: real): Vec4
    requires t.Sampleable()
  {
    t.data[TexelIndex(t, u, v)]
  }

  /** `Texture::getValue`, with its four wrap loops. */
  method GetValue(t: Texture, u0: real, v0: real) returns (c: Vec4)
    requires t.Sampleable()
    ensures c == t.data[TexelIndex(t, u0, v0)]
  {
    var u, v := u0, v0;
    while u < 0.0
      invariant WrapUp(u) == WrapUp(u0)
      decreases (-u).Floor + 1
    {
      FloorShift(-u, -1);
      u := u + 1.0;
    }
    while u > 1.0
      invariant u >= 0.0 && WrapDown(u) == Wrap(u0)
      decreases u.Floor
    {
      FloorShift(u, -1);
      u := u - 1.0;
    }
    while v < 0.0
      invariant WrapUp(v) == WrapUp(v0)
      decreases (-v).Floor + 1
    {
      FloorShift(-v, -1);
      v := v + 1.0;
    }
    while v > 1.0
      invariant v >= 0.0 && WrapDown(v) == Wrap(v0)
      decreases v.Floor
    {
      FloorShift(v, -1);
      v := v - 1.0;
    }
    c := t.data[ClampedIndex(t.width, t.height, u, v)];
  }

  /** Adding one to a coordinate strictly inside (0, 1) samples the same texel. */
  lemma SamplePeriodic(t: Texture, u: real, v: real)
    requires t.Sampleable()
    ensures 0.0 < u < 1.0 ==> Sample(t, u + 1.0, v) == Sample(t, u, v)
    ensures 0.0 < v < 1.0 ==> Sample(t, u, v + 1.0) == Sample(t, u, v)
  {
    if 0.0 < u < 1.0 {
      WrapPeriodic(u);
    }
    if 0.0 < v < 1.0 {
      WrapPeriodic(v);
    }
  }

  /** u = 1 is not reduced to 0: it reads the last column, u = 0 the first. */
  lemma EdgeColumnsDiffer(t: Texture, v: real)
    requires t.width >= 1 && t.height >= 1
    ensures TexelIndex(t, 1.0, v) == TexelIndex(t, 0.0, v) + (t.width - 1)
    ensures t.width > 1 ==> TexelIndex(t, 1.0, v) != TexelIndex(t, 0.0, v)
  {
    WrapInUnit(1.0);
    WrapInUnit(0.0);
    var i1, i0 := TexelIndex(t, 1.0, v), TexelIndex(t, 0.0, v);
    assert i1 % t.width == t.width - 1;
    assert i0 % t.width == 0;
    assert i1 / t.width == i0 / t.width;
  }

  datatype Material = Material(
    albedo: Vec3,
    ka: Vec3, kd: Vec3, ks: Vec3, ns: real,
    diffuseMaps: seq<Texture>, specularMaps: seq<Texture>, bumpMaps: seq<Texture>,
    normalMaps: seq<Texture>, displacementMaps: seq<Texture>,
    emissionColor: Vec3, emissionPower: real)

  /** A default-constructed `Material`. */
  function DefaultMaterial(): Material {
    Material(Splat3(1.0), Splat3(0.1), Splat3(0.5), Splat3(0.5), 12.0,
             [], [], [], [], [], Splat3(1.0), 0.0)
  }

  /** `getEmission`: the emission colour scaled by the power. */
  function GetEmission(m: Material): Vec3 {
    Scale3(m.emissionPower, m.emissionColor)
  }

  /** A material emits nothing exactly when its power or its colour is zero, so
      the defaults emit nothing. */
  lemma EmissionZero(m: Material)
    ensures GetEmission(m) == Splat3(0.0) <==> (m.emissionPower == 0.0 || m.emissionColor == Splat3(0.0))
    ensures GetEmission(DefaultMaterial()) == Splat3(0.0)
  {
    var p, c := m.emissionPower, m.emissionColor;
    if GetEmission(m) == Splat3(0.0) && p != 0.0 {
      assert p * c.x == 0.0 && p * c.y == 0.0 && p * c.z == 0.0;
      assert c.x == 0.0 && c.y == 0.0 && c.z == 0.0;
    }
  }

  /** What sampling a material needs: every map of it is sampleable. */
  predicate MapsSampleable(mat: Material) {
    && (forall t :: t in mat.diffuseMaps ==> t.Sampleable())
    && (forall t :: t in mat.specularMaps ==> t.Sampleable())
    && (forall t :: t in mat.normalMaps ==> t.Sampleable())
    && (forall t :: t in mat.bumpMaps ==> t.Sampleable())
    && (forall t :: t in mat.displacementMaps ==> t.Sampleable())
  }

  datatype Mesh = Mesh(vertices: seq<Vertex>, indices: seq<nat>, mat: Material)
}
