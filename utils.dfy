/** Colour packing and interpolation helpers (Core/utils.hpp). */
module Utils {
  import opened LinAlg

  /** The range in which `(uint32_t)(c * 255.0f)` is defined: the product must
      truncate to a value that fits in 32 bits. */
  predicate ChannelPackable(c: real) {
    -1.0 < c * 255.0 < 4294967296.0
  }

  predicate Packable(c: Vec4) {
    ChannelPackable(c.x) && ChannelPackable(c.y) && ChannelPackable(c.z) && ChannelPackable(c.w)
  }

  lemma UnitIsPackable(c: Vec4)
    requires InUnit4(c)
    ensures Packable(c)
  {
  }

  /** `(uint32_t)(c * 255.0f)`. */
  function ChannelWord(c: real): bv32
    requires ChannelPackable(c)
  {
    var t := Trunc(c * 255.0);
    assert 0 <= t < 4294967296;
    t as bv32
  }

  /** A channel in [0, 1] becomes a byte: the truncation of c * 255. */
  lemma ChannelWordByte(c: real)
    requires 0.0 <= c <= 1.0
    ensures ChannelPackable(c) && 0 <= Trunc(c * 255.0) <= 255
    ensures ChannelWord(c) <= 255 && ChannelWord(c) == Trunc(c * 255.0) as bv32
  {
    assert 0 <= Trunc(c * 255.0) <= 255;
  }

  /** `glmVec4ToUint32t`: red in the low byte, alpha in the high byte. */
  function PackColor(c: Vec4): bv32
    requires Packable(c)
  {
    var r, g, b, a := ChannelWord(c.x), ChannelWord(c.y), ChannelWord(c.z), ChannelWord(c.w);
    (a << 24) | (b << 16) | (g << 8) | r
  }

  lemma OrOfBytes(r: bv32, g: bv32, b: bv32, a: bv32)
    requires r <= 255 && g <= 255 && b <= 255 && a <= 255
    ensures ((a << 24) | (b << 16) | (g << 8) | r) & 0xFF == r
    ensures (((a << 24) | (b << 16) | (g << 8) | r) >> 8) & 0xFF == g
    ensures (((a << 24) | (b << 16) | (g << 8) | r) >> 16) & 0xFF == b
    ensures ((a << 24) | (b << 16) | (g << 8) | r) >> 24 == a
  {
  }

  /** For channels in [0, 1] every byte of the packed word is recovered by
      shifting and masking, and each is the truncated channel times 255. */
  lemma PackColorBytes(c: Vec4)
    requires InUnit4(c)
    ensures Packable(c)
    ensures PackColor(c) & 0xFF == ChannelWord(c.x) && (PackColor(c) >> 8) & 0xFF == ChannelWord(c.y)
    ensures (PackColor(c) >> 16) & 0xFF == ChannelWord(c.z) && PackColor(c) >> 24 == ChannelWord(c.w)
  {
    ChannelWordByte(c.x);
    ChannelWordByte(c.y);
    ChannelWordByte(c.z);
    ChannelWordByte(c.w);
    OrOfBytes(ChannelWord(c.x), ChannelWord(c.y), ChannelWord(c.z), ChannelWord(c.w));
  }

  /** Opaque black and opaque white. */
  lemma PackColorExtremes()
    ensures Packable(Vec4(0.0, 0.0, 0.0, 1.0)) && PackColor(Vec4(0.0, 0.0, 0.0, 1.0)) == 0xFF00_0000
    ensures Packable(Vec4(1.0, 1.0, 1.0, 1.0)) && PackColor(Vec4(1.0, 1.0, 1.0, 1.0)) == 0xFFFF_FFFF
  {
    assert Trunc(255.0) == 255;
    assert Trunc(0.0) == 0;
  }

  /** The two-weight `lerp`: the third weight is 1 - alpha - beta. */
  function Lerp(alpha: real, beta: real, x: real, y: real, z: real): real {
    alpha * x + beta * y + (1.0 - alpha - beta) * z
  }

  /** The three-weight `lerp`. */
  function Lerp3(alpha: real, beta: real, gamma: real, x: real, y: real, z: real): real {
    alpha * x + beta * y + gamma * z
  }

  lemma LerpIsLerp3(alpha: real, beta: real, x: real, y: real, z: real)
    ensures Lerp(alpha, beta, x, y, z) == Lerp3(alpha, beta, 1.0 - alpha - beta, x, y, z)
  {
  }

  lemma Lerp3Corners(x: real, y: real, z: real)
    ensures Lerp3(1.0, 0.0, 0.0, x, y, z) == x
    ensures Lerp3(0.0, 1.0, 0.0, x, y, z) == y
    ensures Lerp3(0.0, 0.0, 1.0, x, y, z) == z
  {
  }

  function LerpVec2(alpha: real, beta: real, x: Vec2, y: Vec2, z: Vec2): Vec2 {
    Vec2(Lerp(alpha, beta, x.x, y.x, z.x), Lerp(alpha, beta, x.y, y.y, z.y))
  }

  function LerpVec3(alpha: real, beta: real, x: Vec3, y: Vec3, z: Vec3): Vec3 {
    Vec3(Lerp(alpha, beta, x.x, y.x, z.x), Lerp(alpha, beta, x.y, y.y, z.y), Lerp(alpha, beta, x.z, y.z, z.z))
  }

  function Lerp3Vec2(alpha: real, beta: real, gamma: real, x: Vec2, y: Vec2, z: Vec2): Vec2 {
    Vec2(Lerp3(alpha, beta, gamma, x.x, y.x, z.x), Lerp3(alpha, beta, gamma, x.y, y.y, z.y))
  }

  function Lerp3Vec3(alpha: real, beta: real, gamma: real, x: Vec3, y: Vec3, z: Vec3): Vec3 {
    Vec3(Lerp3(alpha, beta, gamma, x.x, y.x, z.x), Lerp3(alpha, beta, gamma, x.y, y.y, z.y),
         Lerp3(alpha, beta, gamma, x.z, y.z, z.z))
  }

  function Lerp3Vec4(alpha: real, beta: real, gamma: real, x: Vec4, y: Vec4, z: Vec4): Vec4 {
    Vec4(Lerp3(alpha, beta, gamma, x.x, y.x, z.x), Lerp3(alpha, beta, gamma, x.y, y.y, z.y),
         Lerp3(alpha, beta, gamma, x.z, y.z, z.z), Lerp3(alpha, beta, gamma, x.w, y.w, z.w))
  }

  /** `calcScaleTranslateMat4`: the glm initialiser lists columns, so the
      translation lands in the last column. */
  function CalcScaleTranslateMat4(scale: Vec3, translate: Vec3): Mat4 {
    Mat4(Vec4(scale.x, 0.0, 0.0, 0.0), Vec4(0.0, scale.y, 0.0, 0.0),
         Vec4(0.0, 0.0, scale.z, 0.0), Vec4(translate.x, translate.y, translate.z, 1.0))
  }

  /** The matrix scales a point, then translates it. */
  lemma ScaleTranslateMaps(scale: Vec3, translate: Vec3, p: Vec3)
    ensures MulMV(CalcScaleTranslateMat4(scale, translate), Point(p, 1.0))
         == Point(Add3(Mul3(scale, p), translate), 1.0)
  {
  }
}
