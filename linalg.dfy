/** Vectors and matrices over `real`, standing in for the float vectors and
    matrices of glm and Eigen. Matrices are stored by columns, as glm stores
    them; `FromRows` builds one the way Eigen's comma initialiser is written.
    Maths the model does not interpret (normalisation, square roots, powers,
    trigonometry, matrix inversion, camera matrices) is passed in as
    function values, so every property proved holds whatever those
    functions return. */
module LinAlg {

  datatype Vec2 = Vec2(x: real, y: real)
  datatype Vec3 = Vec3(x: real, y: real, z: real)
  datatype Vec4 = Vec4(x: real, y: real, z: real, w: real)

  /** Column-major 3x3 and 4x4 matrices. */
  datatype Mat3 = Mat3(c0: Vec3, c1: Vec3, c2: Vec3)
  datatype Mat4 = Mat4(c0: Vec4, c1: Vec4, c2: Vec4, c3: Vec4)

  /** The largest finite float and its negation (`std::numeric_limits<float>`
      `max()` and `lowest()`). */
  const FloatMax: real := 340282346638528859811704183484516925440.0
  const FloatLowest: real := -FloatMax

  function Splat2(s: real): Vec2 { Vec2(s, s) }
  function Splat3(s: real): Vec3 { Vec3(s, s, s) }
  function Splat4(s: real): Vec4 { Vec4(s, s, s, s) }

  function Add2(a: Vec2, b: Vec2): Vec2 { Vec2(a.x + b.x, a.y + b.y) }
  function Scale2(s: real, a: Vec2): Vec2 { Vec2(s * a.x, s * a.y) }

  function Add3(a: Vec3, b: Vec3): Vec3 { Vec3(a.x + b.x, a.y + b.y, a.z + b.z) }
  function Sub3(a: Vec3, b: Vec3): Vec3 { Vec3(a.x - b.x, a.y - b.y, a.z - b.z) }
  function Neg3(a: Vec3): Vec3 { Vec3(-a.x, -a.y, -a.z) }
  function Scale3(s: real, a: Vec3): Vec3 { Vec3(s * a.x, s * a.y, s * a.z) }
  /** Componentwise product, glm's `vec3 * vec3`. */
  function Mul3(a: Vec3, b: Vec3): Vec3 { Vec3(a.x * b.x, a.y * b.y, a.z * b.z) }
  function Dot3(a: Vec3, b: Vec3): real { a.x * b.x + a.y * b.y + a.z * b.z }
  function Cross3(a: Vec3, b: Vec3): Vec3 {
    Vec3(a.y * b.z - a.z * b.y, a.z * b.x - a.x * b.z, a.x * b.y - a.y * b.x)
  }

  function Add4(a: Vec4, b: Vec4): Vec4 { Vec4(a.x + b.x, a.y + b.y, a.z + b.z, a.w + b.w) }
  function Scale4(s: real, a: Vec4): Vec4 { Vec4(s * a.x, s * a.y, s * a.z, s * a.w) }

  /** `glm::vec3(v4)`: drops the fourth component. */
  function Xyz(v: Vec4): Vec3 { Vec3(v.x, v.y, v.z) }
  /** `glm::vec4(v3, w)`. */
  function Point(p: Vec3, w: real): Vec4 { Vec4(p.x, p.y, p.z, w) }

  /** m * v: the columns of m weighted by the coordinates of v. */
  function MulMV(m: Mat4, v: Vec4): Vec4 {
    Vec4(v.x * m.c0.x + v.y * m.c1.x + v.z * m.c2.x + v.w * m.c3.x,
         v.x * m.c0.y + v.y * m.c1.y + v.z * m.c2.y + v.w * m.c3.y,
         v.x * m.c0.z + v.y * m.c1.z + v.z * m.c2.z + v.w * m.c3.z,
         v.x * m.c0.w + v.y * m.c1.w + v.z * m.c2.w + v.w * m.c3.w)
  }

  /** a * b: the columns of b, each taken through a. */
  function MulMM(a: Mat4, b: Mat4): Mat4 {
    Mat4(MulMV(a, b.c0), MulMV(a, b.c1), MulMV(a, b.c2), MulMV(a, b.c3))
  }

  const Identity: Mat4 :=
    Mat4(Vec4(1.0, 0.0, 0.0, 0.0), Vec4(0.0, 1.0, 0.0, 0.0),
         Vec4(0.0, 0.0, 1.0, 0.0), Vec4(0.0, 0.0, 0.0, 1.0))

  /** The matrix whose rows are r0..r3. */
  function FromRows(r0: Vec4, r1: Vec4, r2: Vec4, r3: Vec4): Mat4 {
    Mat4(Vec4(r0.x, r1.x, r2.x, r3.x), Vec4(r0.y, r1.y, r2.y, r3.y),
         Vec4(r0.z, r1.z, r2.z, r3.z), Vec4(r0.w, r1.w, r2.w, r3.w))
  }

  function MulM3V(m: Mat3, v: Vec3): Vec3 {
    Add3(Add3(Scale3(v.x, m.c0), Scale3(v.y, m.c1)), Scale3(v.z, m.c2))
  }

  /** Determinant of the matrix with columns c0, c1, c2. */
  function Det3(m: Mat3): real {
    Dot3(m.c0, Cross3(m.c1, m.c2))
  }

  /** Det3 as a linear form in its first, second and third column. */
  lemma DetFirst(o: Vec3, a: Vec3, b: Vec3)
    ensures Det3(Mat3(o, a, b)) == o.x * (a.y * b.z - a.z * b.y) + o.y * (a.z * b.x - a.x * b.z) + o.z * (a.x * b.y - a.y * b.x)
  {
  }

  /** The identity behind Cramer's rule, on plain coordinates: columns d, a,
      q, right-hand side o, and e1 .. e4 the determinants of (o, a, q),
      (d, o, q), (d, a, o) and (d, a, q), each expanded as DetFirst does. */
  lemma CramerPoly(dx: real, dy: real, dz: real, ax: real, ay: real, az: real,
                   qx: real, qy: real, qz: real, ox: real, oy: real, oz: real,
                   e1: real, e2: real, e3: real, e4: real)
    requires e1 == ox * (ay * qz - az * qy) + oy * (az * qx - ax * qz) + oz * (ax * qy - ay * qx)
    requires e2 == dx * (oy * qz - oz * qy) + dy * (oz * qx - ox * qz) + dz * (ox * qy - oy * qx)
    requires e3 == dx * (ay * oz - az * oy) + dy * (az * ox - ax * oz) + dz * (ax * oy - ay * ox)
    requires e4 == dx * (ay * qz - az * qy) + dy * (az * qx - ax * qz) + dz * (ax * qy - ay * qx)
    ensures e1 * dx + e2 * ax + e3 * qx == e4 * ox
    ensures e1 * dy + e2 * ay + e3 * qy == e4 * oy
    ensures e1 * dz + e2 * az + e3 * qz == e4 * oz
  {
  }

  /** Cramer's rule multiplied out, one coordinate at a time. */
  lemma CramerRows(d: Vec3, a: Vec3, b: Vec3, o: Vec3)
    ensures Det3(Mat3(o, a, b)) * d.x + Det3(Mat3(d, o, b)) * a.x + Det3(Mat3(d, a, o)) * b.x == Det3(Mat3(d, a, b)) * o.x
    ensures Det3(Mat3(o, a, b)) * d.y + Det3(Mat3(d, o, b)) * a.y + Det3(Mat3(d, a, o)) * b.y == Det3(Mat3(d, a, b)) * o.y
    ensures Det3(Mat3(o, a, b)) * d.z + Det3(Mat3(d, o, b)) * a.z + Det3(Mat3(d, a, o)) * b.z == Det3(Mat3(d, a, b)) * o.z
  {
    DetFirst(o, a, b); DetFirst(d, o, b); DetFirst(d, a, o); DetFirst(d, a, b);
    CramerPoly(d.x, d.y, d.z, a.x, a.y, a.z, b.x, b.y, b.z, o.x, o.y, o.z,
               Det3(Mat3(o, a, b)), Det3(Mat3(d, o, b)), Det3(Mat3(d, a, o)), Det3(Mat3(d, a, b)));
  }

  lemma DivideThrough(det: real, d1: real, d2: real, d3: real, u: real, v: real, w: real, o: real)
    requires det != 0.0 && d1 * u + d2 * v + d3 * w == det * o
    ensures (d1 / det) * u + (d2 / det) * v + (d3 / det) * w == o
  {
    var t1, t2, t3 := d1 / det, d2 / det, d3 / det;
    assert (t1 * u + t2 * v + t3 * w) * det == d1 * u + d2 * v + d3 * w;
  }

  /** Cramer's rule: when the matrix with columns d, a, b is non-singular, the
      quotients of determinants solve t d + alpha a + beta b = o. */
  lemma Cramer(d: Vec3, a: Vec3, b: Vec3, o: Vec3)
    requires Det3(Mat3(d, a, b)) != 0.0
    ensures Add3(Add3(Scale3(Det3(Mat3(o, a, b)) / Det3(Mat3(d, a, b)), d), Scale3(Det3(Mat3(d, o, b)) / Det3(Mat3(d, a, b)), a)),
                 Scale3(Det3(Mat3(d, a, o)) / Det3(Mat3(d, a, b)), b)) == o
  {
    var det, e1, e2, e3 := Det3(Mat3(d, a, b)), Det3(Mat3(o, a, b)), Det3(Mat3(d, o, b)), Det3(Mat3(d, a, o));
    CramerRows(d, a, b, o);
    DivideThrough(det, e1, e2, e3, d.x, a.x, b.x, o.x);
    DivideThrough(det, e1, e2, e3, d.y, a.y, b.y, o.y);
    DivideThrough(det, e1, e2, e3, d.z, a.z, b.z, o.z);
    var t1, t2, t3 := e1 / det, e2 / det, e3 / det;
    var s := Add3(Add3(Scale3(t1, d), Scale3(t2, a)), Scale3(t3, b));
    assert s.x == t1 * d.x + t2 * a.x + t3 * b.x;
    assert s.y == t1 * d.y + t2 * a.y + t3 * b.y;
    assert s.z == t1 * d.z + t2 * a.z + t3 * b.z;
  }

  function Min(a: real, b: real): real { if a <= b then a else b }
  function Max(a: real, b: real): real { if a >= b then a else b }
  function MinInt(a: int, b: int): int { if a <= b then a else b }
  function MaxInt(a: int, b: int): int { if a >= b then a else b }

  /** `std::clamp` / `glm::clamp` for lo <= hi. */
  function Clamp(v: real, lo: real, hi: real): (r: real)
    requires lo <= hi
    ensures lo <= r <= hi
    ensures lo <= v <= hi ==> r == v
  {
    if v < lo then lo else if hi < v then hi else v
  }

  function Clamp3(v: Vec3, lo: real, hi: real): Vec3
    requires lo <= hi
  {
    Vec3(Clamp(v.x, lo, hi), Clamp(v.y, lo, hi), Clamp(v.z, lo, hi))
  }

  function Clamp4(v: Vec4, lo: real, hi: real): Vec4
    requires lo <= hi
  {
    Vec4(Clamp(v.x, lo, hi), Clamp(v.y, lo, hi), Clamp(v.z, lo, hi), Clamp(v.w, lo, hi))
  }

  predicate InUnit4(c: Vec4) {
    0.0 <= c.x <= 1.0 && 0.0 <= c.y <= 1.0 && 0.0 <= c.z <= 1.0 && 0.0 <= c.w <= 1.0
  }

  /** A C++ cast of a float to an integer type: truncation toward zero. */
  function Trunc(r: real): (n: int)
    ensures r >= 0.0 ==> 0 <= n && n as real <= r < n as real + 1.0
    ensures r < 0.0 ==> n <= 0 && n as real - 1.0 < r <= n as real
  {
    if r >= 0.0 then r.Floor else -((-r).Floor)
  }

  /** Float division. Division by zero (an infinity or NaN in the source) is
      not modelled; it yields 0 here. */
  function FDiv(a: real, b: real): real {
    if b == 0.0 then 0.0 else a / b
  }

  /** Maths the model leaves uninterpreted, supplied by the caller. */
  datatype MathLib = MathLib(
    normalize: Vec3 -> Vec3,
    sqrt: real -> real,
    pow: (real, real) -> real,
    length: Vec3 -> real)

  /** `vector::resize`: keeps a prefix, value-initialises the rest. */
  function ResizeSeq<T>(s: seq<T>, n: nat, fill: T): (r: seq<T>)
    ensures |r| == n
    ensures forall i :: 0 <= i < n ==> r[i] == if i < |s| then s[i] else fill
  {
    if n <= |s| then s[..n] else s + seq(n - |s|, _ => fill)
  }
}

/** Row-major pixel addressing shared by every buffer in the model. */
module Grid {

  lemma IndexInRange(x: int, y: int, w: int, h: int)
    requires 0 <= x < w && 0 <= y < h
    ensures 0 <= x + y * w < w * h
  {
    MulSub(h - 1, y, w);
    MulNonNeg(h - 1 - y, w);
    MulNonNeg(y, w);
    MulSub(h, 1, w);
    MulComm(w, h);
  }

  lemma IndexDecompose(x: int, y: int, w: int)
    requires 0 <= x < w && 0 <= y
    ensures (x + y * w) / w == y && (x + y * w) % w == x
  {
    var n := x + y * w;
    var q, r := n / w, n % w;
    assert n == q * w + r && 0 <= r < w;
    MulSub(q, y, w);
    MulAwayFromZero(q - y, w);
  }

  lemma MulAwayFromZero(a: int, w: int)
    requires w > 0
    ensures a >= 1 ==> a * w >= w
    ensures a <= -1 ==> a * w <= -w
  {
  }

  /** Products distribute over a difference. */
  lemma MulSub(a: int, b: int, w: int)
    ensures a * w - b * w == (a - b) * w
  {
  }

  lemma MulNonNeg(a: int, b: int)
    requires a >= 0 && b >= 0
    ensures a * b >= 0
  {
  }

  lemma MulComm(a: int, b: int)
    ensures a * b == b * a
  {
  }

  lemma IndexInjective(x1: int, y1: int, x2: int, y2: int, w: int)
    requires 0 <= x1 < w && 0 <= y1 && 0 <= x2 < w && 0 <= y2
    requires x1 + y1 * w == x2 + y2 * w
    ensures x1 == x2 && y1 == y2
  {
    IndexDecompose(x1, y1, w);
    IndexDecompose(x2, y2, w);
  }

  /** Every in-range index is the index of exactly the pixel (i % w, i / w). */
  lemma IndexSplit(i: int, w: int, h: int)
    requires 0 < w && 0 <= i < w * h
    ensures 0 <= i % w < w && 0 <= i / w < h && i == i % w + (i / w) * w
  {
  }

  // Four-element groups (RGBA bytes) in flat sequences.

  lemma QuadAt<T>(r: seq<T>, p: int, q: seq<T>)
    requires 0 <= 4 * p && 4 * p + 4 <= |r| && r[4 * p .. 4 * p + 4] == q
    ensures r[4 * p] == q[0] && r[4 * p + 1] == q[1] && r[4 * p + 2] == q[2] && r[4 * p + 3] == q[3]
  {
  }

  /** Group p of a + b, when a holds whole groups and b is one group. */
  lemma QuadOfConcat<T>(a: seq<T>, b: seq<T>, p: int)
    requires 0 <= 4 * p && 4 * p + 4 <= |a| + |b| && |b| == 4 && |a| % 4 == 0
    ensures 4 * p + 4 <= |a| ==> (a + b)[4 * p .. 4 * p + 4] == a[4 * p .. 4 * p + 4]
    ensures 4 * p + 4 > |a| ==> (a + b)[4 * p .. 4 * p + 4] == b
  {
    if 4 * p + 4 > |a| {
      assert 4 * p == |a|;
    }
  }

  /** The prefix of p + 1 whole groups is the prefix of p groups and group p,
      element by element. */
  lemma QuadPrefix<T>(s: seq<T>, p: int)
    requires 0 <= p && 4 * p + 4 <= |s|
    ensures s[..4 * p + 4] == s[..4 * p] + [s[4 * p], s[4 * p + 1], s[4 * p + 2], s[4 * p + 3]]
  {
    assert s[..4 * p + 4] == s[..4 * p] + s[4 * p .. 4 * p + 4];
  }

  /** Writing group i element by element extends a prefix of whole groups. */
  lemma QuadWrite<T>(s: seq<T>, i: int, q: seq<T>)
    requires 0 <= i && 4 * i + 4 <= |s| && |q| == 4
    ensures s[4 * i := q[0]][4 * i + 1 := q[1]][4 * i + 2 := q[2]][4 * i + 3 := q[3]][..4 * i + 4] == s[..4 * i] + q
  {
  }

  /** Row y of a w-wide grid of h rows ends inside the grid. */
  lemma RowEnd(y: int, w: int, h: int)
    requires 0 <= y < h && 0 <= w
    ensures y * w + w == (y + 1) * w <= w * h
  {
    MulSub(y + 1, y, w);
    MulSub(h, y + 1, w);
    MulNonNeg(h - (y + 1), w);
    MulComm(w, h);
  }
}
