/** The orbiting camera of the older Eigen pipeline (src/SurroundCamera.h,
    src/SurroundCamera.cpp): a point on a sphere around a surround point,
    given by the polar angle theta (from the +y axis, kept in [5, 175]
    degrees), the azimuth phi (from the +z axis) and the distance; the view
    and projection matrices it hands the vertex shader. Trigonometry,
    normalisation, vector length and the value of pi are supplied by the
    caller. */
module OrbitCamera {
  import opened LinAlg

  datatype OrbitMath = OrbitMath(
    sin: real -> real,
    cos: real -> real,
    acos: real -> real,
    tan: real -> real,
    pi: real,
    normalize: Vec3 -> Vec3,
    norm: Vec3 -> real)

  const WorldUp: Vec3 := Vec3(0.0, 1.0, 0.0)

  /** `radian`: degrees to radians. */
  function Radian(m: OrbitMath, angle: real): real {
    angle / 180.0 * m.pi
  }

  /** Radians to degrees, as the constructors write it. */
  function Degrees(m: OrbitMath, r: real): real {
    FDiv(r, m.pi) * 180.0
  }

  // ---------------------------------------------------------------------
  // convert_to_0_360

  /** The first loop: subtract a turn while the angle exceeds 360. */
  function Unwind(a: real): real
    decreases if a > 360.0 then a.Floor else 0
  {
    if a > 360.0 then Unwind(a - 360.0) else a
  }

  /** The second loop: add a turn while the angle is below -360. */
  function Rewind(a: real): real
    decreases if a < -360.0 then (-a).Floor else 0
  {
    if a < -360.0 then Rewind(a + 360.0) else a
  }

  /** `convert_to_0_360`'s result. */
  function Wrap360(a: real): real {
    Rewind(Unwind(a))
  }

  /** How many turns the first loop subtracts. */
  function UnwindTurns(a: real): nat
    decreases if a > 360.0 then a.Floor else 0
  {
    if a > 360.0 then 1 + UnwindTurns(a - 360.0) else 0
  }

  /** How many turns the second loop adds. */
  function RewindTurns(a: real): nat
    decreases if a < -360.0 then (-a).Floor else 0
  {
    if a < -360.0 then 1 + RewindTurns(a + 360.0) else 0
  }

  lemma {:induction false} UnwindSpec(a: real)
    ensures Unwind(a) <= 360.0
    ensures Unwind(a) == a - UnwindTurns(a) as real * 360.0
    ensures a <= 360.0 ==> Unwind(a) == a
    ensures a > 360.0 ==> Unwind(a) > 0.0
    decreases if a > 360.0 then a.Floor else 0
  {
    if a > 360.0 {
      UnwindSpec(a - 360.0);
    }
  }

  lemma {:induction false} RewindSpec(a: real)
    ensures Rewind(a) >= -360.0
    ensures Rewind(a) == a + RewindTurns(a) as real * 360.0
    ensures a >= -360.0 ==> Rewind(a) == a
    ensures a < -360.0 ==> Rewind(a) < 0.0
    decreases if a < -360.0 then (-a).Floor else 0
  {
    if a < -360.0 {
      RewindSpec(a + 360.0);
    }
  }

  /** The result lies in [-360, 360] (not [0, 360], whatever the name says)
      and is the input moved by a whole number of turns, at most one of the
      two loops doing any work; an angle in range is kept; one above 360
      lands in (0, 360] and one below -360 in [-360, 0). */
  lemma Wrap360Spec(a: real)
    ensures var r := Wrap360(a);
      && -360.0 <= r <= 360.0
      && (r == a - UnwindTurns(a) as real * 360.0 || r == a + RewindTurns(a) as real * 360.0)
      && (-360.0 <= a <= 360.0 ==> r == a)
      && (a > 360.0 ==> 0.0 < r <= 360.0)
      && (a < -360.0 ==> -360.0 <= r < 0.0)
  {
    UnwindSpec(a);
    RewindSpec(Unwind(a));
  }

  /** `convert_to_0_360`. */
  method ConvertTo0To360(angle: real) returns (r: real)
    ensures r == Wrap360(angle)
  {
    r := angle;
    while r > 360.0
      invariant Unwind(r) == Unwind(angle)
      decreases r.Floor
    {
      r := r - 360.0;
    }
    while r < -360.0
      invariant Rewind(r) == Wrap360(angle)
      decreases (-r).Floor
    {
      r := r + 360.0;
    }
  }

  // ---------------------------------------------------------------------
  // update_camera

  /** Where `update_camera` puts the camera: at `distance` from the surround
      point along the direction with polar angle theta and azimuth phi. */
  function OrbitPosition(m: OrbitMath, center: Vec3, distance: real, theta: real, phi: real): Vec3 {
    var t, p := Radian(m, theta), Radian(m, phi);
    Vec3(distance * m.sin(t) * m.sin(p) + center.x,
         distance * m.cos(t) + center.y,
         distance * m.sin(t) * m.cos(p) + center.z)
  }

  lemma SphereIdentity(d: real, st: real, ct: real, sp: real, cp: real)
    requires st * st + ct * ct == 1.0 && sp * sp + cp * cp == 1.0
    ensures (d * st * sp) * (d * st * sp) + (d * ct) * (d * ct) + (d * st * cp) * (d * st * cp) == d * d
  {
    var s2 := st * st;
    assert (d * st * sp) * (d * st * sp) == d * d * (s2 * (sp * sp));
    assert (d * st * cp) * (d * st * cp) == d * d * (s2 * (cp * cp));
    assert s2 * (sp * sp) + s2 * (cp * cp) == s2 * (sp * sp + cp * cp);
    assert (d * ct) * (d * ct) == d * d * (ct * ct);
    assert d * d * (s2 * (sp * sp)) + d * d * (ct * ct) + d * d * (s2 * (cp * cp))
        == d * d * (s2 * (sp * sp + cp * cp) + ct * ct);
  }

  /** Where sine and cosine of the two angles obey sin^2 + cos^2 = 1, the
      camera lies on the sphere of radius `distance` around the point. */
  lemma OrbitRadius(m: OrbitMath, center: Vec3, distance: real, theta: real, phi: real)
    requires var t := Radian(m, theta); m.sin(t) * m.sin(t) + m.cos(t) * m.cos(t) == 1.0
    requires var p := Radian(m, phi); m.sin(p) * m.sin(p) + m.cos(p) * m.cos(p) == 1.0
    ensures var off := Sub3(OrbitPosition(m, center, distance, theta, phi), center);
      Dot3(off, off) == distance * distance
  {
    var t, p := Radian(m, theta), Radian(m, phi);
    var off := Sub3(OrbitPosition(m, center, distance, theta, phi), center);
    assert off == Vec3(distance * m.sin(t) * m.sin(p), distance * m.cos(t), distance * m.sin(t) * m.cos(p));
    SphereIdentity(distance, m.sin(t), m.cos(t), m.sin(p), m.cos(p));
  }

  /** The flip of the angle constructor: theta' = 360 - theta and
      phi' = phi + 180 name the same point, given the usual symmetries of sine
      and cosine at those angles. */
  lemma FlipKeepsPosition(m: OrbitMath, center: Vec3, distance: real, theta: real, phi: real)
    requires m.sin(Radian(m, 360.0 - theta)) == -m.sin(Radian(m, theta))
    requires m.cos(Radian(m, 360.0 - theta)) == m.cos(Radian(m, theta))
    requires m.sin(Radian(m, phi + 180.0)) == -m.sin(Radian(m, phi))
    requires m.cos(Radian(m, phi + 180.0)) == -m.cos(Radian(m, phi))
    ensures OrbitPosition(m, center, distance, 360.0 - theta, phi + 180.0) == OrbitPosition(m, center, distance, theta, phi)
  {
    var st, ct := m.sin(Radian(m, theta)), m.cos(Radian(m, theta));
    var sp, cp := m.sin(Radian(m, phi)), m.cos(Radian(m, phi));
    OrbitComponents(m, center, distance, 360.0 - theta, phi + 180.0, -st, ct, -sp, -cp);
    OrbitComponents(m, center, distance, theta, phi, st, ct, sp, cp);
    assert distance * -st * -sp == distance * st * sp;
    assert distance * -st * -cp == distance * st * cp;
  }

  lemma OrbitComponents(m: OrbitMath, center: Vec3, distance: real, theta: real, phi: real,
                        st: real, ct: real, sp: real, cp: real)
    requires m.sin(Radian(m, theta)) == st && m.cos(Radian(m, theta)) == ct
    requires m.sin(Radian(m, phi)) == sp && m.cos(Radian(m, phi)) == cp
    ensures OrbitPosition(m, center, distance, theta, phi)
      == Vec3(distance * st * sp + center.x, distance * ct + center.y, distance * st * cp + center.z)
  {
    var q := OrbitPosition(m, center, distance, theta, phi);
    assert q.x == distance * st * sp + center.x;
    assert q.y == distance * ct + center.y;
    assert q.z == distance * st * cp + center.z;
  }

  // ---------------------------------------------------------------------
  // get_view_matrix

  /** The view matrix: rows (right, -P.right), (up, -P.up),
      (-front, P.front) and (0, 0, 0, 1). */
  function ViewMatrix(position: Vec3, right: Vec3, up: Vec3, front: Vec3): Mat4 {
    FromRows(Vec4(right.x, right.y, right.z, -Dot3(position, right)),
             Vec4(up.x, up.y, up.z, -Dot3(position, up)),
             Vec4(-front.x, -front.y, -front.z, Dot3(position, front)),
             Vec4(0.0, 0.0, 0.0, 1.0))
  }

  /** The view matrix gives a point's offset from the camera along right,
      up and -front; so the camera itself goes to the origin. */
  lemma ViewCoordinates(position: Vec3, right: Vec3, up: Vec3, front: Vec3, q: Vec3)
    ensures var d := Sub3(q, position);
      MulMV(ViewMatrix(position, right, up, front), Point(q, 1.0))
        == Vec4(Dot3(d, right), Dot3(d, up), -Dot3(d, front), 1.0)
    ensures MulMV(ViewMatrix(position, right, up, front), Point(position, 1.0)) == Vec4(0.0, 0.0, 0.0, 1.0)
  {
    var v, d := ViewMatrix(position, right, up, front), Sub3(q, position);
    var c := MulMV(v, Point(q, 1.0));
    assert c.x == Dot3(d, right);
    assert c.y == Dot3(d, up);
    assert c.z == -Dot3(d, front);
  }

  /** Right, up and front are unit length and pairwise perpendicular. */
  predicate Orthonormal(right: Vec3, up: Vec3, front: Vec3) {
    && Dot3(right, right) == 1.0 && Dot3(up, up) == 1.0 && Dot3(front, front) == 1.0
    && Dot3(right, up) == 0.0 && Dot3(right, front) == 0.0 && Dot3(up, front) == 0.0
  }

  /** A step d from the camera lands on its components along right, up and
      -front. */
  lemma ViewStep(position: Vec3, right: Vec3, up: Vec3, front: Vec3, d: Vec3)
    ensures MulMV(ViewMatrix(position, right, up, front), Point(Add3(position, d), 1.0))
      == Vec4(Dot3(d, right), Dot3(d, up), -Dot3(d, front), 1.0)
  {
    ViewCoordinates(position, right, up, front, Add3(position, d));
    assert Sub3(Add3(position, d), position) == d;
  }

  /** With an orthonormal frame the camera looks down -z: one step right,
      up or forward lands on +x, +y and -z. */
  lemma ViewAxes(position: Vec3, right: Vec3, up: Vec3, front: Vec3)
    requires Orthonormal(right, up, front)
    ensures var v := ViewMatrix(position, right, up, front);
      && MulMV(v, Point(Add3(position, right), 1.0)) == Vec4(1.0, 0.0, 0.0, 1.0)
      && MulMV(v, Point(Add3(position, up), 1.0)) == Vec4(0.0, 1.0, 0.0, 1.0)
      && MulMV(v, Point(Add3(position, front), 1.0)) == Vec4(0.0, 0.0, -1.0, 1.0)
  {
    ViewStep(position, right, up, front, right);
    ViewStep(position, right, up, front, up);
    ViewStep(position, right, up, front, front);
    assert Dot3(up, right) == Dot3(right, up) && Dot3(front, right) == Dot3(right, front);
    assert Dot3(front, up) == Dot3(up, front);
  }

  // ---------------------------------------------------------------------
  // get_perspective_projection_matrix

  function Abs(x: real): real {
    if x < 0.0 then -x else x
  }

  /** The top of the near plane, |n| tan(fov / 2), and the right, aspect
      times that. */
  function Top(m: OrbitMath, fov: real, n: real): real {
    Abs(n) * m.tan(Radian(m, fov) / 2.0)
  }

  /** A perspective projection with depth row (0, 0, a, b): x and y scaled
      by n over the right and top of the near plane, w set to the view
      depth. */
  function Projection(m: OrbitMath, fov: real, aspect: real, n: real, a: real, b: real): Mat4 {
    var t := Top(m, fov, n);
    var r := aspect * t;
    FromRows(Vec4(FDiv(n, r), 0.0, 0.0, 0.0),
             Vec4(0.0, FDiv(n, t), 0.0, 0.0),
             Vec4(0.0, 0.0, a, b),
             Vec4(0.0, 0.0, 1.0, 0.0))
  }

  /** The projection as written: its depth row is (0, 0, 2(n + f)/(n - f),
      -nf/(n - f)). */
  function PerspectiveAsWritten(m: OrbitMath, fov: real, aspect: real, n: real, f: real): Mat4 {
    Projection(m, fov, aspect, n, FDiv(2.0 * (n + f), n - f), FDiv(-n * f, n - f))
  }

  /** The standard perspective projection, the orthographic step of the
      derivation in the comment completed by its missing translation: its
      depth row is (0, 0, (n + f)/(n - f), -2nf/(n - f)). */
  function Perspective(m: OrbitMath, fov: real, aspect: real, n: real, f: real): Mat4 {
    Projection(m, fov, aspect, n, FDiv(n + f, n - f), FDiv(-2.0 * n * f, n - f))
  }

  /** The normalised depth of a point at depth z on the view axis: clip z
      over clip w. */
  function NdcDepth(proj: Mat4, z: real): real {
    var c := MulMV(proj, Vec4(0.0, 0.0, z, 1.0));
    FDiv(c.z, c.w)
  }

  /** With depth row (0, 0, a, b) the depth z goes to (za + b)/z. */
  lemma ProjectionDepth(m: OrbitMath, fov: real, aspect: real, n: real, a: real, b: real, z: real)
    ensures NdcDepth(Projection(m, fov, aspect, n, a, b), z) == FDiv(z * a + b, z)
  {
    var c := MulMV(Projection(m, fov, aspect, n, a, b), Vec4(0.0, 0.0, z, 1.0));
    assert c.z == z * a + b && c.w == z;
  }

  /** The corrected projection sends the near plane to depth 1 and the far
      plane to depth -1. */
  lemma PerspectiveDepthRange(m: OrbitMath, fov: real, aspect: real, n: real, f: real)
    requires n != 0.0 && f != 0.0 && n != f
    ensures NdcDepth(Perspective(m, fov, aspect, n, f), n) == 1.0
    ensures NdcDepth(Perspective(m, fov, aspect, n, f), f) == -1.0
  {
    var a, b := FDiv(n + f, n - f), FDiv(-2.0 * n * f, n - f);
    var p := Projection(m, fov, aspect, n, a, b);
    assert Perspective(m, fov, aspect, n, f) == p;
    ProjectionDepth(m, fov, aspect, n, a, b, n);
    ProjectionDepth(m, fov, aspect, n, a, b, f);
    NearCoefficients(n, f);
    FarCoefficients(n, f);
    assert NdcDepth(p, n) == 1.0 && NdcDepth(p, f) == -1.0;
  }

  /** The algebra of the near plane: (n a + b) / n = 1. */
  lemma NearCoefficients(n: real, f: real)
    requires n != 0.0 && n != f
    ensures FDiv(n * FDiv(n + f, n - f) + FDiv(-2.0 * n * f, n - f), n) == 1.0
  {
    var d := n - f;
    var a, b := FDiv(n + f, d), FDiv(-2.0 * n * f, d);
    assert a == (n + f) / d && b == (-2.0 * n * f) / d;
    DivSum(n * (n + f), -2.0 * n * f, d);
    assert n * a == (n * (n + f)) / d;
    assert n * (n + f) + -2.0 * n * f == n * d;
    assert (n * d) / d == n;
    assert n * a + b == n;
    assert FDiv(n * a + b, n) == n / n == 1.0;
  }

  /** The algebra of the far plane: (f a + b) / f = -1. */
  lemma FarCoefficients(n: real, f: real)
    requires f != 0.0 && n != f
    ensures FDiv(f * FDiv(n + f, n - f) + FDiv(-2.0 * n * f, n - f), f) == -1.0
  {
    var d := n - f;
    var a, b := FDiv(n + f, d), FDiv(-2.0 * n * f, d);
    assert a == (n + f) / d && b == (-2.0 * n * f) / d;
    DivSum(f * (n + f), -2.0 * n * f, d);
    assert f * a == (f * (n + f)) / d;
    assert f * (n + f) + -2.0 * n * f == -f * d;
    assert (-f * d) / d == -f;
    assert f * a + b == -f;
    NegDivSelf(f);
    assert FDiv(f * a + b, f) == -f / f;
  }

  lemma NegDivSelf(x: real)
    requires x != 0.0
    ensures -x / x == -1.0
  {
    assert -x == -1.0 * x;
  }

  lemma DivSum(p: real, q: real, d: real)
    requires d != 0.0
    ensures p / d + q / d == (p + q) / d
  {
  }

  /** As written, the near plane goes to (2n + f)/(n - f): with n = -1 and
      f = -2 that is -4, not 1, and the far plane goes to -5, not -1. */
  lemma PerspectiveAsWrittenDepth(m: OrbitMath, fov: real, aspect: real)
    ensures NdcDepth(PerspectiveAsWritten(m, fov, aspect, -1.0, -2.0), -1.0) == -4.0
    ensures NdcDepth(PerspectiveAsWritten(m, fov, aspect, -1.0, -2.0), -2.0) == -5.0
    ensures NdcDepth(Perspective(m, fov, aspect, -1.0, -2.0), -1.0) == 1.0
  {
    ProjectionDepth(m, fov, aspect, -1.0, -6.0, -2.0, -1.0);
    ProjectionDepth(m, fov, aspect, -1.0, -6.0, -2.0, -2.0);
    PerspectiveDepthRange(m, fov, aspect, -1.0, -2.0);
  }

  /** Both versions agree on x, y and w; only the depth row differs. */
  lemma PerspectiveRowsAgree(m: OrbitMath, fov: real, aspect: real, n: real, f: real, p: Vec4)
    ensures var a, b := MulMV(PerspectiveAsWritten(m, fov, aspect, n, f), p), MulMV(Perspective(m, fov, aspect, n, f), p);
      a.x == b.x && a.y == b.y && a.w == b.w
  {
  }

  // ---------------------------------------------------------------------
  // The constructors' angles

  /** The polar angle the position constructor and `set_surround_point`
      read off the offset `towards` from the camera to the point. */
  function PolarAngle(m: OrbitMath, towards: Vec3, distance: real): real {
    Degrees(m, m.acos(FDiv(-towards.y, distance)))
  }

  /** The azimuth they read off it, using the polar angle before it is
      clamped, negated when the offset points along +x. */
  function Azimuth(m: OrbitMath, towards: Vec3, distance: real, theta: real): real {
    var a := Degrees(m, m.acos(FDiv(-towards.z, distance * m.sin(Radian(m, theta)))));
    if towards.x > 0.0 then -a else a
  }

  /** The angle constructor's normalisation: a polar angle above 180 is
      mirrored to 360 - theta with the azimuth turned half way round (and
      wrapped); the polar angle is then clamped to [5, 175]. */
  function FacingAngles(theta: real, phi: real): (r: (real, real))
    ensures 5.0 <= r.0 <= 175.0
    ensures theta <= 180.0 ==> r.1 == phi
    ensures theta > 180.0 ==> r.1 == Wrap360(phi + 180.0) && -360.0 <= r.1 <= 360.0
    ensures 5.0 <= theta <= 175.0 ==> r.0 == theta
    ensures 185.0 <= theta <= 355.0 ==> r.0 == 360.0 - theta
  {
    Wrap360Spec(phi + 180.0);
    if theta > 180.0 then (Clamp(360.0 - theta, 5.0, 175.0), Wrap360(phi + 180.0))
    else (Clamp(theta, 5.0, 175.0), phi)
  }

  class SurroundCamera {
    var surroundPoint: Vec3
    var position: Vec3
    /** Angle between the offset of the camera and the +y axis, in degrees. */
    var theta: real
    /** Angle between that offset and the +z axis, in degrees. */
    var phi: real
    var distance: real
    var front: Vec3
    var right: Vec3
    var up: Vec3
    /** Field of view in degrees. */
    var fov: real
    var aspect: real
    var znear: real
    var zfar: real

    /** The polar angle is kept in [5, 175] degrees, away from the poles. */
    predicate Valid()
      reads this
    {
      5.0 <= theta <= 175.0
    }

    /** What `update_camera` establishes: the position on the orbit, front
        towards the point, right and up completing the frame. */
    predicate Placed(m: OrbitMath)
      reads this
    {
      && position == OrbitPosition(m, surroundPoint, distance, theta, phi)
      && front == m.normalize(Sub3(surroundPoint, position))
      && right == m.normalize(Cross3(front, WorldUp))
      && up == m.normalize(Cross3(right, front))
    }

    /** `update_camera`. */
    method UpdateCamera(m: OrbitMath)
      modifies this`position, this`front, this`right, this`up
      ensures Placed(m)
    {
      var t, p := Radian(m, theta), Radian(m, phi);
      position := Vec3(distance * m.sin(t) * m.sin(p) + surroundPoint.x,
                       distance * m.cos(t) + surroundPoint.y,
                       distance * m.sin(t) * m.cos(p) + surroundPoint.z);
      var towards := Sub3(surroundPoint, position);
      front := m.normalize(towards);
      right := m.normalize(Cross3(front, WorldUp));
      up := m.normalize(Cross3(right, front));
    }

    /** The angle reading shared by the position constructor and
        `set_surround_point`: distance and angles from the offset to the
        surround point, then the polar angle clamped and the camera
        placed. */
    method Aim(m: OrbitMath)
      modifies this`distance, this`theta, this`phi, this`position, this`front, this`right, this`up
      ensures var towards := Sub3(surroundPoint, old(position));
        && distance == m.norm(towards)
        && theta == Clamp(PolarAngle(m, towards, distance), 5.0, 175.0)
        && phi == Azimuth(m, towards, distance, PolarAngle(m, towards, distance))
      ensures Valid() && Placed(m)
    {
      var towards := Sub3(surroundPoint, position);
      distance := m.norm(towards);
      theta := PolarAngle(m, towards, distance);
      phi := Azimuth(m, towards, distance, theta);
      if theta < 5.0 {
        theta := 5.0;
      } else if theta > 175.0 {
        theta := 175.0;
      }
      UpdateCamera(m);
    }

    /** The constructor from a surround point and a camera position. */
    constructor AtPosition(m: OrbitMath, surroundPoint: Vec3, position: Vec3, fov: real, aspect: real, znear: real, zfar: real)
      ensures this.surroundPoint == surroundPoint
      ensures this.fov == fov && this.aspect == aspect && this.znear == znear && this.zfar == zfar
      ensures var towards := Sub3(surroundPoint, position);
        && distance == m.norm(towards)
        && theta == Clamp(PolarAngle(m, towards, distance), 5.0, 175.0)
        && phi == Azimuth(m, towards, distance, PolarAngle(m, towards, distance))
      ensures Valid() && Placed(m)
    {
      this.surroundPoint, this.position := surroundPoint, position;
      this.fov, this.aspect, this.znear, this.zfar := fov, aspect, znear, zfar;
      theta, phi, distance := 0.0, 0.0, 0.0;
      front, right, up := WorldUp, WorldUp, WorldUp;
      new;
      Aim(m);
    }

    /** The constructor from angles and a distance. */
    constructor AtAngles(m: OrbitMath, surroundPoint: Vec3, theta: real, phi: real, distance: real,
                         fov: real, aspect: real, znear: real, zfar: real)
      ensures this.surroundPoint == surroundPoint && this.distance == distance
      ensures this.fov == fov && this.aspect == aspect && this.znear == znear && this.zfar == zfar
      ensures (this.theta, this.phi) == FacingAngles(theta, phi)
      ensures Valid() && Placed(m)
    {
      this.surroundPoint, this.distance := surroundPoint, distance;
      this.fov, this.aspect, this.znear, this.zfar := fov, aspect, znear, zfar;
      var t, p := theta, phi;
      if t > 180.0 {
        p := p + 180.0;
        p := ConvertTo0To360(p);
        t := 360.0 - t;
      }
      if t < 5.0 {
        t := 5.0;
      } else if t > 175.0 {
        t := 175.0;
      }
      this.theta, this.phi := t, p;
      position, front, right, up := Vec3(0.0, 0.0, 0.0), WorldUp, WorldUp, WorldUp;
      new;
      UpdateCamera(m);
    }

    /** `get_view_matrix`. */
    method GetViewMatrix() returns (view: Mat4)
      ensures view == ViewMatrix(position, right, up, front)
    {
      view := FromRows(Vec4(right.x, right.y, right.z, -Dot3(position, right)),
                       Vec4(up.x, up.y, up.z, -Dot3(position, up)),
                       Vec4(-front.x, -front.y, -front.z, Dot3(position, front)),
                       Vec4(0.0, 0.0, 0.0, 1.0));
    }

    /** `get_perspective_projection_matrix`, with the standard depth row:
        the product of the matrices in its comment, completed by the
        translation the comment leaves out, rather than the row as written
        (`PerspectiveAsWritten`). */
    method GetPerspectiveProjectionMatrix(m: OrbitMath) returns (proj: Mat4)
      ensures proj == Perspective(m, fov, aspect, znear, zfar)
    {
      proj := Perspective(m, fov, aspect, znear, zfar);
    }

    method GetPosition() returns (p: Vec3)
      ensures p == position
    {
      p := position;
    }

    /** `move_camera`: turns by the two deltas, clamps the polar angle,
        wraps the azimuth and places the camera again. */
    method MoveCamera(m: OrbitMath, deltaPhi: real, deltaTheta: real)
      modifies this`theta, this`phi, this`position, this`front, this`right, this`up
      ensures theta == Clamp(old(theta) + deltaTheta, 5.0, 175.0)
      ensures phi == Wrap360(old(phi) + deltaPhi)
      ensures Valid() && -360.0 <= phi <= 360.0 && Placed(m)
    {
      phi := phi + deltaPhi;
      theta := theta + deltaTheta;
      if theta > 175.0 {
        theta := 175.0;
      } else if theta < 5.0 {
        theta := 5.0;
      }
      phi := ConvertTo0To360(phi);
      Wrap360Spec(old(phi) + deltaPhi);
      UpdateCamera(m);
    }

    /** `modify_fov`: the field of view stays in [1, 45] degrees. */
    method ModifyFov(deltaFov: real)
      modifies this`fov
      ensures fov == Clamp(old(fov) + deltaFov, 1.0, 45.0)
    {
      fov := fov + deltaFov;
      if fov < 1.0 {
        fov := 1.0;
      } else if fov > 45.0 {
        fov := 45.0;
      }
    }

    /** `set_surround_point`: the same point changes nothing; a new one is
        aimed at from the current position. */
    method SetSurroundPoint(m: OrbitMath, point: Vec3)
      modifies this
      ensures old(surroundPoint) == point ==> unchanged(this)
      ensures old(surroundPoint) != point ==>
        && surroundPoint == point
        && var towards := Sub3(point, old(position));
        && distance == m.norm(towards)
        && theta == Clamp(PolarAngle(m, towards, distance), 5.0, 175.0)
        && phi == Azimuth(m, towards, distance, PolarAngle(m, towards, distance))
        && Valid() && Placed(m)
        && fov == old(fov) && aspect == old(aspect) && znear == old(znear) && zfar == old(zfar)
    {
      if surroundPoint == point {
        return;
      }
      surroundPoint := point;
      Aim(m);
    }
  }

  /** A placed camera lies on the sphere of radius `distance` around the
      surround point, when the trigonometry obeys sin^2 + cos^2 = 1 at its
      angles. */
  lemma PlacedOnSphere(m: OrbitMath, c: SurroundCamera)
    requires c.Placed(m)
    requires var t := Radian(m, c.theta); m.sin(t) * m.sin(t) + m.cos(t) * m.cos(t) == 1.0
    requires var p := Radian(m, c.phi); m.sin(p) * m.sin(p) + m.cos(p) * m.cos(p) == 1.0
    ensures var off := Sub3(c.position, c.surroundPoint); Dot3(off, off) == c.distance * c.distance
  {
    OrbitRadius(m, c.surroundPoint, c.distance, c.theta, c.phi);
  }
}
