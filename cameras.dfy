/** The interactive perspective camera of the new pipeline (Core/camera.cpp).
    Input polling is replaced by an `Input` value passed to `OnUpdate`; the
    camera matrices glm computes (lookAt, perspectiveFov, inverse, the
    quaternion rotation) come from a `CameraMath` record. */
module Cameras {
  import opened LinAlg
  import Grid

  datatype CameraMath = CameraMath(
    lookAt: (Vec3, Vec3, Vec3) -> Mat4,
    /** (fov in radians, width, height, near, far) */
    perspectiveFov: (real, real, real, real, real) -> Mat4,
    radians: real -> real,
    inverse: Mat4 -> Mat4,
    normalize: Vec3 -> Vec3,
    /** The forward direction after a pitch about `right` and a yaw about `up`:
        (pitch, yaw, right, up, forward). */
    rotate: (real, real, Vec3, Vec3, Vec3) -> Vec3)

  /** The state of the mouse and of the movement keys for one update. */
  datatype Input = Input(
    mousePosition: Vec2, rightButtonDown: bool,
    keyW: bool, keyS: bool, keyA: bool, keyD: bool, keyQ: bool, keyE: bool)

  const Up: Vec3 := Vec3(0.0, 1.0, 0.0)
  const Speed: real := 5.0
  const RotationSpeed: real := 0.3
  const MouseScale: real := 0.002

  /** The viewport matrix, written by columns. */
  function ViewportTransform(w: nat, h: nat): Mat4 {
    Mat4(Vec4(w as real / 2.0, 0.0, 0.0, 0.0), Vec4(0.0, h as real / 2.0, 0.0, 0.0),
         Vec4(0.0, 0.0, 1.0, 0.0), Vec4(w as real / 2.0, h as real / 2.0, 0.0, 1.0))
  }

  /** It maps normalised device coordinates [-1, 1] onto [0, w] x [0, h] and
      keeps depth. */
  lemma ViewportMaps(w: nat, h: nat, x: real, y: real, z: real)
    ensures MulMV(ViewportTransform(w, h), Vec4(x, y, z, 1.0))
         == Vec4(x * (w as real / 2.0) + w as real / 2.0, y * (h as real / 2.0) + h as real / 2.0, z, 1.0)
    ensures MulMV(ViewportTransform(w, h), Vec4(-1.0, -1.0, z, 1.0)) == Vec4(0.0, 0.0, z, 1.0)
    ensures MulMV(ViewportTransform(w, h), Vec4(1.0, 1.0, z, 1.0)) == Vec4(w as real, h as real, z, 1.0)
  {
  }

  /** Pixel coordinate i of n in normalised device coordinates. */
  function Ndc(i: nat, n: nat): real
    requires n > 0
  {
    (i as real / n as real) * 2.0 - 1.0
  }

  /** Pixel coordinates land in [-1, 1); pixel 0 sits on -1, i.e. the table is
      built from pixel corners, not pixel centres. */
  lemma NdcRange(i: nat, n: nat)
    requires i < n
    ensures -1.0 <= Ndc(i, n) < 1.0
    ensures i == 0 ==> Ndc(i, n) == -1.0
  {
    assert i as real / n as real < 1.0 by {
      assert i as real < n as real;
    }
  }

  /** The world-space direction of the ray through pixel (x, y). */
  function RayDirection(m: CameraMath, invProj: Mat4, invView: Mat4, x: nat, y: nat, w: nat, h: nat): Vec3
    requires w > 0 && h > 0
  {
    var target := MulMV(invProj, Vec4(Ndc(x, w), Ndc(y, h), 1.0, 1.0));
    var dir := Vec3(FDiv(target.x, target.w), FDiv(target.y, target.w), FDiv(target.z, target.w));
    Xyz(MulMV(invView, Point(m.normalize(dir), 0.0)))
  }

  /** The ray-direction table, one entry per pixel, row by row. */
  function RayTable(m: CameraMath, invProj: Mat4, invView: Mat4, w: nat, h: nat): seq<Vec3> {
    if w == 0 || h == 0 then []
    else seq(w * h, i requires 0 <= i < w * h => RayDirection(m, invProj, invView, i % w, i / w, w, h))
  }

  /** The table has w * h entries and pixel (x, y) sits at x + y * w. */
  lemma RayTableAt(m: CameraMath, invProj: Mat4, invView: Mat4, w: nat, h: nat, x: nat, y: nat)
    requires x < w && y < h
    ensures |RayTable(m, invProj, invView, w, h)| == w * h
    ensures 0 <= x + y * w < w * h
    ensures RayTable(m, invProj, invView, w, h)[x + y * w] == RayDirection(m, invProj, invView, x, y, w, h)
  {
    Grid.IndexInRange(x, y, w, h);
    Grid.IndexDecompose(x, y, w);
  }

  /** The first n entries of a table hold their pixels' directions. */
  ghost predicate FilledUpTo(m: CameraMath, invProj: Mat4, invView: Mat4, w: nat, h: nat, s: seq<Vec3>, n: nat)
    requires n <= |s|
  {
    w > 0 && h > 0 ==> forall i :: 0 <= i < n ==> s[i] == RayDirection(m, invProj, invView, i % w, i / w, w, h)
  }

  lemma FilledExtend(m: CameraMath, invProj: Mat4, invView: Mat4, w: nat, h: nat, s: seq<Vec3>, x: nat, y: nat)
    requires x < w && y < h && |s| == w * h
    requires 0 <= x + y * w < w * h
    requires FilledUpTo(m, invProj, invView, w, h, s, x + y * w)
    ensures FilledUpTo(m, invProj, invView, w, h, s[x + y * w := RayDirection(m, invProj, invView, x, y, w, h)], x + y * w + 1)
  {
    Grid.IndexDecompose(x, y, w);
  }

  lemma FilledAll(m: CameraMath, invProj: Mat4, invView: Mat4, w: nat, h: nat, s: seq<Vec3>, y: nat)
    requires y == h && |s| == w * h
    requires FilledUpTo(m, invProj, invView, w, h, s, y * w)
    ensures s == RayTable(m, invProj, invView, w, h)
  {
    if w == 0 || h == 0 {
      assert w * h == 0;
    }
  }

  /** Where the movement keys put the camera: W/S along the forward
      direction, A/D along the right direction, Q/E along up; the first key
      of each pair wins. */
  function MovedPosition(pos: Vec3, forward: Vec3, input: Input, ts: real): Vec3 {
    var right := Cross3(forward, Up);
    var p1 := if input.keyW then Add3(pos, Scale3(ts, Scale3(Speed, forward)))
              else if input.keyS then Sub3(pos, Scale3(ts, Scale3(Speed, forward))) else pos;
    var p2 := if input.keyA then Sub3(p1, Scale3(ts, Scale3(Speed, right)))
              else if input.keyD then Add3(p1, Scale3(ts, Scale3(Speed, right))) else p1;
    if input.keyQ then Sub3(p2, Scale3(ts, Scale3(Speed, Up)))
    else if input.keyE then Add3(p2, Scale3(ts, Scale3(Speed, Up))) else p2
  }

  function MouseDelta(input: Input, last: Vec2): Vec2 {
    Scale2(MouseScale, Vec2(input.mousePosition.x - last.x, input.mousePosition.y - last.y))
  }

  /** The forward direction after the mouse moved by `delta`; unchanged when
      the mouse did not move. */
  function TurnedForward(m: CameraMath, forward: Vec3, delta: Vec2): Vec3 {
    if delta == Vec2(0.0, 0.0) then forward
    else m.rotate(delta.y * RotationSpeed, delta.x * RotationSpeed, Cross3(forward, Up), Up, forward)
  }

  predicate AnyMoveKey(input: Input) {
    input.keyW || input.keyS || input.keyA || input.keyD || input.keyQ || input.keyE
  }

  /** Without a key down or a mouse motion, the position does not change. */
  lemma NoKeyNoMove(pos: Vec3, forward: Vec3, input: Input, ts: real)
    ensures !AnyMoveKey(input) ==> MovedPosition(pos, forward, input, ts) == pos
    ensures input.keyW ==> (MovedPosition(pos, forward, input, ts)
      == MovedPosition(Add3(pos, Scale3(ts, Scale3(Speed, forward))), forward, input.(keyW := false, keyS := false), ts))
  {
  }

  class Camera {
    const math: CameraMath
    var viewportTransform: Mat4
    var projection: Mat4
    var view: Mat4
    var inverseProjection: Mat4
    var inverseView: Mat4
    var verticalFOV: real
    var nearClip: real
    var farClip: real
    var position: Vec3
    var forwardDirection: Vec3
    var rayDirections: seq<Vec3>
    var lastMousePosition: Vec2
    var viewportWidth: nat
    var viewportHeight: nat

    function ViewMatrix(): Mat4
      reads this`position, this`forwardDirection
    {
      math.lookAt(position, Add3(position, forwardDirection), Up)
    }

    function ProjectionMatrix(): Mat4
      reads this`verticalFOV, this`viewportWidth, this`viewportHeight, this`nearClip, this`farClip
    {
      math.perspectiveFov(math.radians(verticalFOV), viewportWidth as real, viewportHeight as real, nearClip, farClip)
    }

    function Rays(): seq<Vec3>
      reads this`inverseProjection, this`inverseView, this`viewportWidth, this`viewportHeight
    {
      RayTable(math, inverseProjection, inverseView, viewportWidth, viewportHeight)
    }

    /** Every derived matrix and the ray table agree with the fields they are
        computed from; the projection is still the identity only while no
        size has been set. */
    ghost predicate Valid()
      reads this
    {
      && view == math.lookAt(position, Add3(position, forwardDirection), Up) && inverseView == math.inverse(view)
      && ((projection == math.perspectiveFov(math.radians(verticalFOV), viewportWidth as real, viewportHeight as real, nearClip, farClip)
           && inverseProjection == math.inverse(projection))
          || (viewportWidth == 0 && viewportHeight == 0 && projection == Identity && inverseProjection == Identity))
      && viewportTransform == ViewportTransform(viewportWidth, viewportHeight)
      && rayDirections == RayTable(math, inverseProjection, inverseView, viewportWidth, viewportHeight)
    }

    constructor (math: CameraMath, verticalFOV: real, nearClip: real, farClip: real)
      ensures Valid()
      ensures this.math == math && this.verticalFOV == verticalFOV && this.nearClip == nearClip && this.farClip == farClip
      ensures position == Vec3(0.0, 0.0, 6.0) && forwardDirection == Vec3(0.0, 0.0, -1.0)
      ensures view == math.lookAt(Vec3(0.0, 0.0, 6.0), Vec3(0.0, 0.0, 5.0), Up)
      ensures viewportWidth == 0 && viewportHeight == 0 && viewportTransform == ViewportTransform(0, 0)
      ensures projection == Identity && inverseProjection == Identity && rayDirections == []
      ensures lastMousePosition == Vec2(0.0, 0.0)
    {
      this.math := math;
      this.verticalFOV := verticalFOV;
      this.nearClip := nearClip;
      this.farClip := farClip;
      projection := Identity;
      inverseProjection := Identity;
      rayDirections := [];
      lastMousePosition := Vec2(0.0, 0.0);
      viewportWidth := 0;
      viewportHeight := 0;
      forwardDirection := Vec3(0.0, 0.0, -1.0);
      position := Vec3(0.0, 0.0, 6.0);
      new;
      CalculateView();
      CalculateViewportTransform();
    }

    method CalculateViewportTransform()
      modifies this`viewportTransform
      ensures viewportTransform == ViewportTransform(viewportWidth, viewportHeight)
    {
      viewportTransform := ViewportTransform(viewportWidth, viewportHeight);
    }

    method CalculateProjection()
      modifies this`projection, this`inverseProjection
      ensures projection == ProjectionMatrix() && inverseProjection == math.inverse(projection)
    {
      projection := math.perspectiveFov(math.radians(verticalFOV), viewportWidth as real, viewportHeight as real, nearClip, farClip);
      inverseProjection := math.inverse(projection);
    }

    method CalculateView()
      modifies this`view, this`inverseView
      ensures view == ViewMatrix() && inverseView == math.inverse(view)
    {
      view := math.lookAt(position, Add3(position, forwardDirection), Up);
      inverseView := math.inverse(view);
    }

    /** The inner loop of `calculateRayDirections`: fills row y, which
        starts at entry `start`, left to right. */
    static method FillRow(m: CameraMath, ip: Mat4, iv: Mat4, w: nat, h: nat, table: seq<Vec3>, y: nat, start: nat)
      returns (filled: seq<Vec3>)
      requires y < h && start == y * w && |table| == w * h && start + w <= |table|
      requires FilledUpTo(m, ip, iv, w, h, table, start)
      ensures |filled| == w * h && FilledUpTo(m, ip, iv, w, h, filled, start + w)
    {
      filled := table;
      var x := 0;
      while x < w
        invariant 0 <= x <= w
        invariant |filled| == w * h
        invariant FilledUpTo(m, ip, iv, w, h, filled, start + x)
      {
        Grid.IndexInRange(x, y, w, h);
        FilledExtend(m, ip, iv, w, h, filled, x, y);
        filled := filled[start + x := RayDirection(m, ip, iv, x, y, w, h)];
        x := x + 1;
      }
    }

    /** `calculateRayDirections`: resizes the table to one entry per pixel and
        fills it row by row. */
    method CalculateRayDirections()
      modifies this`rayDirections
      ensures rayDirections == Rays()
    {
      var w, h := viewportWidth, viewportHeight;
      var m, ip, iv := math, inverseProjection, inverseView;
      var table := ResizeSeq(rayDirections, w * h, Vec3(0.0, 0.0, 0.0));
      var y, start := 0, 0;
      while y < h
        invariant 0 <= y <= h && start == y * w
        invariant |table| == w * h
        invariant FilledUpTo(m, ip, iv, w, h, table, start)
      {
        if w > 0 {
          Grid.IndexInRange(w - 1, y, w, h);
        }
        table := FillRow(m, ip, iv, w, h, table, y, start);
        y, start := y + 1, start + w;
      }
      FilledAll(m, ip, iv, w, h, table, y);
      rayDirections := table;
    }

    /** `onResize`: nothing happens for the current size; otherwise the size
        is stored and projection, ray table and viewport matrix follow it. */
    method OnResize(width: nat, height: nat)
      requires Valid()
      modifies this
      ensures Valid()
      ensures width == old(viewportWidth) && height == old(viewportHeight) ==> unchanged(this)
      ensures viewportWidth == width && viewportHeight == height
      ensures width != old(viewportWidth) || height != old(viewportHeight) ==>
        && projection == ProjectionMatrix() && inverseProjection == math.inverse(projection)
        && viewportTransform == ViewportTransform(width, height)
        && rayDirections == Rays()
      ensures view == old(view) && inverseView == old(inverseView)
      ensures position == old(position) && forwardDirection == old(forwardDirection)
      ensures verticalFOV == old(verticalFOV) && nearClip == old(nearClip) && farClip == old(farClip)
      ensures lastMousePosition == old(lastMousePosition)
    {
      if width == viewportWidth && height == viewportHeight {
        return;
      }
      viewportWidth := width;
      viewportHeight := height;
      CalculateProjection();
      CalculateRayDirections();
      CalculateViewportTransform();
    }

    /** `onUpdate`: remembers the mouse position; with the right button up
        nothing else changes and no move is reported. Otherwise keys move the
        camera, mouse motion turns it, and a move recomputes view, projection
        and ray table together. */
    method OnUpdate(ts: real, input: Input) returns (moved: bool)
      requires Valid()
      modifies this
      ensures Valid()
      ensures lastMousePosition == input.mousePosition
      ensures viewportWidth == old(viewportWidth) && viewportHeight == old(viewportHeight)
      ensures verticalFOV == old(verticalFOV) && nearClip == old(nearClip) && farClip == old(farClip)
      ensures viewportTransform == old(viewportTransform)
      ensures moved == (input.rightButtonDown && (AnyMoveKey(input) || MouseDelta(input, old(lastMousePosition)) != Vec2(0.0, 0.0)))
      ensures !moved ==> view == old(view) && projection == old(projection) && rayDirections == old(rayDirections)
      ensures !moved ==> position == old(position) && forwardDirection == old(forwardDirection)
      ensures moved ==> position == MovedPosition(old(position), old(forwardDirection), input, ts)
      ensures moved ==> forwardDirection == TurnedForward(math, old(forwardDirection), MouseDelta(input, old(lastMousePosition)))
      ensures moved ==> projection == ProjectionMatrix() && inverseProjection == math.inverse(projection)
    {
      var delta := MouseDelta(input, lastMousePosition);
      lastMousePosition := input.mousePosition;
      if !input.rightButtonDown {
        return false;
      }
      moved := AnyMoveKey(input) || delta != Vec2(0.0, 0.0);
      if moved {
        MoveTo(MovedPosition(position, forwardDirection, input, ts), TurnedForward(math, forwardDirection, delta));
      }
    }

    /** The moved branch of `onUpdate`: the new pose, then view, projection
        and ray table recomputed from it. */
    method MoveTo(newPosition: Vec3, newForward: Vec3)
      requires Valid()
      modifies this
      ensures Valid()
      ensures position == newPosition && forwardDirection == newForward
      ensures projection == ProjectionMatrix() && inverseProjection == math.inverse(projection)
      ensures viewportWidth == old(viewportWidth) && viewportHeight == old(viewportHeight)
      ensures verticalFOV == old(verticalFOV) && nearClip == old(nearClip) && farClip == old(farClip)
      ensures viewportTransform == old(viewportTransform) && lastMousePosition == old(lastMousePosition)
    {
      position, forwardDirection := newPosition, newForward;
      CalculateView();
      CalculateProjection();
      CalculateRayDirections();
    }
  }
}
