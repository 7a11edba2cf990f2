/**
 * The first-person camera of the wormhole viewer (Camera.h).
 *
 * The camera lives in the flat embedding of a two-sheeted wormhole: its
 * position is a point of ordinary 3-space, the throat is the ball of
 * `wormhole.radius` around the origin, and the signed number `l` records how
 * far outside the throat the camera is and on which sheet (its sign). Every
 * translation goes through `CrossSpace`, which reflects a candidate position
 * that landed inside the ball back out through the throat, and the sign of `l`
 * flips when that happens.
 *
 * Vector lengths and axis rotations are parameters (see module Vectors).
 */
module Cameras {
  import opened Vectors
  import opened WormholeParameters

  /** Camera::Sign: +1 for a strictly positive argument, -1 otherwise (zero included). */
  function Sign(v: real): (s: int)
    ensures s == 1 || s == -1
    ensures s == 1 <==> 0.0 < v
  {
    if v > 0.0 then 1 else -1
  }

  /**
   * Camera::CrossSpace: a candidate position at or inside the throat sphere is
   * pushed out along its own ray to the mirror distance, and reported as a
   * crossing. The previous position is passed but never used.
   */
  function CrossSpace(length: Vec3 -> real, newPos: Vec3, oldPos: Vec3, wormhole: Wormhole): (result: (Vec3, bool))
    ensures result.1 <==> length(newPos) <= wormhole.radius
    ensures !result.1 ==> result.0 == newPos
  {
    var r := length(newPos);
    if r <= wormhole.radius then
      var reflectionR := wormhole.radius - r;
      var reflectionDir := Normalize(length, newPos);
      (Add(newPos, Scale(reflectionR * 2.0, reflectionDir)), true)
    else
      (newPos, false)
  }

  /** Position, signed sheet distance and radial distance of the camera. */
  datatype Placement = Placement(position: Vec3, l: real, r: real)

  /**
   * The common tail of SetPosition, Walk, Strafe and Fly: cross space, then set
   * l to the distance outside the throat with the old sheet's sign, negated on a
   * crossing, and r to the distance from the centre.
   */
  function Relocate(length: Vec3 -> real, candidate: Vec3, oldPos: Vec3, oldL: real, wormhole: Wormhole): (p: Placement)
    ensures p.position == CrossSpace(length, candidate, oldPos, wormhole).0
    ensures p.r == length(p.position)
    ensures Abs(p.l) == Abs(p.r - wormhole.radius)
  {
    var moved := CrossSpace(length, candidate, oldPos, wormhole);
    var l := (length(moved.0) - wormhole.radius) * Sign(oldL) as real;
    Placement(moved.0, if moved.1 then -l else l, length(moved.0))
  }

  /** The candidate of Walk, Strafe and Fly: dt is first multiplied by the sheet's sign. */
  function Step(position: Vec3, axis: Vec3, dt: real, l: real, speed: real): (p: Vec3)
    ensures Sub(p, position) == Scale(dt * speed * Sign(l) as real, axis)
    ensures l <= 0.0 ==> Sub(p, position) == Scale(-(dt * speed), axis)
  {
    Add(position, Scale(dt * Sign(l) as real * speed, axis))
  }

  lemma CrossSpaceIgnoresOldPosition(length: Vec3 -> real, newPos: Vec3, a: Vec3, b: Vec3, wormhole: Wormhole)
    ensures CrossSpace(length, newPos, a, wormhole) == CrossSpace(length, newPos, b, wormhole)
  {
  }

  /**
   * A candidate strictly inside the throat (and off its centre) is reflected
   * outward along its own ray, to distance 2 radius - r, never closer than the
   * throat sphere.
   */
  lemma CrossSpaceReflects(length: Vec3 -> real, p: Vec3, oldPos: Vec3, wormhole: Wormhole)
    requires IsEuclideanLength(length)
    requires 0.0 < length(p) <= wormhole.radius
    ensures CrossSpace(length, p, oldPos, wormhole).1
    ensures CrossSpace(length, p, oldPos, wormhole).0 == Scale((2.0 * wormhole.radius - length(p)) / length(p), p)
    ensures 1.0 <= (2.0 * wormhole.radius - length(p)) / length(p)
    ensures length(CrossSpace(length, p, oldPos, wormhole).0) == 2.0 * wormhole.radius - length(p)
    ensures wormhole.radius <= length(CrossSpace(length, p, oldPos, wormhole).0)
  {
    ReflectionFactor(length(p), wormhole.radius);
    ReflectAlongRay(length, p, wormhole.radius);
  }

  /** The real arithmetic of the reflection: the factor on p is at least one. */
  lemma ReflectionFactor(r: real, R: real)
    requires 0.0 < r <= R
    ensures (R - r) * 2.0 * (1.0 / r) == (2.0 * R - r) / r - 1.0
    ensures 1.0 <= (2.0 * R - r) / r
    ensures (2.0 * R - r) / r * r == 2.0 * R - r
  {
  }

  /** Moving p by twice its distance to the sphere of radius R along its own ray. */
  lemma ReflectAlongRay(length: Vec3 -> real, p: Vec3, R: real)
    requires IsEuclideanLength(length)
    requires 0.0 < length(p) <= R
    ensures var c := (2.0 * R - length(p)) / length(p);
      && Add(p, Scale((R - length(p)) * 2.0, Normalize(length, p))) == Scale(c, p)
      && length(Scale(c, p)) == 2.0 * R - length(p)
  {
    var r := length(p);
    var c := (2.0 * R - r) / r;
    ReflectionFactor(r, R);
    NormalizeNonZero(length, p);
    AddAlongItself((R - r) * 2.0, 1.0 / r, c, p);
    LengthOfScaled(length, c, p);
  }

  /** A candidate outside the throat sphere is taken as it is. */
  lemma CrossSpacePassesOutside(length: Vec3 -> real, p: Vec3, oldPos: Vec3, wormhole: Wormhole)
    requires wormhole.radius < length(p)
    ensures CrossSpace(length, p, oldPos, wormhole) == (p, false)
  {
  }

  /**
   * After any move whose candidate is not the throat's centre, the camera is
   * outside the throat or on its sphere, r is its distance from the centre and
   * |l| is its distance from the sphere.
   */
  lemma {:induction false} RelocateLandsOutside(length: Vec3 -> real, candidate: Vec3, oldPos: Vec3, oldL: real, wormhole: Wormhole)
    requires IsEuclideanLength(length)
    requires length(candidate) != 0.0
    ensures var p := Relocate(length, candidate, oldPos, oldL, wormhole);
      && p.r == length(p.position)
      && wormhole.radius <= p.r
      && Abs(p.l) == p.r - wormhole.radius
  {
    if length(candidate) <= wormhole.radius {
      CrossSpaceReflects(length, candidate, oldPos, wormhole);
    }
  }

  /**
   * The sheet changes exactly when the move crosses the throat, provided the
   * candidate is neither the centre nor exactly on the throat sphere.
   */
  lemma {:induction false} SheetFlipsIffCrossing(length: Vec3 -> real, candidate: Vec3, oldPos: Vec3, oldL: real, wormhole: Wormhole)
    requires IsEuclideanLength(length)
    requires length(candidate) != 0.0 && length(candidate) != wormhole.radius
    ensures var p := Relocate(length, candidate, oldPos, oldL, wormhole);
      Sign(p.l) == (if CrossSpace(length, candidate, oldPos, wormhole).1 then -Sign(oldL) else Sign(oldL))
  {
    if length(candidate) <= wormhole.radius {
      CrossSpaceReflects(length, candidate, oldPos, wormhole);
    }
  }

  /**
   * A candidate exactly on the throat sphere counts as a crossing but stays
   * where it is with l = 0, whose sign is -1: from the positive sheet the
   * camera flips, from the negative sheet it stays.
   */
  lemma {:induction false} RelocateOnThroatSphere(length: Vec3 -> real, candidate: Vec3, oldPos: Vec3, oldL: real, wormhole: Wormhole)
    requires length(candidate) == wormhole.radius
    ensures var p := Relocate(length, candidate, oldPos, oldL, wormhole);
      p.position == candidate && p.l == 0.0 && Sign(p.l) == -1
  {
    var moved := CrossSpace(length, candidate, oldPos, wormhole);
    assert moved.0 == Add(candidate, Scale(0.0, Normalize(length, candidate)));
  }

  /**
   * A candidate exactly at the centre is not pushed out at all: the camera
   * stays at the centre, inside a throat of positive radius, on its old sheet.
   */
  lemma {:induction false} RelocateAtCentre(length: Vec3 -> real, oldPos: Vec3, oldL: real, wormhole: Wormhole)
    requires length(Zero) == 0.0
    requires 0.0 < wormhole.radius
    ensures var p := Relocate(length, Zero, oldPos, oldL, wormhole);
      && p.position == Zero && p.r == 0.0
      && p.l == wormhole.radius * Sign(oldL) as real
      && Sign(p.l) == Sign(oldL)
  {
    assert Normalize(length, Zero) == Zero;
    var moved := CrossSpace(length, Zero, oldPos, wormhole);
    assert moved == (Zero, true);
    var l := (0.0 - wormhole.radius) * Sign(oldL) as real;
    assert Relocate(length, Zero, oldPos, oldL, wormhole) == Placement(Zero, -l, 0.0);
  }

  /**
   * Worked example: from the positive sheet, a candidate at (0.2, 0, 0) with
   * the default throat lands at (0.8, 0, 0) with l = -0.3. Only the two
   * lengths the example needs are assumed of `length`.
   */
  lemma ReflectionExample(length: Vec3 -> real, oldPos: Vec3, oldL: real)
    requires length(Vec3(0.2, 0.0, 0.0)) == 0.2 && length(Vec3(0.8, 0.0, 0.0)) == 0.8
    requires 0.0 < oldL
    ensures Relocate(length, Vec3(0.2, 0.0, 0.0), oldPos, oldL, Default()) == Placement(Vec3(0.8, 0.0, 0.0), -0.3, 0.8)
  {
    var p := Vec3(0.2, 0.0, 0.0);
    assert Normalize(length, p) == Vec3(1.0, 0.0, 0.0);
    assert CrossSpace(length, p, oldPos, Default()) == (Vec3(0.8, 0.0, 0.0), true);
  }

  /** Walk, Strafe and Fly move |dt| speed along a unit axis, backwards on the negative sheet. */
  lemma {:induction false} StepDistance(length: Vec3 -> real, position: Vec3, axis: Vec3, dt: real, l: real, speed: real)
    requires IsEuclideanLength(length)
    requires IsUnit(axis) && 0.0 <= speed
    ensures length(Sub(Step(position, axis, dt, l, speed), position)) == Abs(dt) * speed
  {
    var c := dt * Sign(l) as real * speed;
    assert Sub(Step(position, axis, dt, l, speed), position) == Scale(c, axis);
    LengthOfScaled(length, c, axis);
    UnitLength(length, axis);
    assert Abs(c) == Abs(dt) * speed;
  }

  /**
   * XMMatrixRotationAxis followed by XMVector3TransformNormal, as a function
   * rotate(axis, angle, v): it preserves dot products and fixes a unit axis.
   */
  ghost predicate IsRotation(rotate: (Vec3, real, Vec3) -> Vec3) {
    && (forall axis, angle, u, v :: Dot(rotate(axis, angle, u), rotate(axis, angle, v)) == Dot(u, v))
    && (forall axis, angle :: IsUnit(axis) ==> rotate(axis, angle, axis) == axis)
  }

  const WorldY := Vec3(0.0, 1.0, 0.0)

  /** Pitch: up and look turn about right. */
  function Pitched(f: Frame, angle: real, rotate: (Vec3, real, Vec3) -> Vec3): Frame {
    Frame(f.right, rotate(f.right, angle, f.up), rotate(f.right, angle, f.look))
  }

  /** The angle a turn call rotates by: the requested angle times the camera's rotation rate. */
  function TurnAngle(angle: real, rate: real): real {
    angle * rate
  }

  /** Yaw: right and look turn about up. */
  function Yawed(f: Frame, angle: real, rotate: (Vec3, real, Vec3) -> Vec3): Frame {
    Frame(rotate(f.up, angle, f.right), f.up, rotate(f.up, angle, f.look))
  }

  /** Roll: right and up turn about look. */
  function Rolled(f: Frame, angle: real, rotate: (Vec3, real, Vec3) -> Vec3): Frame {
    Frame(rotate(f.look, angle, f.right), rotate(f.look, angle, f.up), f.look)
  }

  /** RotateY: all three turn about the world Y axis (XMMatrixRotationY). */
  function TurnedY(f: Frame, angle: real, rotate: (Vec3, real, Vec3) -> Vec3): Frame {
    Frame(rotate(WorldY, angle, f.right), rotate(WorldY, angle, f.up), rotate(WorldY, angle, f.look))
  }

  lemma PitchKeepsOrthonormal(f: Frame, angle: real, rotate: (Vec3, real, Vec3) -> Vec3)
    requires IsRotation(rotate) && Orthonormal(f)
    ensures Orthonormal(Pitched(f, angle, rotate))
  {
    assert rotate(f.right, angle, f.right) == f.right;
    assert Dot(rotate(f.right, angle, f.right), rotate(f.right, angle, f.up)) == Dot(f.right, f.up);
    assert Dot(rotate(f.right, angle, f.right), rotate(f.right, angle, f.look)) == Dot(f.right, f.look);
  }

  lemma YawKeepsOrthonormal(f: Frame, angle: real, rotate: (Vec3, real, Vec3) -> Vec3)
    requires IsRotation(rotate) && Orthonormal(f)
    ensures Orthonormal(Yawed(f, angle, rotate))
  {
    assert rotate(f.up, angle, f.up) == f.up;
    assert Dot(rotate(f.up, angle, f.right), rotate(f.up, angle, f.up)) == Dot(f.right, f.up);
    assert Dot(rotate(f.up, angle, f.up), rotate(f.up, angle, f.look)) == Dot(f.up, f.look);
  }

  lemma RollKeepsOrthonormal(f: Frame, angle: real, rotate: (Vec3, real, Vec3) -> Vec3)
    requires IsRotation(rotate) && Orthonormal(f)
    ensures Orthonormal(Rolled(f, angle, rotate))
  {
    assert rotate(f.look, angle, f.look) == f.look;
    assert Dot(rotate(f.look, angle, f.right), rotate(f.look, angle, f.look)) == Dot(f.right, f.look);
    assert Dot(rotate(f.look, angle, f.up), rotate(f.look, angle, f.look)) == Dot(f.up, f.look);
  }

  lemma TurnYKeepsOrthonormal(f: Frame, angle: real, rotate: (Vec3, real, Vec3) -> Vec3)
    requires IsRotation(rotate) && Orthonormal(f)
    ensures Orthonormal(TurnedY(f, angle, rotate))
  {
  }

  /**
   * The basis LookAt builds: look points from the eye to the target, right is
   * worldUp x look normalized, up is look x right.
   */
  function LookAtFrame(length: Vec3 -> real, eye: Vec3, target: Vec3, worldUp: Vec3): (f: Frame)
    ensures Dot(f.right, f.look) == 0.0 && Dot(f.right, worldUp) == 0.0
    ensures Dot(f.up, f.look) == 0.0 && Dot(f.up, f.right) == 0.0
  {
    var look := Normalize(length, Sub(target, eye));
    var w := Cross(worldUp, look);
    var right := Normalize(length, w);
    CrossOrthogonal(worldUp, look);
    NormalizeKeepsOrthogonal(length, w, look);
    DotSymmetric(worldUp, w);
    NormalizeKeepsOrthogonal(length, w, worldUp);
    CrossOrthogonal(look, right);
    Frame(right, Cross(look, right), look)
  }

  /**
   * Unless the target is the eye or worldUp is parallel to the view
   * direction, LookAt yields an orthonormal basis whose look axis reaches the
   * target from the eye after the eye-target distance.
   */
  lemma {:induction false} LookAtFrameOrthonormal(length: Vec3 -> real, eye: Vec3, target: Vec3, worldUp: Vec3)
    requires IsEuclideanLength(length)
    requires length(Sub(target, eye)) != 0.0
    requires length(Cross(worldUp, Normalize(length, Sub(target, eye)))) != 0.0
    ensures Orthonormal(LookAtFrame(length, eye, target, worldUp))
    ensures Add(eye, Scale(length(Sub(target, eye)), LookAtFrame(length, eye, target, worldUp).look)) == target
  {
    var d := Sub(target, eye);
    var look := Normalize(length, d);
    var w := Cross(worldUp, look);
    var right := Normalize(length, w);
    NormalizeNonZero(length, d);
    NormalizeNonZero(length, w);
    CrossOrthogonal(worldUp, look);
    ScaleKeepsOrthogonal(1.0 / length(w), w, look);
    CrossOfOrthonormal(look, right);
    CrossOrthogonal(look, right);
    ScaleScale(length(d), 1.0 / length(d), d);
  }

  /** A 4x4 matrix as four rows (XMFLOAT4X4, row-vector convention). */
  datatype Row = Row(c0: real, c1: real, c2: real, c3: real)
  datatype Matrix = Matrix(r0: Row, r1: Row, r2: Row, r3: Row)

  /** The matrix UpdateView stores: the basis as columns, the eye's negated coordinates as the last row. */
  function ViewMatrix(f: Frame, eye: Vec3): Matrix {
    Matrix(Row(f.right.x, f.up.x, f.look.x, 0.0),
           Row(f.right.y, f.up.y, f.look.y, 0.0),
           Row(f.right.z, f.up.z, f.look.z, 0.0),
           Row(-Dot(eye, f.right), -Dot(eye, f.up), -Dot(eye, f.look), 1.0))
  }

  /** A point (w = 1) times the matrix. */
  function TransformPoint(m: Matrix, p: Vec3): Vec3 {
    Vec3(p.x * m.r0.c0 + p.y * m.r1.c0 + p.z * m.r2.c0 + m.r3.c0,
         p.x * m.r0.c1 + p.y * m.r1.c1 + p.z * m.r2.c1 + m.r3.c1,
         p.x * m.r0.c2 + p.y * m.r1.c2 + p.z * m.r2.c2 + m.r3.c2)
  }

  /** A direction (w = 0) times the matrix. */
  function TransformDirection(m: Matrix, v: Vec3): Vec3 {
    Vec3(v.x * m.r0.c0 + v.y * m.r1.c0 + v.z * m.r2.c0,
         v.x * m.r0.c1 + v.y * m.r1.c1 + v.z * m.r2.c1,
         v.x * m.r0.c2 + v.y * m.r1.c2 + v.z * m.r2.c2)
  }

  /**
   * The view matrix sends a point to its offset from the eye measured along
   * right, up and look: the eye goes to the origin.
   */
  lemma ViewMatrixCoordinates(f: Frame, eye: Vec3, p: Vec3)
    ensures TransformPoint(ViewMatrix(f, eye), p) == Vec3(Dot(Sub(p, eye), f.right), Dot(Sub(p, eye), f.up), Dot(Sub(p, eye), f.look))
    ensures TransformPoint(ViewMatrix(f, eye), eye) == Zero
  {
  }

  /** For an orthonormal basis the view matrix turns right, up, look into the x, y, z axes. */
  lemma ViewMatrixAxes(f: Frame, eye: Vec3)
    requires Orthonormal(f)
    ensures TransformDirection(ViewMatrix(f, eye), f.right) == Vec3(1.0, 0.0, 0.0)
    ensures TransformDirection(ViewMatrix(f, eye), f.up) == Vec3(0.0, 1.0, 0.0)
    ensures TransformDirection(ViewMatrix(f, eye), f.look) == Vec3(0.0, 0.0, 1.0)
  {
    ViewMatrixDirection(f, eye, f.right);
    ViewMatrixDirection(f, eye, f.up);
    ViewMatrixDirection(f, eye, f.look);
    DotSymmetric(f.up, f.right);
    DotSymmetric(f.look, f.right);
    DotSymmetric(f.look, f.up);
  }

  /** A direction is sent to its components along right, up and look. */
  lemma ViewMatrixDirection(f: Frame, eye: Vec3, v: Vec3)
    ensures TransformDirection(ViewMatrix(f, eye), v) == Vec3(Dot(v, f.right), Dot(v, f.up), Dot(v, f.look))
  {
  }

  /** UpdateView's re-orthonormalization: right from up x look, up from look x right, look normalized. */
  function Reorthonormalized(length: Vec3 -> real, f: Frame): Frame {
    var right := Normalize(length, Cross(f.up, f.look));
    var up := Normalize(length, Cross(f.look, right));
    Frame(right, up, Normalize(length, f.look))
  }

  /** UpdateView repairs any basis whose look is non-zero and not parallel to up. */
  lemma {:induction false} ReorthonormalizedIsOrthonormal(length: Vec3 -> real, f: Frame)
    requires IsEuclideanLength(length)
    requires length(f.look) != 0.0 && length(Cross(f.up, f.look)) != 0.0
    ensures Orthonormal(Reorthonormalized(length, f))
  {
    var w := Cross(f.up, f.look);
    var right := Normalize(length, w);
    var v := Cross(f.look, right);
    var look := Normalize(length, f.look);
    NormalizeNonZero(length, w);
    NormalizeNonZero(length, f.look);
    CrossOrthogonal(f.up, f.look);
    ScaleKeepsOrthogonal(1.0 / length(w), w, f.look);
    // |look x right|^2 = |look|^2 because right is a unit vector orthogonal to look
    Lagrange(f.look, right);
    var n := length(f.look);
    assert n * n == Dot(f.look, f.look);
    assert n * n != 0.0;
    assert length(v) * length(v) == Dot(v, v) == n * n;
    assert length(v) != 0.0;
    NormalizeNonZero(length, v);
    CrossOrthogonal(f.look, right);
    NormalizeKeepsOrthogonal(length, v, right);
    NormalizeKeepsOrthogonal(length, v, f.look);
    ScaleKeepsOrthogonal(1.0 / n, f.look, right);
    ScaleKeepsOrthogonal(1.0 / n, f.look, Normalize(length, v));
  }

  /** UpdateView leaves an orthonormal basis with right = up x look exactly as it is. */
  lemma {:induction false} ReorthonormalizedFixesRightHandedBasis(length: Vec3 -> real, f: Frame)
    requires IsEuclideanLength(length)
    requires Orthonormal(f) && f.right == Cross(f.up, f.look)
    ensures Reorthonormalized(length, f) == f
  {
    UnitLength(length, f.right);
    UnitLength(length, f.look);
    TripleCross(f.look, f.up, f.look);
    assert Cross(f.look, f.right) == f.up;
    UnitLength(length, f.up);
  }

  /** Width, height, aspect ratio and the two fields of view, in radians. */
  datatype Optics = Optics(width: nat, height: nat, aspect: real, fovX: real, fovY: real)

  /** DirectXMath's XM_PI as the source spells it. */
  const Pi: real := 3.141592654

  /**
   * SetResolutionFOV: the horizontal field of view is given in degrees; the
   * aspect ratio is width / height and the vertical field of view is the
   * horizontal one scaled by height / width.
   */
  function ResolutionFOV(width: nat, height: nat, fovDegrees: real): (o: Optics)
    requires 0 < width && 0 < height
    ensures o.width == width && o.height == height
    ensures o.aspect * height as real == width as real
    ensures o.fovX * 180.0 == fovDegrees * Pi
    ensures o.fovY * o.aspect == o.fovX
  {
    var aspect := width as real / height as real;
    var fovX := fovDegrees * Pi / 180.0;
    Optics(width, height, aspect, fovX, fovX * height as real / width as real)
  }

  /** Speed, rotation rate and the clipping planes. */
  datatype Settings = Settings(speed: real, rotateRate: real, nearZ: real, farZ: real)

  class Camera {
    var right: Vec3
    var up: Vec3
    var look: Vec3
    var position: Vec3
    var aspect: real
    var fovX: real
    var fovY: real
    var nearZ: real
    var farZ: real
    var view: Matrix
    var speed: real
    var rotateRate: real
    var width: nat
    var height: nat
    /** Signed distance outside the throat; its sign is the sheet. */
    var l: real
    /** Distance from the throat's centre. */
    var r: real

    function Basis(): Frame
      reads this
    {
      Frame(right, up, look)
    }

    function Place(): Placement
      reads this
    {
      Placement(position, l, r)
    }

    function Lens(): Optics
      reads this
    {
      Optics(width, height, aspect, fovX, fovY)
    }

    function Tuning(): Settings
      reads this
    {
      Settings(speed, rotateRate, nearZ, farZ)
    }

    /**
     * The default camera: axis-aligned basis at (2, 2, 2) on the positive
     * sheet. The aspect ratio, fovX, the view matrix and r are left
     * uninitialized by the source; the model promises nothing about them.
     */
    constructor ()
      ensures Basis() == Frame(Vec3(1.0, 0.0, 0.0), Vec3(0.0, 1.0, 0.0), Vec3(0.0, 0.0, 1.0))
      ensures Orthonormal(Basis()) && right == Cross(up, look)
      ensures position == Vec3(2.0, 2.0, 2.0) && l == 1.0 && Sign(l) == 1
      ensures fovY == 0.785398163 && width == 1280 && height == 720
      ensures Tuning() == Settings(10.0, 1.0, 0.1, 100.0)
    {
      right := Vec3(1.0, 0.0, 0.0);
      up := Vec3(0.0, 1.0, 0.0);
      look := Vec3(0.0, 0.0, 1.0);
      position := Vec3(2.0, 2.0, 2.0);
      fovY := 0.785398163;
      nearZ := 0.1;
      farZ := 100.0;
      speed := 10.0;
      rotateRate := 1.0;
      width := 1280;
      height := 720;
      l := 1.0;
      aspect := 0.0;
      fovX := 0.0;
      r := 0.0;
      view := Matrix(Row(0.0, 0.0, 0.0, 0.0), Row(0.0, 0.0, 0.0, 0.0), Row(0.0, 0.0, 0.0, 0.0), Row(0.0, 0.0, 0.0, 0.0));
    }

    method SetResolutionFOV(w: nat, h: nat, fovDegrees: real)
      requires 0 < w && 0 < h
      modifies this
      ensures Lens() == ResolutionFOV(w, h, fovDegrees)
      ensures Basis() == old(Basis()) && Place() == old(Place())
      ensures Tuning() == old(Tuning()) && view == old(view)
    {
      var o := ResolutionFOV(w, h, fovDegrees);
      width, height := o.width, o.height;
      aspect, fovX, fovY := o.aspect, o.fovX, o.fovY;
    }

    /** SetPosition(pos, wormhole): teleport through CrossSpace, updating l and r. */
    method SetPosition(pos: Vec3, wormhole: Wormhole, length: Vec3 -> real)
      modifies this
      ensures Place() == Relocate(length, pos, old(position), old(l), wormhole)
      ensures Basis() == old(Basis()) && Lens() == old(Lens())
      ensures Tuning() == old(Tuning()) && view == old(view)
    {
      var oldPos := position;
      var moved := CrossSpace(length, pos, oldPos, wormhole);
      l := (length(moved.0) - wormhole.radius) * Sign(l) as real;
      if moved.1 {
        l := -l;
      }
      r := length(moved.0);
      position := moved.0;
    }

    /** Move along look by dt * speed, reversed on the negative sheet. */
    method Walk(dt: real, wormhole: Wormhole, length: Vec3 -> real)
      modifies this
      ensures Place() == Relocate(length, Step(old(position), old(look), dt, old(l), old(speed)), old(position), old(l), wormhole)
      ensures Basis() == old(Basis()) && Lens() == old(Lens())
      ensures Tuning() == old(Tuning()) && view == old(view)
    {
      SetPosition(Step(position, look, dt, l, speed), wormhole, length);
    }

    /** Move along right by dt * speed, reversed on the negative sheet. */
    method Strafe(dt: real, wormhole: Wormhole, length: Vec3 -> real)
      modifies this
      ensures Place() == Relocate(length, Step(old(position), old(right), dt, old(l), old(speed)), old(position), old(l), wormhole)
      ensures Basis() == old(Basis()) && Lens() == old(Lens())
      ensures Tuning() == old(Tuning()) && view == old(view)
    {
      SetPosition(Step(position, right, dt, l, speed), wormhole, length);
    }

    /** Move along up by dt * speed, reversed on the negative sheet. */
    method Fly(dt: real, wormhole: Wormhole, length: Vec3 -> real)
      modifies this
      ensures Place() == Relocate(length, Step(old(position), old(up), dt, old(l), old(speed)), old(position), old(l), wormhole)
      ensures Basis() == old(Basis()) && Lens() == old(Lens())
      ensures Tuning() == old(Tuning()) && view == old(view)
    {
      SetPosition(Step(position, up, dt, l, speed), wormhole, length);
    }

    /**
     * LookAt: place the eye and build the basis toward the target. l takes the
     * eye's distance from the centre with the old sheet's sign; unlike a move,
     * the throat radius is not subtracted and CrossSpace is not consulted.
     */
    method LookAt(eye: Vec3, target: Vec3, worldUp: Vec3, length: Vec3 -> real)
      modifies this
      ensures Basis() == LookAtFrame(length, eye, target, worldUp)
      ensures Place() == Placement(eye, length(eye) * Sign(old(l)) as real, length(eye))
      ensures Lens() == old(Lens()) && Tuning() == old(Tuning()) && view == old(view)
    {
      var lookDir := Normalize(length, Sub(target, eye));
      var rightDir := Normalize(length, Cross(worldUp, lookDir));
      var upDir := Cross(lookDir, rightDir);
      position := eye;
      right := rightDir;
      up := upDir;
      look := lookDir;
      r := length(eye);
      l := length(eye) * Sign(l) as real;
    }

    method Pitch(angle: real, rotate: (Vec3, real, Vec3) -> Vec3)
      modifies this
      ensures Basis() == Pitched(old(Basis()), TurnAngle(angle, old(rotateRate)), rotate)
      ensures Place() == old(Place()) && Lens() == old(Lens())
      ensures Tuning() == old(Tuning()) && view == old(view)
    {
      var a := TurnAngle(angle, rotateRate);
      up, look := rotate(right, a, up), rotate(right, a, look);
    }

    method RotateY(angle: real, rotate: (Vec3, real, Vec3) -> Vec3)
      modifies this
      ensures Basis() == TurnedY(old(Basis()), TurnAngle(angle, old(rotateRate)), rotate)
      ensures Place() == old(Place()) && Lens() == old(Lens())
      ensures Tuning() == old(Tuning()) && view == old(view)
    {
      var a := TurnAngle(angle, rotateRate);
      right, up, look := rotate(WorldY, a, right), rotate(WorldY, a, up), rotate(WorldY, a, look);
    }

    method Yaw(angle: real, rotate: (Vec3, real, Vec3) -> Vec3)
      modifies this
      ensures Basis() == Yawed(old(Basis()), TurnAngle(angle, old(rotateRate)), rotate)
      ensures Place() == old(Place()) && Lens() == old(Lens())
      ensures Tuning() == old(Tuning()) && view == old(view)
    {
      var a := TurnAngle(angle, rotateRate);
      right, look := rotate(up, a, right), rotate(up, a, look);
    }

    method Roll(angle: real, rotate: (Vec3, real, Vec3) -> Vec3)
      modifies this
      ensures Basis() == Rolled(old(Basis()), TurnAngle(angle, old(rotateRate)), rotate)
      ensures Place() == old(Place()) && Lens() == old(Lens())
      ensures Tuning() == old(Tuning()) && view == old(view)
    {
      var a := TurnAngle(angle, rotateRate);
      right, up := rotate(look, a, right), rotate(look, a, up);
    }

    /** UpdateView: re-orthonormalize the basis and rebuild the view matrix from it. */
    method UpdateView(length: Vec3 -> real)
      modifies this
      ensures Basis() == Reorthonormalized(length, old(Basis()))
      ensures view == ViewMatrix(Basis(), position)
      ensures Place() == old(Place()) && Lens() == old(Lens()) && Tuning() == old(Tuning())
    {
      var rv := Normalize(length, Cross(up, look));
      var uv := Normalize(length, Cross(look, rv));
      var lv := Normalize(length, look);
      var p := position;
      var x := -Dot(p, rv);
      var y := -Dot(p, uv);
      var z := -Dot(p, lv);
      right, up, look := rv, uv, lv;
      view := Matrix(Row(right.x, up.x, look.x, 0.0),
                     Row(right.y, up.y, look.y, 0.0),
                     Row(right.z, up.z, look.z, 0.0),
                     Row(x, y, z, 1.0));
    }
  }
}
