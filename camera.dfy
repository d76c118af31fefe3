/**
 * The shared free-look camera (shared/src/camera): a position, a right/up/
 * forward basis derived from yaw and pitch, a movement speed that a one-shot
 * multiplier can raise, a look sensitivity and a vertical field of view.
 *
 * The sine, cosine and normalisation inside the basis update are library
 * calls the model does not compute; they are supplied as a `MathLib` value
 * that the camera keeps. All that is assumed of normalisation is that it
 * rescales a vector by a strictly positive factor.
 */
module FreeLookCamera {
  import opened Glm

  const UP := Vec3(0.0, 1.0, 0.0)
  const FORWARD := Vec3(0.0, 0.0, -1.0)
  const RIGHT := Vec3(1.0, 0.0, 0.0)
  const ORIGIN := Vec3(0.0, 0.0, 0.0)
  const DEFAULT_YAW: real := -90.0
  const DEFAULT_PITCH: real := 0.0
  const DEFAULT_SPEED: real := 2.5
  const DEFAULT_SENSITIVITY: real := 0.1
  const DEFAULT_FOV_Y: real := 45.0

  /** The pitch limits `rotate` applies when asked to constrain pitch. */
  const MIN_PITCH: real := -89.0
  const MAX_PITCH: real := 89.0

  /** The smallest field of view `zoom` allows; the largest is DEFAULT_FOV_Y. */
  const MIN_FOV_Y: real := 1.0

  /**
   * The floating-point routines the basis update calls: cosine and sine of an
   * angle given in degrees (glm::radians folded in) and glm::normalize.
   */
  datatype MathLib = MathLib(cosDeg: real -> real, sinDeg: real -> real, normalize: Vec3 -> Vec3)

  /** All the model assumes of glm::normalize: it rescales its argument by a strictly positive factor. */
  ghost predicate Rescales(lib: MathLib) {
    forall v {:trigger PositiveMultiple(lib.normalize(v), v)} :: PositiveMultiple(lib.normalize(v), v)
  }

  /** The un-normalised look direction for yaw and pitch. */
  function Heading(lib: MathLib, yaw: real, pitch: real): Vec3 {
    Vec3(lib.cosDeg(yaw) * lib.cosDeg(pitch), lib.sinDeg(pitch), lib.sinDeg(yaw) * lib.cosDeg(pitch))
  }

  /** The camera's right (x), up (y) and forward (z) axes. */
  datatype Axes = Axes(x: Vec3, y: Vec3, z: Vec3)

  /** The basis `update` computes for yaw and pitch. */
  function Basis(lib: MathLib, yaw: real, pitch: real): Axes {
    var z := lib.normalize(Heading(lib, yaw, pitch));
    var x := lib.normalize(Cross(z, UP));
    var y := lib.normalize(Cross(x, z));
    Axes(x, y, z)
  }

  /** The right axis is the forward axis crossed with the world up vector, (-z.z, 0, z.x), rescaled. */
  ghost predicate RightOfForward(xAxis: Vec3, zAxis: Vec3) {
    PositiveMultiple(xAxis, Cross(zAxis, UP))
  }

  /**
   * What the basis update guarantees without any trigonometry: forward points
   * along the heading, right along (-forward.z, 0, forward.x), so it is
   * horizontal whatever the angles, and up along right crossed with forward.
   */
  lemma BasisShape(lib: MathLib, yaw: real, pitch: real)
    requires Rescales(lib)
    ensures var b := Basis(lib, yaw, pitch);
            && PositiveMultiple(b.z, Heading(lib, yaw, pitch))
            && RightOfForward(b.x, b.z)
            && PositiveMultiple(b.x, Vec3(-b.z.z, 0.0, b.z.x))
            && b.x.y == 0.0
            && PositiveMultiple(b.y, Cross(b.x, b.z))
  {
    var b := Basis(lib, yaw, pitch);
    assert PositiveMultiple(lib.normalize(Heading(lib, yaw, pitch)), Heading(lib, yaw, pitch));
    assert PositiveMultiple(lib.normalize(Cross(b.z, UP)), Cross(b.z, UP));
    assert PositiveMultiple(lib.normalize(Cross(b.x, b.z)), Cross(b.x, b.z));
    assert Cross(b.z, UP) == Vec3(-b.z.z, 0.0, b.z.x);
  }

  /** A right axis obtained from the forward axis this way is horizontal. */
  lemma RightOfForwardIsLevel(xAxis: Vec3, zAxis: Vec3)
    requires RightOfForward(xAxis, zAxis)
    ensures xAxis.y == 0.0
  {
    var k :| k > 0.0 && xAxis == Scale(Cross(zAxis, UP), k);
  }

  /** The default axes already satisfy that relation. */
  lemma DefaultAxesRightOfForward()
    ensures RightOfForward(RIGHT, FORWARD)
  {
    assert RIGHT == Scale(Cross(FORWARD, UP), 1.0);
  }

  /**
   * The view matrix as a closed form: its upper-left 3x3 block has rows
   * xAxis, yAxis and -zAxis, its fourth column is that block applied to
   * -position, and its bottom row is (0, 0, 0, 1).
   */
  function LookAt(position: Vec3, xAxis: Vec3, yAxis: Vec3, zAxis: Vec3): Mat4 {
    var back := Neg(zAxis);
    Mat4(Vec4(xAxis.x, yAxis.x, back.x, 0.0),
         Vec4(xAxis.y, yAxis.y, back.y, 0.0),
         Vec4(xAxis.z, yAxis.z, back.z, 0.0),
         Vec4(-Dot(xAxis, position), -Dot(yAxis, position), -Dot(back, position), 1.0))
  }

  /** The view matrix takes a world point to its coordinates along the camera's axes, seen from the camera. */
  lemma LookAtMapsPoint(position: Vec3, xAxis: Vec3, yAxis: Vec3, zAxis: Vec3, p: Vec3)
    ensures var rel := Sub(p, position);
            Apply(LookAt(position, xAxis, yAxis, zAxis), Point(p))
            == Vec4(Dot(xAxis, rel), Dot(yAxis, rel), -Dot(zAxis, rel), 1.0)
  {
    var m := LookAt(position, xAxis, yAxis, zAxis);
    var d := Apply(m, Direction(p));
    LookAtMapsDirection(position, xAxis, yAxis, zAxis, p);
    // a point is the direction to it plus the translation column, taken once
    assert Apply(m, Point(p)) == Vec4(d.x + m.c3.x, d.y + m.c3.y, d.z + m.c3.z, 1.0);
    DotSub(xAxis, p, position);
    DotSub(yAxis, p, position);
    DotSub(zAxis, p, position);
    DotNeg(zAxis, position);
  }

  /** A direction is rotated onto the camera's axes and not translated. */
  lemma LookAtMapsDirection(position: Vec3, xAxis: Vec3, yAxis: Vec3, zAxis: Vec3, d: Vec3)
    ensures Apply(LookAt(position, xAxis, yAxis, zAxis), Direction(d))
            == Vec4(Dot(xAxis, d), Dot(yAxis, d), -Dot(zAxis, d), 0.0)
  {
    var r := Apply(LookAt(position, xAxis, yAxis, zAxis), Direction(d));
    assert r.x == Dot(xAxis, d);
    assert r.y == Dot(yAxis, d);
    assert r.z == -Dot(zAxis, d);
  }

  /** The camera's own position is sent to the origin. */
  lemma LookAtCentresEye(position: Vec3, xAxis: Vec3, yAxis: Vec3, zAxis: Vec3)
    ensures Apply(LookAt(position, xAxis, yAxis, zAxis), Point(position)) == Point(ORIGIN)
  {
    LookAtMapsPoint(position, xAxis, yAxis, zAxis, position);
  }

  /** A camera at the origin with the default axes has the identity view. */
  lemma DefaultLookAtIsIdentity()
    ensures LookAt(ORIGIN, RIGHT, UP, FORWARD) == Identity()
  {
    // the translation column vanishes at the origin
    assert Dot(RIGHT, ORIGIN) == Dot(UP, ORIGIN) == Dot(Neg(FORWARD), ORIGIN) == 0.0;
  }

  /** The distance a translate call covers: `translation * speed * deltaTime`. */
  function Displacement(translation: Vec3, speed: real, deltaTime: real): Vec3 {
    Scale(Scale(translation, speed), deltaTime)
  }

  /** A translate at speed DEFAULT_SPEED * factor covers factor times the distance of one at DEFAULT_SPEED. */
  lemma AcceleratedDisplacement(translation: Vec3, deltaTime: real, factor: real)
    ensures Displacement(translation, DEFAULT_SPEED * factor, deltaTime)
            == Scale(Displacement(translation, DEFAULT_SPEED, deltaTime), factor)
  {
  }

  /**
   * The pitch `rotate` leaves: the old pitch plus the scaled offset, clamped
   * to [MIN_PITCH, MAX_PITCH] when the clamp is asked for. An in-range sum is
   * kept as it is, and without the clamp the sum is kept whatever it is.
   */
  function PitchAfter(pitch: real, yOffset: real, sensitivity: real, constrainPitch: bool): (r: real)
    ensures constrainPitch ==> MIN_PITCH <= r <= MAX_PITCH
    ensures constrainPitch && MIN_PITCH <= pitch + yOffset * sensitivity <= MAX_PITCH
            ==> r == pitch + yOffset * sensitivity
    ensures !constrainPitch ==> r == pitch + yOffset * sensitivity
  {
    var raw := pitch + yOffset * sensitivity;
    if constrainPitch then Clamp(raw, MIN_PITCH, MAX_PITCH) else raw
  }

  class Camera {
    var position: Vec3
    var xAxis: Vec3
    var yAxis: Vec3
    var zAxis: Vec3
    var yaw: real
    var pitch: real
    var speed: real
    var sensitivity: real
    var fovY: real
    /** The trigonometry and normalisation the basis update uses. */
    const lib: MathLib

    /**
     * What every operation keeps: the right axis is a positive multiple of
     * the forward axis crossed with UP, as the default axes and every update
     * leave it (so it is horizontal, by RightOfForwardIsLevel), and the field
     * of view lies in [MIN_FOV_Y, DEFAULT_FOV_Y]. (That normalisation only
     * rescales is a property of the library, carried along with it.)
     */
    ghost predicate Valid()
      reads this`xAxis, this`zAxis, this`fovY
    {
      && Rescales(lib)
      && RightOfForward(xAxis, zAxis)
      && MIN_FOV_Y <= fovY <= DEFAULT_FOV_Y
    }

    /** Camera(): every field takes its default; the basis is not recomputed. */
    constructor (lib: MathLib)
      requires Rescales(lib)
      ensures this.lib == lib
      ensures position == ORIGIN && xAxis == RIGHT && yAxis == UP && zAxis == FORWARD
      ensures yaw == DEFAULT_YAW && pitch == DEFAULT_PITCH
      ensures speed == DEFAULT_SPEED && sensitivity == DEFAULT_SENSITIVITY && fovY == DEFAULT_FOV_Y
      ensures Valid()
    {
      this.lib := lib;
      position, xAxis, yAxis, zAxis := ORIGIN, RIGHT, UP, FORWARD;
      yaw, pitch := DEFAULT_YAW, DEFAULT_PITCH;
      speed, sensitivity, fovY := DEFAULT_SPEED, DEFAULT_SENSITIVITY, DEFAULT_FOV_Y;
      new;
      DefaultAxesRightOfForward();
    }

    /**
     * Camera(position): the defaults, the given position, and the basis for
     * the default angles. The default position the delegated constructor
     * stores is replaced before anything reads it, so the given one is stored
     * at once.
     */
    constructor At(lib: MathLib, position: Vec3)
      requires Rescales(lib)
      ensures this.lib == lib
      ensures this.position == position
      ensures yaw == DEFAULT_YAW && pitch == DEFAULT_PITCH
      ensures Axes(xAxis, yAxis, zAxis) == Basis(lib, DEFAULT_YAW, DEFAULT_PITCH)
      ensures speed == DEFAULT_SPEED && sensitivity == DEFAULT_SENSITIVITY && fovY == DEFAULT_FOV_Y
      ensures Valid()
    {
      this.lib := lib;
      this.position, xAxis, yAxis, zAxis := position, RIGHT, UP, FORWARD;
      yaw, pitch := DEFAULT_YAW, DEFAULT_PITCH;
      speed, sensitivity, fovY := DEFAULT_SPEED, DEFAULT_SENSITIVITY, DEFAULT_FOV_Y;
      new;
      Update();
    }

    /**
     * Camera(position, yaw, pitch): as Camera(position), then the given angles
     * are stored as they are (pitch is not clamped) and the basis recomputed.
     * The default position and angles, and the basis the delegated
     * Camera(position) computes first for the default angles, are all
     * overwritten before anything reads them, so the given values are stored
     * at once and only the final update is made.
     */
    constructor Oriented(lib: MathLib, position: Vec3, yaw: real, pitch: real)
      requires Rescales(lib)
      ensures this.lib == lib
      ensures this.position == position
      ensures this.yaw == yaw && this.pitch == pitch
      ensures Axes(xAxis, yAxis, zAxis) == Basis(lib, yaw, pitch)
      ensures speed == DEFAULT_SPEED && sensitivity == DEFAULT_SENSITIVITY && fovY == DEFAULT_FOV_Y
      ensures Valid()
    {
      this.lib := lib;
      this.position, xAxis, yAxis, zAxis := position, RIGHT, UP, FORWARD;
      this.yaw, this.pitch := yaw, pitch;
      speed, sensitivity, fovY := DEFAULT_SPEED, DEFAULT_SENSITIVITY, DEFAULT_FOV_Y;
      new;
      Update();
    }

    /** Moves by `translation * speed * deltaTime`, then drops any speed multiplier. */
    method Translate(translation: Vec3, deltaTime: real)
      requires Valid()
      modifies this`position, this`speed
      ensures Valid()
      ensures position == Add(old(position), Displacement(translation, old(speed), deltaTime))
      ensures speed == DEFAULT_SPEED
    {
      position := Add(position, Scale(Scale(translation, speed), deltaTime));
      speed := DEFAULT_SPEED;
    }

    /**
     * Adds the scaled offsets to yaw and pitch, clamps pitch to
     * [MIN_PITCH, MAX_PITCH] when constrainPitch holds (the default), and
     * recomputes the basis. Yaw is never clamped.
     */
    method Rotate(xOffset: real, yOffset: real, constrainPitch: bool := true)
      requires Valid()
      modifies this`yaw, this`pitch, this`xAxis, this`yAxis, this`zAxis
      ensures Valid()
      ensures yaw == old(yaw) + xOffset * sensitivity
      ensures pitch == PitchAfter(old(pitch), yOffset, sensitivity, constrainPitch)
      ensures constrainPitch ==> MIN_PITCH <= pitch <= MAX_PITCH
      ensures Axes(xAxis, yAxis, zAxis) == Basis(lib, yaw, pitch)
    {
      ghost var pitch' := PitchAfter(pitch, yOffset, sensitivity, constrainPitch);
      yaw := yaw + xOffset * sensitivity;
      pitch := pitch + yOffset * sensitivity;

      if constrainPitch {
        pitch := Clamp(pitch, MIN_PITCH, MAX_PITCH);
      }
      assert pitch == pitch';

      Update();
    }

    /** Narrows the field of view by yOffset, keeping it within [MIN_FOV_Y, DEFAULT_FOV_Y]. */
    method Zoom(yOffset: real)
      requires Valid()
      modifies this`fovY
      ensures Valid()
      ensures fovY == Clamp(old(fovY) - yOffset, MIN_FOV_Y, DEFAULT_FOV_Y)
      ensures MIN_FOV_Y <= fovY <= DEFAULT_FOV_Y
    {
      fovY := Clamp(fovY - yOffset, MIN_FOV_Y, DEFAULT_FOV_Y);
    }

    /** Sets the speed to DEFAULT_SPEED * factor (not compounding); factor defaults to 2. */
    method Accelerate(factor: real := 2.0)
      requires Valid()
      modifies this`speed
      ensures Valid()
      ensures speed == DEFAULT_SPEED * factor
    {
      speed := DEFAULT_SPEED * factor;
    }

    /**
     * Builds a translation by -position and a rotation whose rows are the
     * axes (the forward axis negated), entry by entry, and returns their
     * product rotation * translation. Changes no field.
     */
    method GetViewMatrix() returns (view: Mat4)
      ensures view == LookAt(position, xAxis, yAxis, zAxis)
    {
      var translation := Identity();
      translation := WithEntry(translation, 3, 0, -position.x);
      translation := WithEntry(translation, 3, 1, -position.y);
      translation := WithEntry(translation, 3, 2, -position.z);
      var rotation := Identity();
      rotation := WithEntry(rotation, 0, 0, xAxis.x);
      rotation := WithEntry(rotation, 1, 0, xAxis.y);
      rotation := WithEntry(rotation, 2, 0, xAxis.z);
      rotation := WithEntry(rotation, 0, 1, yAxis.x);
      rotation := WithEntry(rotation, 1, 1, yAxis.y);
      rotation := WithEntry(rotation, 2, 1, yAxis.z);
      rotation := WithEntry(rotation, 0, 2, -zAxis.x);
      rotation := WithEntry(rotation, 1, 2, -zAxis.y);
      rotation := WithEntry(rotation, 2, 2, -zAxis.z);

      view := Mul(rotation, translation);
    }

    /**
     * The private basis update: forward from yaw and pitch, right as forward
     * crossed with the world up vector, up as right crossed with forward,
     * each normalised.
     */
    method Update()
      requires Rescales(lib)
      modifies this`xAxis, this`yAxis, this`zAxis
      ensures Axes(xAxis, yAxis, zAxis) == Basis(lib, yaw, pitch)
      ensures RightOfForward(xAxis, zAxis)
    {
      BasisShape(lib, yaw, pitch);
      zAxis := lib.normalize(Heading(lib, yaw, pitch));
      xAxis := lib.normalize(Cross(zAxis, UP));
      yAxis := lib.normalize(Cross(xAxis, zAxis));
    }
  }
}
