/**
 * The input handling of the camera exercise
 * (exercises/1.getting-started/6.camera/exercise1): the global camera, the
 * last mouse position and the first-mouse flag, and the three handlers that
 * turn key states, mouse moves and scroll offsets into camera calls.
 *
 * GLFW is not modelled: the keys held during a frame arrive as a `Keys`
 * value, the frame time as a parameter, and the request to close the window
 * is returned instead of being sent to the window.
 */
module CameraExercise {
  import opened Glm
  import opened FreeLookCamera

  const WINDOW_WIDTH: nat := 800
  const WINDOW_HEIGHT: nat := 600

  /** The keys processInput polls, each true when pressed. */
  datatype Keys = Keys(escape: bool, leftShift: bool, w: bool, s: bool, a: bool, d: bool)

  /** Forward flattened onto the ground plane: (z.x, 0, z.z). */
  function Level(zAxis: Vec3): Vec3 {
    Vec3(zAxis.x, 0.0, zAxis.z)
  }

  /**
   * The translations processInput asks for, in the order it makes them:
   * W forward on the ground, S backward on the ground, A left, D right.
   */
  function Movements(keys: Keys, xAxis: Vec3, zAxis: Vec3): seq<Vec3> {
    (if keys.w then [Level(zAxis)] else [])
    + (if keys.s then [Neg(Level(zAxis))] else [])
    + (if keys.a then [Neg(xAxis)] else [])
    + (if keys.d then [xAxis] else [])
  }

  /**
   * Where successive translates along `moves` take a camera at `position`
   * whose speed is `speed`: the first moves at that speed, and since every
   * translate resets the speed, each later one at DEFAULT_SPEED.
   */
  function TravelFrom(position: Vec3, speed: real, moves: seq<Vec3>, deltaTime: real): Vec3
    decreases |moves|
  {
    if moves == [] then position
    else TravelFrom(Add(position, Displacement(moves[0], speed, deltaTime)), DEFAULT_SPEED, moves[1..], deltaTime)
  }

  /** The speed after translates along `moves`: unchanged if there were none, DEFAULT_SPEED otherwise. */
  function SpeedAfter(speed: real, moves: seq<Vec3>): real {
    if moves == [] then speed else DEFAULT_SPEED
  }

  /** One more translate at the end of a run moves at the speed the run left behind. */
  lemma {:induction false} TravelSnoc(position: Vec3, speed: real, moves: seq<Vec3>, move: Vec3, deltaTime: real)
    ensures TravelFrom(position, speed, moves + [move], deltaTime)
            == Add(TravelFrom(position, speed, moves, deltaTime), Displacement(move, SpeedAfter(speed, moves), deltaTime))
    decreases |moves|
  {
    if moves == [] {
      assert [] + [move] == [move];
    } else {
      assert (moves + [move])[1..] == moves[1..] + [move];
      TravelSnoc(Add(position, Displacement(moves[0], speed, deltaTime)), DEFAULT_SPEED, moves[1..], move, deltaTime);
    }
  }

  /** Starting from a shifted position shifts the end position by the same offset. */
  lemma {:induction false} TravelTranslates(position: Vec3, offset: Vec3, speed: real, moves: seq<Vec3>, deltaTime: real)
    ensures TravelFrom(Add(position, offset), speed, moves, deltaTime)
            == Add(TravelFrom(position, speed, moves, deltaTime), offset)
    decreases |moves|
  {
    if moves != [] {
      var step := Displacement(moves[0], speed, deltaTime);
      assert Add(Add(position, offset), step) == Add(Add(position, step), offset);
      TravelTranslates(Add(position, step), offset, DEFAULT_SPEED, moves[1..], deltaTime);
    }
  }

  /**
   * The starting speed only matters for the first move: starting at speed'
   * instead of speed adds the first move scaled by the difference, and
   * nothing else.
   */
  lemma StartSpeedOnlyAffectsFirstMove(position: Vec3, speed: real, speed': real, moves: seq<Vec3>, deltaTime: real)
    requires moves != []
    ensures TravelFrom(position, speed', moves, deltaTime)
            == Add(TravelFrom(position, speed, moves, deltaTime), Displacement(moves[0], speed' - speed, deltaTime))
  {
    var extra := Displacement(moves[0], speed' - speed, deltaTime);
    var p := Add(position, Displacement(moves[0], speed, deltaTime));
    assert Add(position, Displacement(moves[0], speed', deltaTime)) == Add(p, extra);
    TravelTranslates(p, extra, DEFAULT_SPEED, moves[1..], deltaTime);
  }

  /** Moves with no vertical component never change the height. */
  lemma {:induction false} TravelKeepsHeight(position: Vec3, speed: real, moves: seq<Vec3>, deltaTime: real)
    requires forall i :: 0 <= i < |moves| ==> moves[i].y == 0.0
    ensures TravelFrom(position, speed, moves, deltaTime).y == position.y
    decreases |moves|
  {
    if moves != [] {
      assert moves[0].y == 0.0;
      TravelKeepsHeight(Add(position, Displacement(moves[0], speed, deltaTime)), DEFAULT_SPEED, moves[1..], deltaTime);
    }
  }

  /** With a horizontal right axis, every movement key moves along the ground plane. */
  lemma MovementsAreLevel(keys: Keys, xAxis: Vec3, zAxis: Vec3)
    requires xAxis.y == 0.0
    ensures forall i :: 0 <= i < |Movements(keys, xAxis, zAxis)| ==> Movements(keys, xAxis, zAxis)[i].y == 0.0
  {
  }

  /**
   * Holding shift with W and S and no other movement key: the forward move
   * runs at double speed and the backward one at the reset speed, so the
   * camera drifts forward by one ordinary step instead of staying put.
   */
  lemma ShiftWithOpposingKeysDrifts(keys: Keys, xAxis: Vec3, zAxis: Vec3, position: Vec3, deltaTime: real)
    requires keys.leftShift && keys.w && keys.s && !keys.a && !keys.d
    ensures TravelFrom(position, DEFAULT_SPEED * 2.0, Movements(keys, xAxis, zAxis), deltaTime)
            == Add(position, Displacement(Level(zAxis), DEFAULT_SPEED, deltaTime))
  {
    var f := Level(zAxis);
    assert Movements(keys, xAxis, zAxis) == [f, Neg(f)];
    var p := Add(position, Displacement(f, DEFAULT_SPEED * 2.0, deltaTime));
    assert TravelFrom(position, DEFAULT_SPEED * 2.0, [f, Neg(f)], deltaTime)
           == TravelFrom(p, DEFAULT_SPEED, [Neg(f)], deltaTime);
    assert [Neg(f)][1..] == [];
  }

  /**
   * Holding shift with no movement key makes no translate, so the doubled
   * speed is still in place for the next frame.
   */
  lemma ShiftAloneKeepsDoubledSpeed(keys: Keys, xAxis: Vec3, zAxis: Vec3)
    requires !keys.w && !keys.s && !keys.a && !keys.d
    ensures Movements(keys, xAxis, zAxis) == []
    ensures SpeedAfter(DEFAULT_SPEED * 2.0, Movements(keys, xAxis, zAxis)) == 5.0
  {
  }

  /**
   * The x offset mouse_callback hands to rotate: none on the first event,
   * afterwards the movement since the last event.
   */
  function XOffset(firstMouse: bool, lastX: real, xPos: real): real {
    if firstMouse then 0.0 else xPos - lastX
  }

  /**
   * The y offset mouse_callback hands to rotate: none on the first event,
   * afterwards the movement since the last event, inverted (screen y grows
   * downwards, pitch upwards).
   */
  function YOffset(firstMouse: bool, lastY: real, yPos: real): real {
    if firstMouse then 0.0 else lastY - yPos
  }

  /**
   * The yaw after mouse events at the x positions xs, one rotate each
   * (yaw is never clamped), starting from the given mouse state.
   */
  function YawAfter(yaw: real, sensitivity: real, firstMouse: bool, lastX: real, xs: seq<real>): real
    decreases |xs|
  {
    if xs == [] then yaw
    else
      var dx := XOffset(firstMouse, lastX, xs[0]);
      YawAfter(yaw + dx * sensitivity, sensitivity, false, xs[0], xs[1..])
  }

  /**
   * One mouse event turns the yaw to `turned`, its x offset times the
   * sensitivity further on, and the rest of the run continues from there.
   */
  lemma YawAfterFirst(yaw: real, sensitivity: real, firstMouse: bool, lastX: real, xs: seq<real>, turned: real)
    requires xs != []
    requires turned == yaw + XOffset(firstMouse, lastX, xs[0]) * sensitivity
    ensures YawAfter(yaw, sensitivity, firstMouse, lastX, xs) == YawAfter(turned, sensitivity, false, xs[0], xs[1..])
  {
  }

  /**
   * The yaw after a run of mouse events depends only on where the run ends
   * and where it is measured from: the last recorded position, or the first
   * event's own position when no event was seen before.
   */
  lemma {:induction false} YawTelescopes(yaw: real, sensitivity: real, firstMouse: bool, lastX: real, xs: seq<real>)
    requires xs != []
    ensures var from := if firstMouse then xs[0] else lastX;
            YawAfter(yaw, sensitivity, firstMouse, lastX, xs) == yaw + (xs[|xs| - 1] - from) * sensitivity
    decreases |xs|
  {
    var from := if firstMouse then xs[0] else lastX;
    var yaw' := yaw + XOffset(firstMouse, lastX, xs[0]) * sensitivity;
    YawAfterFirst(yaw, sensitivity, firstMouse, lastX, xs, yaw');
    // consecutive turns add up
    assert (xs[0] - from) * sensitivity + (xs[|xs| - 1] - xs[0]) * sensitivity == (xs[|xs| - 1] - from) * sensitivity;
    if |xs| > 1 {
      YawTelescopes(yaw', sensitivity, false, xs[0], xs[1..]);
    }
  }

  /** The exercise's globals: the camera and the mouse state. */
  class Globals {
    var lastX: real
    var lastY: real
    var firstMouse: bool
    const camera: Camera

    ghost predicate Valid()
      reads this, camera
    {
      camera.Valid()
    }

    /** The initial globals: the mouse state at the window centre, the camera at (0, 0, 3). */
    constructor (lib: MathLib)
      requires Rescales(lib)
      ensures lastX == 400.0 && lastY == 300.0 && firstMouse
      ensures fresh(camera) && camera.lib == lib
      ensures camera.position == Vec3(0.0, 0.0, 3.0)
      ensures camera.yaw == DEFAULT_YAW && camera.pitch == DEFAULT_PITCH
      ensures Axes(camera.xAxis, camera.yAxis, camera.zAxis) == Basis(lib, DEFAULT_YAW, DEFAULT_PITCH)
      ensures camera.speed == DEFAULT_SPEED && camera.sensitivity == DEFAULT_SENSITIVITY
      ensures camera.fovY == DEFAULT_FOV_Y
      ensures Valid()
    {
      lastX := (WINDOW_WIDTH / 2) as real;
      lastY := (WINDOW_HEIGHT / 2) as real;
      firstMouse := true;
      camera := new Camera.At(lib, Vec3(0.0, 0.0, 3.0));
    }

    /**
     * One frame of key polling: escape asks for the window to close, shift
     * accelerates, then W, S, A and D each translate the camera in turn.
     * The camera ends where TravelFrom says, at the same height.
     */
    method ProcessInput(keys: Keys, deltaTime: real) returns (closeRequested: bool)
      requires Valid()
      modifies camera`position, camera`speed
      ensures Valid()
      ensures closeRequested == keys.escape
      ensures var start := if keys.leftShift then DEFAULT_SPEED * 2.0 else old(camera.speed);
              var moves := Movements(keys, camera.xAxis, camera.zAxis);
              && camera.position == TravelFrom(old(camera.position), start, moves, deltaTime)
              && camera.speed == SpeedAfter(start, moves)
      ensures camera.position.y == old(camera.position.y)
    {
      closeRequested := keys.escape;

      if keys.leftShift {
        camera.Accelerate();
      }
      ghost var start := camera.speed;
      ghost var xAxis, zAxis := camera.xAxis, camera.zAxis;
      // the moves made so far; after each key the camera is where they take it
      ghost var done: seq<Vec3> := [];
      RightOfForwardIsLevel(xAxis, zAxis);
      MovementsAreLevel(keys, xAxis, zAxis);

      if keys.w {
        var move := Vec3(camera.zAxis.x, 0.0, camera.zAxis.z);
        TravelSnoc(old(camera.position), start, done, move, deltaTime);
        camera.Translate(move, deltaTime);
        done := done + [move];
      }
      assert camera.position == TravelFrom(old(camera.position), start, done, deltaTime) && camera.speed == SpeedAfter(start, done);
      assert done == (if keys.w then [Level(zAxis)] else []);
      if keys.s {
        var move := Neg(Vec3(camera.zAxis.x, 0.0, camera.zAxis.z));
        TravelSnoc(old(camera.position), start, done, move, deltaTime);
        camera.Translate(move, deltaTime);
        done := done + [move];
      }
      assert camera.position == TravelFrom(old(camera.position), start, done, deltaTime) && camera.speed == SpeedAfter(start, done);
      ghost var ground := done;
      if keys.a {
        var move := Neg(camera.xAxis);
        TravelSnoc(old(camera.position), start, done, move, deltaTime);
        camera.Translate(move, deltaTime);
        done := done + [move];
      }
      assert camera.position == TravelFrom(old(camera.position), start, done, deltaTime) && camera.speed == SpeedAfter(start, done);
      assert done == ground + (if keys.a then [Neg(xAxis)] else []);
      if keys.d {
        var move := camera.xAxis;
        TravelSnoc(old(camera.position), start, done, move, deltaTime);
        camera.Translate(move, deltaTime);
        done := done + [move];
      }
      assert camera.position == TravelFrom(old(camera.position), start, done, deltaTime) && camera.speed == SpeedAfter(start, done);

      assert done == Movements(keys, xAxis, zAxis);
      TravelKeepsHeight(old(camera.position), start, done, deltaTime);
    }

    /**
     * A mouse move: the first one only records the position, so rotate gets
     * (0, 0); later ones rotate by the movement since the previous event,
     * y inverted, with pitch clamped. The position is then recorded.
     */
    method MouseCallback(xPos: real, yPos: real)
      requires Valid()
      modifies this`lastX, this`lastY, this`firstMouse
      modifies camera`yaw, camera`pitch, camera`xAxis, camera`yAxis, camera`zAxis
      ensures Valid()
      ensures lastX == xPos && lastY == yPos && !firstMouse
      ensures camera.yaw == old(camera.yaw) + XOffset(old(firstMouse), old(lastX), xPos) * camera.sensitivity
      ensures camera.pitch == PitchAfter(old(camera.pitch), YOffset(old(firstMouse), old(lastY), yPos), camera.sensitivity, true)
      ensures MIN_PITCH <= camera.pitch <= MAX_PITCH
      ensures Axes(camera.xAxis, camera.yAxis, camera.zAxis) == Basis(camera.lib, camera.yaw, camera.pitch)
    {
      if firstMouse {
        lastX := xPos;
        lastY := yPos;
        firstMouse := false;
      }
      ghost var dx, dy := XOffset(old(firstMouse), old(lastX), xPos), YOffset(old(firstMouse), old(lastY), yPos);
      var xOffset, yOffset := xPos - lastX, lastY - yPos;
      assert xOffset == dx && yOffset == dy;

      camera.Rotate(xOffset, yOffset);

      lastX := xPos;
      lastY := yPos;
    }

    /**
     * A run of mouse events at the positions (xs[k], ys[k]), handed to
     * MouseCallback one at a time: the yaw ends where YawAfter says, and so,
     * by YawTelescopes, it has turned by the distance from where the run is
     * measured from to its last x, times the sensitivity. After a non-empty run
     * the pitch is clamped and the basis matches the final angles; an empty run
     * changes nothing.
     */
    method MouseMoves(xs: seq<real>, ys: seq<real>)
      requires Valid()
      requires |xs| == |ys|
      modifies this`lastX, this`lastY, this`firstMouse
      modifies camera`yaw, camera`pitch, camera`xAxis, camera`yAxis, camera`zAxis
      ensures Valid()
      ensures camera.yaw == YawAfter(old(camera.yaw), camera.sensitivity, old(firstMouse), old(lastX), xs)
      ensures xs != [] ==> lastX == xs[|xs| - 1] && lastY == ys[|ys| - 1] && !firstMouse
      ensures xs == [] ==> lastX == old(lastX) && lastY == old(lastY) && firstMouse == old(firstMouse)
      ensures xs != [] ==> MIN_PITCH <= camera.pitch <= MAX_PITCH
      ensures xs != [] ==> Axes(camera.xAxis, camera.yAxis, camera.zAxis) == Basis(camera.lib, camera.yaw, camera.pitch)
      ensures xs == [] ==> camera.pitch == old(camera.pitch)
      ensures xs == [] ==> Axes(camera.xAxis, camera.yAxis, camera.zAxis) == old(Axes(camera.xAxis, camera.yAxis, camera.zAxis))
      decreases |xs|
    {
      if xs != [] {
        ghost var yaw, k := camera.yaw, camera.sensitivity;
        MouseCallback(xs[0], ys[0]);
        YawAfterFirst(yaw, k, old(firstMouse), old(lastX), xs, camera.yaw);
        MouseMoves(xs[1..], ys[1..]);
        if |xs| > 1 {
          assert xs[1..][|xs| - 2] == xs[|xs| - 1] && ys[1..][|ys| - 2] == ys[|ys| - 1];
        }
      }
    }

    /** A scroll: the vertical offset goes to zoom unchanged; the horizontal one is ignored. */
    method ScrollCallback(xOffset: real, yOffset: real)
      requires Valid()
      modifies camera`fovY
      ensures Valid()
      ensures camera.fovY == Clamp(old(camera.fovY) - yOffset, MIN_FOV_Y, DEFAULT_FOV_Y)
      ensures MIN_FOV_Y <= camera.fovY <= DEFAULT_FOV_Y
    {
      camera.Zoom(yOffset);
    }
  }
}
