/**
 * The six-degrees-of-freedom vector camera: a flight or first-person camera
 * that keeps an eye position and three local axes, moves either by fixed
 * steps or by integrating a velocity that ramps up to a maximum and decays
 * back to rest, and writes its view and projection matrices cell by cell.
 */
module VectorCamera {
  import opened Geometry

  datatype Behavior = FirstPerson | Flight

  const DefaultFovx: real := 90.0
  const DefaultZnear: real := 0.1
  const DefaultZfar: real := 1000.0

  /** Every scalar and vector field of a camera, so that a method can say what it changed and nothing else. */
  datatype Snapshot = Snapshot(
    behavior: Behavior,
    fovx: real, znear: real, zfar: real, aspectRatio: real,
    accumPitchDegrees: real,
    eye: Vec3, axes: Basis, viewDir: Vec3,
    acceleration: Vec3, currentVelocity: Vec3, velocity: Vec3)

  // ---------------------------------------------------------------------------
  // Velocity: a per-axis ramp towards +-max while moving, a decay to rest
  // while not.
  // ---------------------------------------------------------------------------

  /** A velocity component limited to [-maxV, maxV]: above gives maxV, below -maxV gives -maxV. */
  function Accelerated(v: real, maxV: real): (r: real)
    ensures maxV >= 0.0 ==> -maxV <= r <= maxV
    ensures -maxV <= v <= maxV ==> r == v
  {
    if v > maxV then maxV else if v < -maxV then -maxV else v
  }

  /**
   * A velocity component slowed by `step` towards zero without passing it:
   * a positive component becomes max(0, v - step), any other min(0, v + step).
   */
  function Decelerated(v: real, step: real): (r: real)
    ensures step >= 0.0 && v >= 0.0 ==> 0.0 <= r <= v
    ensures step >= 0.0 && v <= 0.0 ==> v <= r <= 0.0
    ensures step >= 0.0 ==> Abs(r) <= Max(0.0, Abs(v) - step)
  {
    if v > 0.0 then Max(0.0, v - step) else Min(0.0, v + step)
  }

  /**
   * The new current-velocity component along one axis: with a nonzero
   * direction it is accelerated by direction * acceleration * dt and limited
   * to the maximum speed; with a zero direction it decays by acceleration * dt.
   */
  function AxisVelocity(dir: real, cur: real, maxV: real, accel: real, dt: real): (r: real)
    ensures dir != 0.0 && maxV >= 0.0 ==> -maxV <= r <= maxV
    ensures dir == 0.0 ==> r == Decelerated(cur, accel * dt)
    ensures dir == 0.0 && accel * dt >= 0.0 && cur >= 0.0 ==> 0.0 <= r <= cur
    ensures dir == 0.0 && accel * dt >= 0.0 && cur <= 0.0 ==> cur <= r <= 0.0
  {
    if dir != 0.0 then Accelerated(cur + dir * accel * dt, maxV) else Decelerated(cur, accel * dt)
  }

  /** The three components updated independently, each from its own axis only. */
  function NextVelocity(dir: Vec3, cur: Vec3, maxV: Vec3, accel: Vec3, dt: real): Vec3 {
    Vec3(AxisVelocity(dir.x, cur.x, maxV.x, accel.x, dt),
         AxisVelocity(dir.y, cur.y, maxV.y, accel.y, dt),
         AxisVelocity(dir.z, cur.z, maxV.z, accel.z, dt))
  }

  /** A component after n decays by `step`. */
  function DecayedAfter(v: real, step: real, n: nat): real
    decreases n
  {
    if n == 0 then v else DecayedAfter(Decelerated(v, step), step, n - 1)
  }

  /**
   * With a positive step, n decays bring a component exactly to rest once
   * n * step reaches its magnitude.
   */
  lemma {:induction false} DecayReachesRest(v: real, step: real, n: nat)
    requires step > 0.0 && n as real * step >= Abs(v)
    ensures DecayedAfter(v, step, n) == 0.0
    decreases n
  {
    if n > 0 {
      var w := Decelerated(v, step);
      assert (n - 1) as real * step == n as real * step - step;
      DecayReachesRest(w, step, n - 1);
    }
  }

  /** Rest is a fixed point of the decay. */
  lemma {:induction false} RestStaysAtRest(step: real, n: nat)
    requires step >= 0.0
    ensures DecayedAfter(0.0, step, n) == 0.0
    decreases n
  {
    if n > 0 {
      assert Decelerated(0.0, step) == 0.0;
      RestStaysAtRest(step, n - 1);
    }
  }

  // ---------------------------------------------------------------------------
  // Position update.
  // ---------------------------------------------------------------------------

  /**
   * The displacement along one axis over dt: v dt + a dt^2 / 2, except that
   * it is zero when the axis has no direction and its velocity is exactly
   * zero (the guard against creeping by rounding).
   */
  function AxisDisplacement(dir: real, v: real, a: real, dt: real): (d: real)
    ensures dir == 0.0 && v == 0.0 ==> d == 0.0
    ensures dir != 0.0 || v != 0.0 ==> d == v * dt + 0.5 * a * dt * dt
  {
    if dir == 0.0 && Abs(v - 0.0) <= 0.0 then 0.0 else v * dt + 0.5 * a * dt * dt
  }

  function Displacement(dir: Vec3, v: Vec3, a: Vec3, dt: real): Vec3 {
    Vec3(AxisDisplacement(dir.x, v.x, a.x, dt),
         AxisDisplacement(dir.y, v.y, a.y, dt),
         AxisDisplacement(dir.z, v.z, a.z, dt))
  }

  /**
   * The direction a forward step follows: in first-person mode the
   * normalised cross product of the world y axis and the camera's x axis,
   * which never leaves the ground plane; in flight mode the view direction.
   */
  function Forwards(lib: MathLib, behavior: Behavior, xAxis: Vec3, viewDir: Vec3): (f: Vec3)
    ensures behavior == FirstPerson ==> f.y == 0.0
    ensures behavior == Flight ==> f == viewDir
  {
    if behavior == FirstPerson then Normalize(lib, Cross(WorldY, xAxis)) else viewDir
  }

  /** The eye moved d.x along the camera's x axis, d.y along the world y axis and d.z along `forwards`. */
  function MovedEye(eye: Vec3, xAxis: Vec3, forwards: Vec3, d: Vec3): Vec3 {
    Add(Add(Add(eye, Scale(xAxis, d.x)), Scale(WorldY, d.y)), Scale(forwards, d.z))
  }

  /**
   * A first-person step changes the height only through the world-y amount
   * and the x axis's own tilt: the forward amount never lifts the eye.
   */
  lemma FirstPersonStepKeepsHeight(lib: MathLib, eye: Vec3, xAxis: Vec3, viewDir: Vec3, d: Vec3)
    ensures MovedEye(eye, xAxis, Forwards(lib, FirstPerson, xAxis, viewDir), d).y
      == eye.y + xAxis.y * d.x + d.y
  {
    var f := Forwards(lib, FirstPerson, xAxis, viewDir);
    assert f.y == 0.0;
    assert f.y * d.z == 0.0;
  }

  // ---------------------------------------------------------------------------
  // Rotation.
  // ---------------------------------------------------------------------------

  datatype PitchStep = PitchStep(accum: real, applied: real)

  /**
   * First-person pitch: the accumulated pitch is kept within [-90, 90] and
   * the pitch actually applied is what moves the accumulator there.
   */
  function ClampPitch(accum: real, pitch: real): (s: PitchStep)
    ensures -90.0 <= s.accum <= 90.0
    ensures s.applied == s.accum - accum
    ensures -90.0 <= accum + pitch <= 90.0 ==> s == PitchStep(accum + pitch, pitch)
  {
    var next := Clamp(accum + pitch, -90.0, 90.0);
    PitchStep(next, next - accum)
  }

  /** v turned by `degrees` about `axis`. */
  function Turn(lib: MathLib, degrees: real, axis: Vec3, v: Vec3): Vec3 {
    lib.rotate(Radians(degrees), axis, v)
  }

  /**
   * Flight rotation: heading turns x and z about the current y axis, then
   * pitch turns y and z about the current x axis, then roll turns x and y
   * about the current z axis; a zero angle skips its step.
   */
  function FlightAxes(lib: MathLib, b: Basis, heading: real, pitch: real, roll: real): (r: Basis)
    ensures heading == 0.0 && pitch == 0.0 && roll == 0.0 ==> r == b
    ensures pitch == 0.0 && roll == 0.0 ==> r.y == b.y
    ensures heading == 0.0 && roll == 0.0 ==> r.x == b.x
    ensures heading == 0.0 && pitch == 0.0 ==> r.z == b.z
  {
    var b1 := if heading != 0.0 then Basis(Turn(lib, heading, b.y, b.x), b.y, Turn(lib, heading, b.y, b.z)) else b;
    var b2 := if pitch != 0.0 then Basis(b1.x, Turn(lib, pitch, b1.x, b1.y), Turn(lib, pitch, b1.x, b1.z)) else b1;
    if roll != 0.0 then Basis(Turn(lib, roll, b2.z, b2.x), Turn(lib, roll, b2.z, b2.y), b2.z) else b2
  }

  /**
   * First-person rotation: heading turns x and z about the WORLD y axis,
   * then the (already clamped) pitch turns y and z about the current x axis.
   * There is no roll.
   */
  function FirstPersonAxes(lib: MathLib, b: Basis, heading: real, pitch: real): (r: Basis)
    ensures heading == 0.0 && pitch == 0.0 ==> r == b
    ensures pitch == 0.0 ==> r.y == b.y
    ensures heading != 0.0 ==> r.x == Turn(lib, heading, WorldY, b.x)
  {
    var b1 := if heading != 0.0 then Basis(Turn(lib, heading, WorldY, b.x), b.y, Turn(lib, heading, WorldY, b.z)) else b;
    if pitch != 0.0 then Basis(b1.x, Turn(lib, pitch, b1.x, b1.y), Turn(lib, pitch, b1.x, b1.z)) else b1
  }

  /**
   * The axes regenerated from z and x: z normalised, y = normalise(z x x),
   * x = normalise(y x z). The result is mutually orthogonal whatever the
   * input, because normalising only scales.
   */
  function Orthogonalize(lib: MathLib, b: Basis): (r: Basis)
    ensures r.z == Normalize(lib, b.z)
    ensures Dot(r.y, r.z) == 0.0
    ensures Dot(r.x, r.y) == 0.0
    ensures Dot(r.x, r.z) == 0.0
  {
    var z := Normalize(lib, b.z);
    var y0 := Cross(z, b.x);
    CrossOrthogonal(z, b.x);
    var y := Normalize(lib, y0);
    NormalizeKeepsOrthogonal(lib, y0, z);
    var x0 := Cross(y, z);
    CrossOrthogonal(y, z);
    NormalizeKeepsOrthogonal(lib, x0, y);
    NormalizeKeepsOrthogonal(lib, x0, z);
    Basis(Normalize(lib, x0), y, z)
  }

  // ---------------------------------------------------------------------------
  // The camera.
  // ---------------------------------------------------------------------------

  class Camera {
    var behavior: Behavior
    var fovx: real
    var znear: real
    var zfar: real
    var aspectRatio: real
    var accumPitchDegrees: real
    var eye: Vec3
    var xAxis: Vec3
    var yAxis: Vec3
    var zAxis: Vec3
    var viewDir: Vec3
    var acceleration: Vec3
    var currentVelocity: Vec3
    var velocity: Vec3
    /** m[c, r] is glm's m[c][r]. */
    const viewMatrix: array2<real>
    const projMatrix: array2<real>
    const lib: MathLib

    predicate Valid() {
      IsMat4(viewMatrix) && IsMat4(projMatrix) && viewMatrix != projMatrix
    }

    function Axes(): Basis
      reads this
    {
      Basis(xAxis, yAxis, zAxis)
    }

    function State(): Snapshot
      reads this
    {
      Snapshot(behavior, fovx, znear, zfar, aspectRatio, accumPitchDegrees,
               eye, Axes(), viewDir, acceleration, currentVelocity, velocity)
    }

    /** A flight camera at the origin looking down -z, at rest, with identity matrices. */
    constructor (lib: MathLib)
      ensures Valid() && this.lib == lib && fresh(viewMatrix) && fresh(projMatrix)
      ensures State() == Snapshot(Flight, DefaultFovx, DefaultZnear, DefaultZfar, 0.0, 0.0,
                                 Zero, Basis(WorldX, WorldY, WorldZ), Vec3(0.0, 0.0, -1.0),
                                 Zero, Zero, Zero)
      ensures IsIdentity(viewMatrix) && IsIdentity(projMatrix)
    {
      behavior := Flight;
      fovx := DefaultFovx;
      znear := DefaultZnear;
      zfar := DefaultZfar;
      aspectRatio := 0.0;
      accumPitchDegrees := 0.0;
      eye := Zero;
      xAxis := WorldX;
      yAxis := WorldY;
      zAxis := WorldZ;
      viewDir := Vec3(0.0, 0.0, -1.0);
      acceleration := Zero;
      currentVelocity := Zero;
      velocity := Zero;
      viewMatrix := new real[4, 4]((c: nat, r: nat) => if c == r then 1.0 else 0.0);
      projMatrix := new real[4, 4]((c: nat, r: nat) => if c == r then 1.0 else 0.0);
      this.lib := lib;
    }

    /**
     * Rebuilds the view matrix from the axes and the eye, first regenerating
     * orthogonal axes (and the view direction -z) when asked to.
     */
    method UpdateViewMatrix(orthogonalizeAxes: bool)
      requires Valid()
      modifies this, viewMatrix
      ensures Valid()
      ensures orthogonalizeAxes ==> State() == old(State()).(
        axes := Orthogonalize(lib, old(Axes())), viewDir := Neg(Orthogonalize(lib, old(Axes())).z))
      ensures !orthogonalizeAxes ==> State() == old(State())
      ensures ViewLayout(viewMatrix, Axes(), eye)
    {
      if orthogonalizeAxes {
        zAxis := Normalize(lib, zAxis);
        yAxis := Normalize(lib, Cross(zAxis, xAxis));
        xAxis := Normalize(lib, Cross(yAxis, zAxis));
        viewDir := Neg(zAxis);
      }
      var b := Axes();
      forall c, r | 0 <= c < 4 && 0 <= r < 4 {
        viewMatrix[c, r] := ViewCell(b, eye, c, r);
      }
    }

    /**
     * As written, the glm::lookAt result is discarded: only the accumulated
     * pitch is re-read from cell [1][2] of the current view matrix, and the
     * target plays no part.
     */
    method LookAt(target: Vec3)
      requires Valid()
      modifies this`accumPitchDegrees
      ensures accumPitchDegrees == Degrees(-lib.asin(viewMatrix[1, 2]))
    {
      accumPitchDegrees := Degrees(-lib.asin(viewMatrix[1, 2]));
    }

    /** Moves to `position` and rebuilds the view matrix without touching the axes. */
    method SetPosition(position: Vec3)
      requires Valid()
      modifies this, viewMatrix
      ensures Valid()
      ensures State() == old(State()).(eye := position)
      ensures ViewLayout(viewMatrix, Axes(), eye)
    {
      eye := position;
      UpdateViewMatrix(false);
    }

    /**
     * Moves dx along the camera's x axis, dy along the world y axis and dz
     * forwards (see Forwards), then rebuilds the view matrix.
     */
    method Move(dx: real, dy: real, dz: real)
      requires Valid()
      modifies this, viewMatrix
      ensures Valid()
      ensures State() == old(State()).(
        eye := MovedEye(old(eye), old(xAxis), Forwards(lib, old(behavior), old(xAxis), old(viewDir)), Vec3(dx, dy, dz)))
      ensures ViewLayout(viewMatrix, Axes(), eye)
    {
      var forwards;
      if behavior == FirstPerson {
        forwards := Normalize(lib, Cross(WorldY, xAxis));
      } else {
        forwards := viewDir;
      }
      var e := eye;
      e := Add(e, Scale(xAxis, dx));
      e := Add(e, Scale(WorldY, dy));
      e := Add(e, Scale(forwards, dz));
      SetPosition(e);
    }

    /** Moves by direction * amount, component by component, in world space. */
    method MoveAlong(direction: Vec3, amount: Vec3)
      requires Valid()
      modifies this, viewMatrix
      ensures Valid()
      ensures State() == old(State()).(eye := Vec3(old(eye).x + direction.x * amount.x,
                                                   old(eye).y + direction.y * amount.y,
                                                   old(eye).z + direction.z * amount.z))
      ensures ViewLayout(viewMatrix, Axes(), eye)
    {
      eye := Vec3(eye.x + direction.x * amount.x, eye.y, eye.z);
      eye := eye.(y := eye.y + direction.y * amount.y);
      eye := eye.(z := eye.z + direction.z * amount.z);
      UpdateViewMatrix(false);
    }

    /**
     * The horizontal-field-of-view perspective: the scales of
     * PerspectiveScales on the diagonal, the near/far depth terms, -1 in
     * [2][3] and zero elsewhere; fovx, aspect and the planes are stored.
     */
    method Perspective(fovx: real, aspect: real, znear: real, zfar: real)
      requires Valid()
      requires PerspectiveDefined(lib, fovx, aspect) && znear != zfar
      modifies this`fovx, this`aspectRatio, this`znear, this`zfar, projMatrix
      ensures this.fovx == fovx && aspectRatio == aspect && this.znear == znear && this.zfar == zfar
      ensures ProjLayout(projMatrix, PerspectiveScales(lib, fovx, aspect).0,
                         PerspectiveScales(lib, fovx, aspect).1, znear, zfar)
    {
      var e := 1.0 / lib.tan(Radians(fovx) / 2.0);
      var aspectInv := 1.0 / aspect;
      var fovy := 2.0 * lib.atan(aspectInv / e);
      var xScale := 1.0 / lib.tan(0.5 * fovy);
      InverseNonZero(aspect);
      var yScale := xScale / aspectInv;
      forall c, r | 0 <= c < 4 && 0 <= r < 4 {
        projMatrix[c, r] := ProjCell(xScale, yScale, znear, zfar, c, r);
      }
      this.fovx := fovx;
      aspectRatio := aspect;
      this.znear := znear;
      this.zfar := zfar;
    }

    method RotateFlight(headingDegrees: real, pitchDegrees: real, rollDegrees: real)
      modifies this`xAxis, this`yAxis, this`zAxis
      ensures Axes() == FlightAxes(lib, old(Axes()), headingDegrees, pitchDegrees, rollDegrees)
    {
      if headingDegrees != 0.0 {
        xAxis := Turn(lib, headingDegrees, yAxis, xAxis);
        zAxis := Turn(lib, headingDegrees, yAxis, zAxis);
      }
      if pitchDegrees != 0.0 {
        yAxis := Turn(lib, pitchDegrees, xAxis, yAxis);
        zAxis := Turn(lib, pitchDegrees, xAxis, zAxis);
      }
      if rollDegrees != 0.0 {
        xAxis := Turn(lib, rollDegrees, zAxis, xAxis);
        yAxis := Turn(lib, rollDegrees, zAxis, yAxis);
      }
    }

    method RotateFirstPerson(headingDegrees: real, pitchDegrees: real)
      modifies this`accumPitchDegrees, this`xAxis, this`yAxis, this`zAxis
      ensures accumPitchDegrees == ClampPitch(old(accumPitchDegrees), pitchDegrees).accum
      ensures Axes() == FirstPersonAxes(lib, old(Axes()), headingDegrees,
                                        ClampPitch(old(accumPitchDegrees), pitchDegrees).applied)
    {
      var pitch := pitchDegrees;
      accumPitchDegrees := accumPitchDegrees + pitch;
      if accumPitchDegrees > 90.0 {
        pitch := 90.0 - (accumPitchDegrees - pitch);
        accumPitchDegrees := 90.0;
      }
      if accumPitchDegrees < -90.0 {
        pitch := -90.0 - (accumPitchDegrees - pitch);
        accumPitchDegrees := -90.0;
      }
      if headingDegrees != 0.0 {
        xAxis := Turn(lib, headingDegrees, WorldY, xAxis);
        zAxis := Turn(lib, headingDegrees, WorldY, zAxis);
      }
      if pitch != 0.0 {
        yAxis := Turn(lib, pitch, xAxis, yAxis);
        zAxis := Turn(lib, pitch, xAxis, zAxis);
      }
    }

    /**
     * Rotates by the current behaviour's rule (first person ignores roll and
     * clamps pitch), then orthogonalises the axes and rebuilds the view matrix.
     */
    method Rotate(headingDegrees: real, pitchDegrees: real, rollDegrees: real)
      requires Valid()
      modifies this, viewMatrix
      ensures Valid()
      ensures var step := ClampPitch(old(accumPitchDegrees), pitchDegrees);
        var turned := if old(behavior) == FirstPerson
          then FirstPersonAxes(lib, old(Axes()), headingDegrees, step.applied)
          else FlightAxes(lib, old(Axes()), headingDegrees, pitchDegrees, rollDegrees);
        State() == old(State()).(
          accumPitchDegrees := if old(behavior) == FirstPerson then step.accum else old(accumPitchDegrees),
          axes := Orthogonalize(lib, turned),
          viewDir := Neg(Orthogonalize(lib, turned).z))
      ensures ViewLayout(viewMatrix, Axes(), eye)
    {
      match behavior {
        case FirstPerson => RotateFirstPerson(headingDegrees, pitchDegrees);
        case Flight => RotateFlight(headingDegrees, pitchDegrees, rollDegrees);
      }
      UpdateViewMatrix(true);
    }

    /** One velocity component, branch by branch as the camera updates it. */
    static method StepAxis(dir: real, cur: real, maxV: real, accel: real, dt: real) returns (v: real)
      ensures v == AxisVelocity(dir, cur, maxV, accel, dt)
    {
      v := cur;
      if dir != 0.0 {
        v := v + dir * accel * dt;
        if v > maxV {
          v := maxV;
        } else if v < -maxV {
          v := -maxV;
        }
      } else if v > 0.0 {
        v := v - accel * dt;
        if v < 0.0 {
          v := 0.0;
        }
      } else {
        v := v + accel * dt;
        if v > 0.0 {
          v := 0.0;
        }
      }
    }

    /** Ramps or decays each current-velocity component independently. */
    method UpdateVelocity(direction: Vec3, elapsedTimeSec: real)
      modifies this`currentVelocity
      ensures currentVelocity == NextVelocity(direction, old(currentVelocity), velocity, acceleration, elapsedTimeSec)
    {
      var vx := StepAxis(direction.x, currentVelocity.x, velocity.x, acceleration.x, elapsedTimeSec);
      var vy := StepAxis(direction.y, currentVelocity.y, velocity.y, acceleration.y, elapsedTimeSec);
      var vz := StepAxis(direction.z, currentVelocity.z, velocity.z, acceleration.z, elapsedTimeSec);
      currentVelocity := Vec3(vx, vy, vz);
    }

    /**
     * Moves by the displacement of the velocity held BEFORE this call when
     * that velocity is not the zero vector, and then always updates the
     * velocity. At rest the eye and the view matrix stay as they were.
     */
    method UpdatePosition(direction: Vec3, elapsedTimeSec: real)
      requires Valid()
      modifies this, viewMatrix
      ensures Valid()
      ensures var moving := Dot(old(currentVelocity), old(currentVelocity)) != 0.0;
        State() == old(State()).(
          eye := if moving
            then MovedEye(old(eye), old(xAxis), Forwards(lib, old(behavior), old(xAxis), old(viewDir)),
                          Displacement(direction, old(currentVelocity), old(acceleration), elapsedTimeSec))
            else old(eye),
          currentVelocity := NextVelocity(direction, old(currentVelocity), old(velocity), old(acceleration), elapsedTimeSec))
      ensures Dot(old(currentVelocity), old(currentVelocity)) != 0.0 ==> ViewLayout(viewMatrix, Axes(), eye)
      ensures Dot(old(currentVelocity), old(currentVelocity)) == 0.0 ==> unchanged(viewMatrix)
    {
      if Dot(currentVelocity, currentVelocity) != 0.0 {
        var displacement := Displacement(direction, currentVelocity, acceleration, elapsedTimeSec);
        Move(displacement.x, displacement.y, displacement.z);
      }
      UpdateVelocity(direction, elapsedTimeSec);
    }

    /**
     * Stores the new behaviour. Only the change from flight to first person
     * rebuilds the view matrix, as glm::lookAt(eye, eye - zAxis, world y),
     * which drops the roll; axes, eye and pitch are never touched.
     */
    method SetBehavior(newBehavior: Behavior)
      requires Valid()
      modifies this`behavior, viewMatrix
      ensures behavior == newBehavior
      ensures old(behavior) == Flight && newBehavior == FirstPerson ==>
        LookAtLayout(viewMatrix, lib, eye, Sub(eye, zAxis), WorldY)
      ensures !(old(behavior) == Flight && newBehavior == FirstPerson) ==> unchanged(viewMatrix)
    {
      if behavior == Flight && newBehavior == FirstPerson {
        forall c, r | 0 <= c < 4 && 0 <= r < 4 {
          viewMatrix[c, r] := lib.lookAtCell(eye, Sub(eye, zAxis), WorldY, c, r);
        }
      }
      behavior := newBehavior;
    }

    method SetAcceleration(a: Vec3)
      modifies this`acceleration
      ensures acceleration == a
    {
      acceleration := a;
    }

    method SetCurrentVelocity(v: Vec3)
      modifies this`currentVelocity
      ensures currentVelocity == v
    {
      currentVelocity := v;
    }

    method SetVelocity(v: Vec3)
      modifies this`velocity
      ensures velocity == v
    {
      velocity := v;
    }

    method GetAcceleration() returns (a: Vec3)
      ensures a == acceleration
    {
      a := acceleration;
    }

    method GetBehavior() returns (b: Behavior)
      ensures b == behavior
    {
      b := behavior;
    }

    method GetCurrentVelocity() returns (v: Vec3)
      ensures v == currentVelocity
    {
      v := currentVelocity;
    }

    method GetPosition() returns (p: Vec3)
      ensures p == eye
    {
      p := eye;
    }

    method GetVelocity() returns (v: Vec3)
      ensures v == velocity
    {
      v := velocity;
    }

    method GetViewDirection() returns (d: Vec3)
      ensures d == viewDir
    {
      d := viewDir;
    }

    method GetXAxis() returns (x: Vec3)
      ensures x == xAxis
    {
      x := xAxis;
    }

    method GetYAxis() returns (y: Vec3)
      ensures y == yAxis
    {
      y := yAxis;
    }

    method GetZAxis() returns (z: Vec3)
      ensures z == zAxis
    {
      z := zAxis;
    }

    /** The view and projection matrices are handed out by reference, as the C++ getters return const references. */
    method GetViewMatrix() returns (m: array2<real>)
      ensures m == viewMatrix
    {
      m := viewMatrix;
    }

    method GetProjectionMatrix() returns (m: array2<real>)
      ensures m == projMatrix
    {
      m := projMatrix;
    }
  }

  /**
   * The demo's walking speeds: from rest, one second of pressing along x
   * with acceleration 8 reaches the limit 2 and stops there.
   */
  lemma RampReachesLimit()
    ensures AxisVelocity(1.0, 0.0, 2.0, 8.0, 1.0) == 2.0
    ensures AxisVelocity(-1.0, 0.0, 2.0, 8.0, 1.0) == -2.0
    ensures AxisVelocity(0.0, 2.0, 2.0, 8.0, 0.125) == 1.0
  {
  }
}
