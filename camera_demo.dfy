/**
 * The first-person / flight demo host: how keys become a movement direction
 * (with the current velocity reset on a fresh key press), how the mouse
 * offset becomes heading, pitch and roll, how the camera is kept inside the
 * box above the floor, and the keys that tune the rotation speed and the
 * mouse filter. It drives the vector camera and the input model; key states
 * this frame arrive as parameters.
 */
module CameraDemo {
  import opened Geometry
  import opened VectorCamera
  import opened Input
  import opened FrameClock

  const CameraAcceleration: Vec3 := Vec3(8.0, 8.0, 8.0)
  const CameraFovx: real := 90.0
  const CameraPos: Vec3 := Vec3(0.0, 1.0, 0.0)
  const CameraSpeedRotation: real := 0.2
  const CameraSpeedFlightYaw: real := 100.0
  const CameraVelocity: Vec3 := Vec3(2.0, 2.0, 2.0)
  const CameraZfar: real := 100.0
  const CameraZnear: real := 0.1
  const FloorWidth: real := 16.0
  const FloorHeight: real := 16.0
  /** The box the camera is kept in: over the floor, from eye height up to 4. */
  const BoundsMax: Vec3 := Vec3(FloorWidth / 2.0, 4.0, FloorHeight / 2.0)
  const BoundsMin: Vec3 := Vec3(-FloorWidth / 2.0, CameraPos.y, -FloorHeight / 2.0)

  // ---------------------------------------------------------------------------
  // Movement keys.
  // ---------------------------------------------------------------------------

  /** The six movement keys W, S, D, A, E, Q: which are down, or which are latched. */
  datatype MovementKeys = MovementKeys(forwards: bool, backwards: bool, right: bool, left: bool, up: bool, down: bool)

  /** One direction component: +1 for the positive key, -1 for the negative one. */
  function AxisInput(positive: bool, negative: bool): (r: real)
    ensures r == 1.0 || r == 0.0 || r == -1.0
    ensures r == 0.0 <==> positive == negative
    ensures r == 1.0 <==> positive && !negative
    ensures r == -1.0 <==> negative && !positive
  {
    (if positive then 1.0 else 0.0) - (if negative then 1.0 else 0.0)
  }

  /** x from D/A, y from E/Q, z from W/S. */
  function MovementDirection(keys: MovementKeys): Vec3 {
    Vec3(AxisInput(keys.right, keys.left), AxisInput(keys.up, keys.down), AxisInput(keys.forwards, keys.backwards))
  }

  /** The keys that went down this frame: down now and not latched from before. */
  function PressEdges(keys: MovementKeys, latched: MovementKeys): MovementKeys {
    MovementKeys(keys.forwards && !latched.forwards, keys.backwards && !latched.backwards,
                 keys.right && !latched.right, keys.left && !latched.left,
                 keys.up && !latched.up, keys.down && !latched.down)
  }

  /**
   * The current velocity after the press edges, in the order the keys are
   * polled: each edge overwrites the velocity with the frame-start snapshot
   * minus its own axis. So the last group with an edge decides, and exactly
   * that one component is zeroed.
   */
  function VelocityAfterPresses(v: Vec3, e: MovementKeys): (r: Vec3)
    ensures e.up || e.down ==> r == Vec3(v.x, 0.0, v.z)
    ensures !(e.up || e.down) && (e.right || e.left) ==> r == Vec3(0.0, v.y, v.z)
    ensures !(e.up || e.down || e.right || e.left) && (e.forwards || e.backwards) ==> r == Vec3(v.x, v.y, 0.0)
    ensures !(e.up || e.down || e.right || e.left || e.forwards || e.backwards) ==> r == v
  {
    var afterW := if e.forwards then Vec3(v.x, v.y, 0.0) else v;
    var afterS := if e.backwards then Vec3(v.x, v.y, 0.0) else afterW;
    var afterD := if e.right then Vec3(0.0, v.y, v.z) else afterS;
    var afterA := if e.left then Vec3(0.0, v.y, v.z) else afterD;
    var afterE := if e.up then Vec3(v.x, 0.0, v.z) else afterA;
    if e.down then Vec3(v.x, 0.0, v.z) else afterE
  }

  /** Holding the same keys over the next frame produces no edge, so the velocity is left alone. */
  lemma HeldKeysKeepVelocity(v: Vec3, keys: MovementKeys)
    ensures PressEdges(keys, keys) == MovementKeys(false, false, false, false, false, false)
    ensures VelocityAfterPresses(v, PressEdges(keys, keys)) == v
  {
  }

  /** Two opposite keys held together cancel. */
  lemma OppositeKeysCancel(keys: MovementKeys)
    requires keys.forwards && keys.backwards
    ensures MovementDirection(keys).z == 0.0
  {
  }

  // ---------------------------------------------------------------------------
  // Collision box.
  // ---------------------------------------------------------------------------

  predicate InBounds(p: Vec3, lo: Vec3, hi: Vec3) {
    lo.x <= p.x <= hi.x && lo.y <= p.y <= hi.y && lo.z <= p.z <= hi.z
  }

  predicate WellFormedBounds(lo: Vec3, hi: Vec3) {
    lo.x <= hi.x && lo.y <= hi.y && lo.z <= hi.z
  }

  /** Each component clamped into [lo, hi]; the minimum wins if the box is inverted. */
  function ClampToBounds(p: Vec3, lo: Vec3, hi: Vec3): (r: Vec3)
    ensures WellFormedBounds(lo, hi) ==> InBounds(r, lo, hi)
    ensures InBounds(p, lo, hi) ==> r == p
    ensures p.x < lo.x ==> r.x == lo.x
    ensures p.y < lo.y ==> r.y == lo.y
    ensures p.z < lo.z ==> r.z == lo.z
  {
    Vec3(Clamp(p.x, lo.x, hi.x), Clamp(p.y, lo.y, hi.y), Clamp(p.z, lo.z, hi.z))
  }

  /** Clamping twice changes nothing more. */
  lemma ClampToBoundsIdempotent(p: Vec3, lo: Vec3, hi: Vec3)
    requires WellFormedBounds(lo, hi)
    ensures ClampToBounds(ClampToBounds(p, lo, hi), lo, hi) == ClampToBounds(p, lo, hi)
  {
  }

  /** The clamped point is the nearest point of the box along every axis. */
  lemma ClampToBoundsIsNearest(p: Vec3, lo: Vec3, hi: Vec3, q: Vec3)
    requires WellFormedBounds(lo, hi) && InBounds(q, lo, hi)
    ensures Abs(ClampToBounds(p, lo, hi).x - p.x) <= Abs(q.x - p.x)
    ensures Abs(ClampToBounds(p, lo, hi).y - p.y) <= Abs(q.y - p.y)
    ensures Abs(ClampToBounds(p, lo, hi).z - p.z) <= Abs(q.z - p.z)
  {
  }

  /** An example: the demo's box is well formed and holds the camera's starting position. */
  lemma DemoBoundsWellFormed()
    ensures WellFormedBounds(BoundsMin, BoundsMax) && InBounds(CameraPos, BoundsMin, BoundsMax)
  {
  }

  // ---------------------------------------------------------------------------
  // Tuning keys.
  // ---------------------------------------------------------------------------

  /** '+': 0.01 faster, capped at 1. */
  function RaiseRotationSpeed(s: real): (r: real)
    ensures r <= 1.0
    ensures s + 0.01 <= 1.0 ==> r == s + 0.01
    ensures 0.0 < s <= 1.0 ==> s <= r && 0.0 < r
  {
    if s + 0.01 > 1.0 then 1.0 else s + 0.01
  }

  /** '-': 0.01 slower, reset to 0.01 when it would reach 0. */
  function LowerRotationSpeed(s: real): (r: real)
    ensures r > 0.0
    ensures s - 0.01 > 0.0 ==> r == s - 0.01
    ensures s <= 1.0 ==> r <= 1.0
  {
    if s - 0.01 <= 0.0 then 0.01 else s - 0.01
  }

  /** '.': heavier smoothing, 0.1 more weight, capped at 1. */
  function RaiseWeight(w: real): (r: real)
    ensures r <= 1.0
    ensures w + 0.1 <= 1.0 ==> r == w + 0.1
    ensures 0.0 <= w ==> 0.0 <= r
  {
    if w + 0.1 > 1.0 then 1.0 else w + 0.1
  }

  /** ',': lighter smoothing, 0.1 less weight, floored at 0. */
  function LowerWeight(w: real): (r: real)
    ensures r >= 0.0
    ensures w - 0.1 >= 0.0 ==> r == w - 0.1
    ensures w <= 1.0 ==> r <= 1.0
  {
    if w - 0.1 < 0.0 then 0.0 else w - 0.1
  }

  /** The presses (edges) of the tuning keys this frame. */
  datatype TuningPresses = TuningPresses(
    help: bool, smoothing: bool, verticalSync: bool,
    faster: bool, slower: bool, heavier: bool, lighter: bool, flight: bool)

  /** The rotation speed after '+' and then '-', each applied when pressed. */
  function TunedRotationSpeed(s: real, p: TuningPresses): (r: real)
    ensures 0.0 < s <= 1.0 ==> 0.0 < r <= 1.0
    ensures !p.faster && !p.slower ==> r == s
  {
    var raised := if p.faster then RaiseRotationSpeed(s) else s;
    if p.slower then LowerRotationSpeed(raised) else raised
  }

  /** The mouse weight after '.' and then ','. */
  function TunedWeight(w: real, p: TuningPresses): (r: real)
    ensures 0.0 <= w <= 1.0 ==> 0.0 <= r <= 1.0
    ensures !p.heavier && !p.lighter ==> r == w
  {
    var raised := if p.heavier then RaiseWeight(w) else w;
    if p.lighter then LowerWeight(raised) else raised
  }

  /** A weight in [0, 1] keeps the mouse filter's divisor at least 1. */
  lemma TunedWeightKeepsFilterDefined(w: real, n: nat)
    requires 0.0 <= w <= 1.0 && n >= 1
    ensures WeightTotal(w, n) >= 1.0
  {
    WeightTotalAtLeastOne(w, n);
  }

  // ---------------------------------------------------------------------------
  // Camera dispatch.
  // ---------------------------------------------------------------------------

  /** Heading, pitch and roll, in degrees, for this frame's mouse offset and keys. */
  datatype Turn = Turn(heading: real, pitch: real, roll: real)

  /**
   * First person: the mouse's horizontal offset yaws, the vertical one
   * pitches, there is no roll. Flight: D/A yaw at 100 degrees per second and
   * the mouse pitches and rolls, both reversed.
   */
  function RotationInputs(behavior: Behavior, direction: Vec3, distX: real, distY: real,
                          rotationSpeed: real, elapsedTimeSec: real): (t: Turn)
    ensures behavior == FirstPerson ==> t.roll == 0.0
    ensures behavior == Flight ==> t.heading == -direction.x * CameraSpeedFlightYaw * elapsedTimeSec
    ensures behavior == Flight && rotationSpeed != 0.0 ==> (distX == 0.0 <==> t.roll == 0.0)
  {
    match behavior
    case FirstPerson => Turn(-distX * rotationSpeed, distY * rotationSpeed, 0.0)
    case Flight => Turn(-direction.x * CameraSpeedFlightYaw * elapsedTimeSec, -distY * rotationSpeed, -distX * rotationSpeed)
  }

  /** The movement passed to the camera: in flight D/A turn instead of strafing. */
  function TranslationDirection(behavior: Behavior, direction: Vec3): (d: Vec3)
    ensures behavior == Flight ==> d.x == 0.0 && d.y == direction.y && d.z == direction.z
    ensures behavior == FirstPerson ==> d == direction
  {
    if behavior == Flight then Vec3(0.0, direction.y, direction.z) else direction
  }

  /** In flight, D and A yaw the camera and never move it sideways. */
  lemma FlightSideKeysYaw(keys: MovementKeys, speed: real, dt: real, distX: real, distY: real)
    requires keys.right && !keys.left && dt > 0.0
    ensures TranslationDirection(Flight, MovementDirection(keys)).x == 0.0
    ensures RotationInputs(Flight, MovementDirection(keys), distX, distY, speed, dt).heading < 0.0
  {
  }

  // ---------------------------------------------------------------------------
  // The host.
  // ---------------------------------------------------------------------------

  /**
   * The camera setup of Init: the demo's perspective for the window's aspect,
   * first person at CAMERA_POS, with the demo's acceleration and velocity.
   */
  method SetUpCamera(lib: MathLib, aspect: real) returns (c: Camera)
    requires PerspectiveDefined(lib, CameraFovx, aspect)
    ensures fresh(c) && fresh(c.viewMatrix) && fresh(c.projMatrix) && c.Valid() && c.lib == lib
    ensures c.behavior == FirstPerson && c.eye == CameraPos
    ensures c.acceleration == CameraAcceleration && c.velocity == CameraVelocity
    ensures c.fovx == CameraFovx && c.znear == CameraZnear && c.zfar == CameraZfar && c.aspectRatio == aspect
  {
    c := new Camera(lib);
    c.Perspective(CameraFovx, aspect, CameraZnear, CameraZfar);
    c.SetBehavior(FirstPerson);
    c.SetPosition(CameraPos);
    c.SetAcceleration(CameraAcceleration);
    c.SetVelocity(CameraVelocity);
  }

  class Host {
    const camera: Camera
    const mouse: Mouse
    const frameRate: FrameRate
    /** Whether wglSwapIntervalEXT is available. */
    const swapControl: bool
    /** The static press latches of GetMovementDirection. */
    var latched: MovementKeys
    var displayHelp: bool
    var enableVerticalSync: bool
    var flightModeEnabled: bool
    var rotationSpeed: real

    /**
     * The flight flag mirrors the camera's behaviour, the camera stays in the
     * box, the rotation speed is in (0, 1] and the mouse weight in [0, 1].
     */
    predicate Valid()
      reads this, camera, mouse, frameRate
    {
      camera.Valid() && mouse.Valid() && frameRate.Valid()
      && (flightModeEnabled <==> camera.behavior == Flight)
      && InBounds(camera.eye, BoundsMin, BoundsMax)
      && 0.0 < rotationSpeed <= 1.0
      && 0.0 <= mouse.weightModifier <= 1.0
    }

    /**
     * Init: a first-person camera at CAMERA_POS with the demo's projection,
     * acceleration and velocity; the cursor hidden and sent to the centre.
     */
    constructor (lib: MathLib, mouse: Mouse, frameRate: FrameRate, swapControl: bool,
                 windowWidth: int, windowHeight: int)
      requires mouse.Valid() && frameRate.Valid() && 0.0 <= mouse.weightModifier <= 1.0
      requires windowHeight != 0
      requires PerspectiveDefined(lib, CameraFovx, windowWidth as real / windowHeight as real)
      modifies mouse`cursorVisible, mouse`posX, mouse`posY, mouse`moveToWindowCenterPending
      ensures Valid() && fresh(camera) && fresh(camera.viewMatrix) && fresh(camera.projMatrix)
      ensures this.mouse == mouse && this.frameRate == frameRate && this.swapControl == swapControl
      ensures camera.behavior == FirstPerson && camera.eye == CameraPos
      ensures camera.acceleration == CameraAcceleration && camera.velocity == CameraVelocity
      ensures camera.fovx == CameraFovx && camera.znear == CameraZnear && camera.zfar == CameraZfar
      ensures !flightModeEnabled && !displayHelp && !enableVerticalSync && rotationSpeed == CameraSpeedRotation
      ensures latched == MovementKeys(false, false, false, false, false, false)
      ensures !mouse.cursorVisible
    {
      var c := SetUpCamera(lib, windowWidth as real / windowHeight as real);
      camera := c;
      this.mouse := mouse;
      this.frameRate := frameRate;
      this.swapControl := swapControl;
      latched := MovementKeys(false, false, false, false, false, false);
      displayHelp := false;
      enableVerticalSync := false;
      flightModeEnabled := false;
      rotationSpeed := CameraSpeedRotation;
      new;
      mouse.HideCursor(true);
      mouse.MoveToWindowCenter();
    }

    /**
     * One movement key: on a fresh press the camera's current velocity is
     * reset to `reset`; the returned latch is whether the key is down.
     */
    method PollKey(down: bool, wasLatched: bool, reset: Vec3) returns (nowLatched: bool)
      modifies camera`currentVelocity
      ensures nowLatched == down
      ensures down && !wasLatched ==> camera.currentVelocity == reset
      ensures !(down && !wasLatched) ==> camera.currentVelocity == old(camera.currentVelocity)
    {
      nowLatched := wasLatched;
      if down {
        if !wasLatched {
          nowLatched := true;
          camera.SetCurrentVelocity(reset);
        }
      } else {
        nowLatched := false;
      }
    }

    /**
     * The direction the keys ask for, with the latches tracking which keys
     * are down and, on each fresh press, the camera's current velocity reset
     * from the frame-start value with that key's axis zeroed.
     */
    method GetMovementDirection(keys: MovementKeys) returns (direction: Vec3)
      modifies this`latched, camera`currentVelocity
      ensures direction == MovementDirection(keys)
      ensures latched == keys
      ensures camera.currentVelocity == VelocityAfterPresses(old(camera.currentVelocity), PressEdges(keys, old(latched)))
    {
      var velocity := camera.currentVelocity;
      var noZ, noX, noY := Vec3(velocity.x, velocity.y, 0.0), Vec3(0.0, velocity.y, velocity.z), Vec3(velocity.x, 0.0, velocity.z);
      direction := Vec3(0.0, 0.0, 0.0);

      var forwards := PollKey(keys.forwards, latched.forwards, noZ);
      if keys.forwards {
        direction := direction.(z := direction.z + 1.0);
      }
      var backwards := PollKey(keys.backwards, latched.backwards, noZ);
      if keys.backwards {
        direction := direction.(z := direction.z - 1.0);
      }
      var right := PollKey(keys.right, latched.right, noX);
      if keys.right {
        direction := direction.(x := direction.x + 1.0);
      }
      var left := PollKey(keys.left, latched.left, noX);
      if keys.left {
        direction := direction.(x := direction.x - 1.0);
      }
      var up := PollKey(keys.up, latched.up, noY);
      if keys.up {
        direction := direction.(y := direction.y + 1.0);
      }
      var down := PollKey(keys.down, latched.down, noY);
      if keys.down {
        direction := direction.(y := direction.y - 1.0);
      }
      latched := MovementKeys(forwards, backwards, right, left, up, down);
    }

    /** Clamps the camera position into the box and moves the camera there. */
    method PerformCameraCollisionDetection()
      requires camera.Valid()
      modifies camera, camera.viewMatrix
      ensures camera.Valid()
      ensures camera.State() == old(camera.State()).(eye := ClampToBounds(old(camera.eye), BoundsMin, BoundsMax))
      ensures InBounds(camera.eye, BoundsMin, BoundsMax)
      ensures ViewLayout(camera.viewMatrix, camera.Axes(), camera.eye)
    {
      var pos := camera.eye;
      var newPos := pos;
      if pos.x > BoundsMax.x {
        newPos := newPos.(x := BoundsMax.x);
      }
      if pos.x < BoundsMin.x {
        newPos := newPos.(x := BoundsMin.x);
      }
      if pos.y > BoundsMax.y {
        newPos := newPos.(y := BoundsMax.y);
      }
      if pos.y < BoundsMin.y {
        newPos := newPos.(y := BoundsMin.y);
      }
      if pos.z > BoundsMax.z {
        newPos := newPos.(z := BoundsMax.z);
      }
      if pos.z < BoundsMin.z {
        newPos := newPos.(z := BoundsMin.z);
      }
      camera.SetPosition(newPos);
    }

    /** Sets the swap interval and records it, when the extension is there. */
    method EnableVerticalSync(enable: bool)
      modifies this`enableVerticalSync
      ensures enableVerticalSync == if swapControl then enable else old(enableVerticalSync)
    {
      if swapControl {
        enableVerticalSync := enable;
      }
    }

    /** H, M and V: the help text, the mouse smoothing and the vertical sync. */
    method ProcessToggles(p: TuningPresses)
      modifies this`displayHelp, this`enableVerticalSync, mouse`enableFiltering
      ensures displayHelp == (old(displayHelp) != p.help)
      ensures mouse.enableFiltering == (old(mouse.enableFiltering) != p.smoothing)
      ensures enableVerticalSync == if p.verticalSync && swapControl then !old(enableVerticalSync) else old(enableVerticalSync)
    {
      if p.help {
        displayHelp := !displayHelp;
      }
      if p.smoothing {
        mouse.SmoothMouse(!mouse.enableFiltering);
      }
      if p.verticalSync {
        EnableVerticalSync(!enableVerticalSync);
      }
    }

    /** '+' and '-' on the rotation speed. */
    method TuneRotationSpeed(p: TuningPresses)
      modifies this`rotationSpeed
      ensures rotationSpeed == TunedRotationSpeed(old(rotationSpeed), p)
    {
      if p.faster {
        rotationSpeed := rotationSpeed + 0.01;
        if rotationSpeed > 1.0 {
          rotationSpeed := 1.0;
        }
      }
      if p.slower {
        rotationSpeed := rotationSpeed - 0.01;
        if rotationSpeed <= 0.0 {
          rotationSpeed := 0.01;
        }
      }
    }

    /** '.' and ',' on the mouse filter weight. */
    method TuneWeight(p: TuningPresses)
      modifies mouse`weightModifier
      ensures mouse.weightModifier == TunedWeight(old(mouse.weightModifier), p)
    {
      if p.heavier {
        mouse.SetWeightModifier(mouse.weightModifier + 0.1);
        if mouse.weightModifier > 1.0 {
          mouse.SetWeightModifier(1.0);
        }
      }
      if p.lighter {
        mouse.SetWeightModifier(mouse.weightModifier - 0.1);
        if mouse.weightModifier < 0.0 {
          mouse.SetWeightModifier(0.0);
        }
      }
    }

    /** SPACE: toggles flight; landing puts the camera back at eye height. */
    method ToggleFlight()
      requires Valid()
      modifies this`flightModeEnabled, camera, camera.viewMatrix
      ensures Valid()
      ensures flightModeEnabled == !old(flightModeEnabled)
      ensures flightModeEnabled ==> camera.State() == old(camera.State()).(behavior := Flight)
      ensures !flightModeEnabled ==> camera.State() == old(camera.State()).(
        behavior := FirstPerson, eye := Vec3(old(camera.eye).x, CameraPos.y, old(camera.eye).z))
    {
      flightModeEnabled := !flightModeEnabled;
      if flightModeEnabled {
        camera.SetBehavior(Flight);
      } else {
        var cameraPos := camera.eye;
        camera.SetBehavior(FirstPerson);
        camera.SetPosition(Vec3(cameraPos.x, CameraPos.y, cameraPos.z));
      }
    }

    /**
     * The tuning keys: H toggles the help text, M the mouse smoothing, V the
     * vertical sync; +/- tune the rotation speed, ./, the mouse weight; SPACE
     * toggles flight.
     */
    method ProcessUserInput(p: TuningPresses)
      requires Valid()
      modifies this`displayHelp, this`enableVerticalSync, this`rotationSpeed, this`flightModeEnabled
      modifies mouse`enableFiltering, mouse`weightModifier, camera, camera.viewMatrix
      ensures Valid()
      ensures displayHelp == (old(displayHelp) != p.help)
      ensures mouse.enableFiltering == (old(mouse.enableFiltering) != p.smoothing)
      ensures enableVerticalSync == if p.verticalSync && swapControl then !old(enableVerticalSync) else old(enableVerticalSync)
      ensures rotationSpeed == TunedRotationSpeed(old(rotationSpeed), p)
      ensures mouse.weightModifier == TunedWeight(old(mouse.weightModifier), p)
      ensures flightModeEnabled == (old(flightModeEnabled) != p.flight)
      ensures !p.flight ==> camera.State() == old(camera.State()) && unchanged(camera.viewMatrix)
      ensures p.flight && flightModeEnabled ==> camera.State() == old(camera.State()).(behavior := Flight)
      ensures p.flight && !flightModeEnabled ==> camera.State() == old(camera.State()).(
        behavior := FirstPerson, eye := Vec3(old(camera.eye).x, CameraPos.y, old(camera.eye).z))
    {
      ProcessToggles(p);
      TuneRotationSpeed(p);
      TuneWeight(p);
      if p.flight {
        ToggleFlight();
      }
    }

    /**
     * One camera frame: the keys give a direction; the camera turns by the
     * behaviour's rule for the mouse offset; it moves (in flight without the
     * sideways part), is clamped into the box, and the cursor is sent back
     * to the window centre.
     */
    method UpdateCamera(elapsedTimeSec: real, keys: MovementKeys)
      requires Valid()
      modifies this`latched, camera, camera.viewMatrix, mouse`posX, mouse`posY, mouse`moveToWindowCenterPending
      ensures Valid()
      ensures latched == keys
      ensures camera.behavior == old(camera.behavior) && camera.fovx == old(camera.fovx)
        && camera.znear == old(camera.znear) && camera.zfar == old(camera.zfar)
        && camera.aspectRatio == old(camera.aspectRatio)
        && camera.acceleration == old(camera.acceleration) && camera.velocity == old(camera.velocity)
      ensures ViewLayout(camera.viewMatrix, camera.Axes(), camera.eye)
      ensures mouse.centreX != 0 && mouse.centreY != 0 ==> mouse.posX == mouse.centreX && mouse.posY == mouse.centreY
      ensures !(mouse.centreX != 0 && mouse.centreY != 0) ==> mouse.moveToWindowCenterPending
    {
      var direction := GetMovementDirection(keys);
      var behavior := camera.behavior;
      var keyDirection := direction;
      match behavior {
        case FirstPerson =>
          var pitch := mouse.distY * rotationSpeed;
          var heading := -mouse.distX * rotationSpeed;
          assert Turn(heading, pitch, 0.0) == RotationInputs(behavior, keyDirection, mouse.distX, mouse.distY, rotationSpeed, elapsedTimeSec);
          camera.Rotate(heading, pitch, 0.0);
        case Flight =>
          var heading := -direction.x * CameraSpeedFlightYaw * elapsedTimeSec;
          var pitch := -mouse.distY * rotationSpeed;
          var roll := -mouse.distX * rotationSpeed;
          assert Turn(heading, pitch, roll) == RotationInputs(behavior, keyDirection, mouse.distX, mouse.distY, rotationSpeed, elapsedTimeSec);
          camera.Rotate(heading, pitch, roll);
          direction := direction.(x := 0.0);
      }
      assert direction == TranslationDirection(behavior, keyDirection);
      camera.UpdatePosition(direction, elapsedTimeSec);
      PerformCameraCollisionDetection();
      mouse.MoveToWindowCenter();
    }

    /**
     * A whole frame in the host's order: the frame rate, the mouse (the
     * keyboard snapshot is the key parameters), the camera, then the tuning
     * keys. The invariant holds from frame to frame.
     */
    method UpdateFrame(elapsedTimeSec: real, buttons: seq<bool>, mouseX: int, mouseY: int,
                       width: int, height: int, keys: MovementKeys, presses: TuningPresses)
      requires Valid() && |buttons| == ButtonCount
      modifies this, camera, camera.viewMatrix, mouse, mouse.history, mouse.filtered,
        mouse.firstButtons, mouse.secondButtons, frameRate
      ensures Valid()
    {
      frameRate.UpdateFrameRate(elapsedTimeSec);
      TunedWeightKeepsFilterDefined(mouse.weightModifier, mouse.history.Length / 2);
      mouse.Update(buttons, mouseX, mouseY, width, height);
      UpdateCamera(elapsedTimeSec, keys);
      ProcessUserInput(presses);
    }
  }
}
