/**
 * The rules of the third-person ball demo's host: the ball rolls on a
 * square floor, W/S roll it forwards or backwards, A/D turn it, and a
 * predicted step that would leave the floor stops it; the chase camera
 * turns with the ball (against it when rolling backwards); SPACE toggles
 * the camera's spring system and '+'/'-' tune its spring constant within
 * fixed limits. The ball entity and the spring camera are not part of
 * this model: the ball's position and forward vector arrive as
 * parameters, and the spring settings are host state.
 */
module BallDemo {
  import opened Geometry
  import opened FrameClock

  const BallForwardSpeed: real := 120.0
  const BallHeadingSpeed: real := 120.0
  const BallRollingSpeed: real := 280.0
  const BallRadius: real := 20.0
  const FloorWidth: real := 1024.0
  const FloorHeight: real := 1024.0
  const CameraMaxSpringConstant: real := 100.0
  const CameraMinSpringConstant: real := 1.0
  /** The ball's starting position, resting on the floor. */
  const BallStart: Vec3 := Vec3(0.0, 1.0 + BallRadius, 0.0)

  /** How far from the centre the ball's centre may go: half the floor less the radius. */
  const FloorBoundaryX: real := FloorWidth * 0.5 - BallRadius
  const FloorBoundaryZ: real := FloorHeight * 0.5 - BallRadius

  /** Strictly inside the floor's boundaries on both horizontal axes. */
  predicate OnFloor(p: Vec3) {
    -FloorBoundaryZ < p.z < FloorBoundaryZ && -FloorBoundaryX < p.x < FloorBoundaryX
  }

  /** Where a ball at position, rolling along forward at forwardSpeed, is after dt seconds. */
  function PredictedPosition(position: Vec3, forward: Vec3, forwardSpeed: real, dt: real): Vec3 {
    Add(position, Scale(forward, forwardSpeed * dt))
  }

  /**
   * The speed the ball may roll at this frame: the requested one when the
   * predicted position stays on the floor, and 0 (the ball stops) when it
   * would not.
   */
  function ClipBallToFloor(position: Vec3, forward: Vec3, forwardSpeed: real, dt: real): (r: real)
    ensures r == forwardSpeed || r == 0.0
    ensures OnFloor(PredictedPosition(position, forward, forwardSpeed, dt)) ==> r == forwardSpeed
    ensures !OnFloor(PredictedPosition(position, forward, forwardSpeed, dt)) ==> r == 0.0
  {
    var newBallPos := PredictedPosition(position, forward, forwardSpeed, dt);
    if newBallPos.z > -FloorBoundaryZ && newBallPos.z < FloorBoundaryZ then
      if newBallPos.x > -FloorBoundaryX && newBallPos.x < FloorBoundaryX then
        forwardSpeed
      else
        0.0
    else
      0.0
  }

  lemma StoppedBallStays(position: Vec3, forward: Vec3, dt: real)
    ensures PredictedPosition(position, forward, 0.0, dt) == position
  {
  }

  /**
   * Whatever is requested, for a ball that is on the floor the position
   * predicted at the clipped speed is still on the floor.
   */
  lemma ClippedBallStaysOnFloor(position: Vec3, forward: Vec3, forwardSpeed: real, dt: real)
    requires OnFloor(position)
    ensures OnFloor(PredictedPosition(position, forward, ClipBallToFloor(position, forward, forwardSpeed, dt), dt))
  {
    if ClipBallToFloor(position, forward, forwardSpeed, dt) == 0.0 {
      StoppedBallStays(position, forward, dt);
    }
  }

  /** An example: the ball's starting position is on the floor. */
  lemma BallStartsOnFloor()
    ensures OnFloor(BallStart)
    ensures FloorBoundaryX == 492.0 && FloorBoundaryZ == 492.0
  {
  }

  /** The held keys UpdateBall reads, each group either of its two keys. */
  datatype BallKeys = BallKeys(
    forwards: bool,   // W or UP
    backwards: bool,  // S or DOWN
    right: bool,      // D or RIGHT
    left: bool)       // A or LEFT

  /** What UpdateBall hands to the ball and the camera. */
  datatype BallCommand = BallCommand(forwardSpeed: real, heading: real, pitch: real, cameraHeading: real)

  /**
   * The requested speed and pitch (a roll about the ball's x axis), and the
   * heading, before clipping. The groups are examined in order and a later
   * one overwrites an earlier one, so S wins over W and A over D.
   */
  function KeyControls(keys: BallKeys): (r: (real, real, real))
    ensures keys.backwards ==> r.0 == -BallForwardSpeed && r.2 == BallRollingSpeed
    ensures keys.forwards && !keys.backwards ==> r.0 == BallForwardSpeed && r.2 == -BallRollingSpeed
    ensures !keys.forwards && !keys.backwards ==> r.0 == 0.0 && r.2 == 0.0
    ensures keys.left ==> r.1 == BallHeadingSpeed
    ensures keys.right && !keys.left ==> r.1 == -BallHeadingSpeed
    ensures !keys.right && !keys.left ==> r.1 == 0.0
  {
    var (speed0, pitch0) := (0.0, 0.0);
    var (speed1, pitch1) := if keys.forwards then (BallForwardSpeed, -BallRollingSpeed) else (speed0, pitch0);
    var (speed2, pitch2) := if keys.backwards then (-BallForwardSpeed, BallRollingSpeed) else (speed1, pitch1);
    var heading0 := 0.0;
    var heading1 := if keys.right then -BallHeadingSpeed else heading0;
    var heading2 := if keys.left then BallHeadingSpeed else heading1;
    (speed2, heading2, pitch2)
  }

  /**
   * The camera's heading rate: the ball's own heading while it rolls
   * forwards or stands, the opposite one while it rolls backwards (a
   * reversing ball's turns are mirrored, and so the camera's are).
   */
  function CameraHeading(forwardSpeed: real, heading: real): (r: real)
    ensures forwardSpeed >= 0.0 ==> r == heading
    ensures forwardSpeed < 0.0 ==> r == -heading
  {
    if forwardSpeed >= 0.0 then heading else -heading
  }

  /** One frame of ball control: the key rules, the floor clip and the camera heading. */
  function BallStep(keys: BallKeys, position: Vec3, forward: Vec3, dt: real): BallCommand {
    var (speed, heading, pitch) := KeyControls(keys);
    var clipped := ClipBallToFloor(position, forward, speed, dt);
    BallCommand(clipped, heading, pitch, CameraHeading(clipped, heading))
  }

  /**
   * Holding S with W rolls the ball backwards, holding A with D turns it
   * left, and the camera turns against the ball's heading while it
   * reverses on the floor.
   */
  lemma LaterKeysOverride(keys: BallKeys, position: Vec3, forward: Vec3, dt: real)
    requires keys.forwards && keys.backwards && keys.right && keys.left
    requires OnFloor(PredictedPosition(position, forward, -BallForwardSpeed, dt))
    ensures BallStep(keys, position, forward, dt)
      == BallCommand(-BallForwardSpeed, BallHeadingSpeed, BallRollingSpeed, -BallHeadingSpeed)
  {
  }

  /**
   * For a ball on the floor, every frame's command predicts a position that
   * is still on the floor; the camera turns with the ball unless the ball
   * actually rolls backwards,
   * and a ball stopped at the edge turns the camera with its heading.
   */
  lemma BallStepProperties(keys: BallKeys, position: Vec3, forward: Vec3, dt: real)
    requires OnFloor(position)
    ensures var c := BallStep(keys, position, forward, dt);
      && OnFloor(PredictedPosition(position, forward, c.forwardSpeed, dt))
      && (c.cameraHeading == -c.heading <==> c.forwardSpeed < 0.0 || c.heading == 0.0)
      && (c.forwardSpeed == 0.0 ==> c.cameraHeading == c.heading)
  {
    var (speed, heading, pitch) := KeyControls(keys);
    ClippedBallStaysOnFloor(position, forward, speed, dt);
  }

  /**
   * UpdateBall's decisions, in the order it takes them; what it then does
   * with the ball and the camera is returned as a command.
   */
  method UpdateBall(keys: BallKeys, position: Vec3, forward: Vec3, elapsedTimeSec: real) returns (c: BallCommand)
    ensures c == BallStep(keys, position, forward, elapsedTimeSec)
  {
    var pitch := 0.0;
    var heading := 0.0;
    var forwardSpeed := 0.0;
    if keys.forwards {
      forwardSpeed := BallForwardSpeed;
      pitch := -BallRollingSpeed;
    }
    if keys.backwards {
      forwardSpeed := -BallForwardSpeed;
      pitch := BallRollingSpeed;
    }
    if keys.right {
      heading := -BallHeadingSpeed;
    }
    if keys.left {
      heading := BallHeadingSpeed;
    }
    forwardSpeed := ClipBallToFloor(position, forward, forwardSpeed, elapsedTimeSec);
    var cameraHeading := if forwardSpeed >= 0.0 then heading else -heading;
    c := BallCommand(forwardSpeed, heading, pitch, cameraHeading);
  }

  /** '+': 0.1 stiffer, at most the maximum. */
  function RaiseSpringConstant(k: real): (r: real)
    ensures r <= CameraMaxSpringConstant
    ensures k + 0.1 <= CameraMaxSpringConstant ==> r == k + 0.1
    ensures k + 0.1 > CameraMaxSpringConstant ==> r == CameraMaxSpringConstant
  {
    Min(CameraMaxSpringConstant, k + 0.1)
  }

  /** '-': 0.1 softer, at least the minimum. */
  function LowerSpringConstant(k: real): (r: real)
    ensures r >= CameraMinSpringConstant
    ensures k - 0.1 >= CameraMinSpringConstant ==> r == k - 0.1
    ensures k - 0.1 < CameraMinSpringConstant ==> r == CameraMinSpringConstant
  {
    Max(CameraMinSpringConstant, k - 0.1)
  }

  /** The key presses ProcessUserInput reacts to (ESC and ALT+ENTER aside). */
  datatype BallPresses = BallPresses(
    help: bool,          // H
    verticalSync: bool,  // V
    spring: bool,        // SPACE
    stiffer: bool,       // '+' on either keyboard
    softer: bool)        // '-' on either keyboard

  /** The spring constant after '+' and then '-', each applied when pressed. */
  function TunedSpringConstant(k: real, p: BallPresses): (r: real)
    ensures CameraMinSpringConstant <= k <= CameraMaxSpringConstant ==>
      CameraMinSpringConstant <= r <= CameraMaxSpringConstant
    ensures !p.stiffer && !p.softer ==> r == k
  {
    var raised := if p.stiffer then RaiseSpringConstant(k) else k;
    if p.softer then LowerSpringConstant(raised) else raised
  }

  /**
   * Once '+' has reached the maximum, pressing it again changes nothing,
   * and likewise '-' at the minimum; a constant in range one step away
   * from both limits returns to where it was after '+' and then '-'.
   */
  lemma SpringLimitsAreFixedPoints(k: real)
    ensures RaiseSpringConstant(CameraMaxSpringConstant) == CameraMaxSpringConstant
    ensures LowerSpringConstant(CameraMinSpringConstant) == CameraMinSpringConstant
    ensures CameraMinSpringConstant + 0.1 <= k <= CameraMaxSpringConstant - 0.1 ==>
      LowerSpringConstant(RaiseSpringConstant(k)) == k
  {
  }

  class BallHost {
    /** The spring camera's spring-system flag and spring constant. */
    var springSystemEnabled: bool
    var springConstant: real
    var displayHelp: bool
    var enableVerticalSync: bool
    /** Whether the driver offers the swap-interval extension. */
    const swapControl: bool
    const frameRate: FrameRate

    predicate Valid()
      reads this, frameRate
    {
      frameRate.Valid()
    }

    /**
     * The globals after start-up: help hidden and vertical sync switched
     * off; the spring camera's own settings, whose defaults live in a class
     * not modelled here, are given.
     */
    constructor (frameRate: FrameRate, swapControl: bool, springSystemEnabled: bool, springConstant: real)
      requires frameRate.Valid()
      ensures Valid() && this.frameRate == frameRate && this.swapControl == swapControl
      ensures this.springSystemEnabled == springSystemEnabled && this.springConstant == springConstant
      ensures !displayHelp && !enableVerticalSync
    {
      this.frameRate := frameRate;
      this.swapControl := swapControl;
      this.springSystemEnabled := springSystemEnabled;
      this.springConstant := springConstant;
      displayHelp := false;
      enableVerticalSync := false;
    }

    /** The flag follows the request only when the swap-interval extension exists. */
    method EnableVerticalSync(enable: bool)
      modifies this`enableVerticalSync
      ensures enableVerticalSync == if swapControl then enable else old(enableVerticalSync)
    {
      if swapControl {
        enableVerticalSync := enable;
      }
    }

    /** H, V, SPACE, '+' and '-'. */
    method ProcessUserInput(p: BallPresses)
      modifies this`displayHelp, this`enableVerticalSync, this`springSystemEnabled, this`springConstant
      ensures displayHelp == (old(displayHelp) != p.help)
      ensures enableVerticalSync == if p.verticalSync && swapControl then !old(enableVerticalSync) else old(enableVerticalSync)
      ensures springSystemEnabled == (old(springSystemEnabled) != p.spring)
      ensures springConstant == TunedSpringConstant(old(springConstant), p)
      ensures CameraMinSpringConstant <= old(springConstant) <= CameraMaxSpringConstant ==>
        CameraMinSpringConstant <= springConstant <= CameraMaxSpringConstant
    {
      if p.help {
        displayHelp := !displayHelp;
      }
      if p.verticalSync {
        EnableVerticalSync(!enableVerticalSync);
      }
      if p.spring {
        springSystemEnabled := !springSystemEnabled;
      }
      if p.stiffer {
        var k := springConstant + 0.1;
        k := Min(CameraMaxSpringConstant, k);
        springConstant := k;
      }
      if p.softer {
        var k := springConstant - 0.1;
        k := Max(CameraMinSpringConstant, k);
        springConstant := k;
      }
    }

    /**
     * One frame: the presses, the frame counter, then the ball. The spring
     * constant stays within its limits once it starts there.
     */
    method UpdateFrame(elapsedTimeSec: real, p: BallPresses, keys: BallKeys, position: Vec3, forward: Vec3)
      returns (c: BallCommand)
      requires Valid()
      modifies this, frameRate
      ensures Valid()
      ensures springSystemEnabled == (old(springSystemEnabled) != p.spring)
      ensures springConstant == TunedSpringConstant(old(springConstant), p)
      ensures c == BallStep(keys, position, forward, elapsedTimeSec)
      ensures OnFloor(position) ==> OnFloor(PredictedPosition(position, forward, c.forwardSpeed, elapsedTimeSec))
    {
      ProcessUserInput(p);
      frameRate.UpdateFrameRate(elapsedTimeSec);
      c := UpdateBall(keys, position, forward, elapsedTimeSec);
      if OnFloor(position) {
        BallStepProperties(keys, position, forward, elapsedTimeSec);
      }
    }
  }
}
