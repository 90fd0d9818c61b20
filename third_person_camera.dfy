/**
 * The third-person orbit camera: it looks at a target from an offset, and
 * each frame turns that offset by the recorded angular rates (a quaternion
 * triple product, an uninterpreted library operation here) and rebuilds its
 * axes and view matrix by lookAt.
 */
module OrbitCamera {
  import opened Geometry

  const DefaultFovx: real := 80.0
  const DefaultZnear: real := 1.0
  const DefaultZfar: real := 1000.0

  datatype Snapshot = Snapshot(
    longitudeDegrees: real, latitudeDegrees: real,
    fovx: real, znear: real, zfar: real,
    eye: Vec3, target: Vec3, offset: Vec3, axes: Basis, viewDir: Vec3)

  /**
   * The axes lookAt derives: z is the unit offset from the target to the eye,
   * x the unit up x z (normalised twice, as written), y the unit z x x.
   */
  function LookAtAxes(lib: MathLib, eye: Vec3, target: Vec3, up: Vec3): Basis {
    var z := lib.unit(Sub(eye, target));
    var x := lib.unit(Cross(up, z));
    var y := lib.unit(Cross(z, x));
    Basis(lib.unit(x), y, z)
  }

  /** The offset turned by the angles the rates sweep in dt seconds. */
  function Orbited(lib: MathLib, longitudeDegrees: real, latitudeDegrees: real, dt: real, offset: Vec3): Vec3 {
    lib.orbit(longitudeDegrees * dt, latitudeDegrees * dt, offset)
  }

  lemma AddSubCancel(a: Vec3, b: Vec3)
    ensures Sub(Add(a, b), b) == a
  {
  }

  class ThirdPersonCamera {
    var longitudeDegrees: real
    var latitudeDegrees: real
    var fovx: real
    var znear: real
    var zfar: real
    var eye: Vec3
    var target: Vec3
    var offset: Vec3
    var xAxis: Vec3
    var yAxis: Vec3
    var zAxis: Vec3
    var viewDir: Vec3
    const viewMatrix: array2<real>
    const projMatrix: array2<real>
    const lib: MathLib

    /**
     * Both matrices are 4x4 and distinct, and row 3 of the view matrix, which
     * lookAt never writes, keeps the identity's (0, 0, 0, 1).
     */
    predicate Valid()
      reads viewMatrix
    {
      IsMat4(viewMatrix) && IsMat4(projMatrix) && viewMatrix != projMatrix
      && forall c :: 0 <= c < 4 ==> viewMatrix[c, 3] == (if c == 3 then 1.0 else 0.0)
    }

    function Axes(): Basis
      reads this
    {
      Basis(xAxis, yAxis, zAxis)
    }

    function State(): Snapshot
      reads this
    {
      Snapshot(longitudeDegrees, latitudeDegrees, fovx, znear, zfar, eye, target, offset, Axes(), viewDir)
    }

    constructor (lib: MathLib)
      ensures Valid() && this.lib == lib && fresh(viewMatrix) && fresh(projMatrix)
      ensures State() == Snapshot(0.0, 0.0, DefaultFovx, DefaultZnear, DefaultZfar, Zero, Zero, Zero,
                                 Basis(WorldX, WorldY, WorldZ), Vec3(0.0, 0.0, -1.0))
      ensures IsIdentity(viewMatrix) && IsIdentity(projMatrix)
    {
      longitudeDegrees := 0.0;
      latitudeDegrees := 0.0;
      fovx := DefaultFovx;
      znear := DefaultZnear;
      zfar := DefaultZfar;
      eye := Zero;
      target := Zero;
      offset := Zero;
      xAxis := WorldX;
      yAxis := WorldY;
      zAxis := WorldZ;
      viewDir := Vec3(0.0, 0.0, -1.0);
      viewMatrix := new real[4, 4]((c: nat, r: nat) => if c == r then 1.0 else 0.0);
      projMatrix := new real[4, 4]((c: nat, r: nat) => if c == r then 1.0 else 0.0);
      this.lib := lib;
    }

    /** Retargets the camera and changes nothing else. */
    method LookAtTarget(target: Vec3)
      modifies this`target
      ensures this.target == target
    {
      this.target := target;
    }

    /**
     * Places the eye, records the target and the offset eye - target, derives
     * the axes and view direction, and writes rows 0-2 of the view matrix.
     */
    method LookAt(eye: Vec3, target: Vec3, up: Vec3)
      requires Valid()
      modifies this, viewMatrix
      ensures Valid()
      ensures State() == old(State()).(
        eye := eye, target := target, offset := Sub(eye, target),
        axes := LookAtAxes(lib, eye, target, up),
        viewDir := Neg(LookAtAxes(lib, eye, target, up).z))
      ensures ViewLayout(viewMatrix, Axes(), eye)
    {
      this.eye := eye;
      this.target := target;
      offset := Sub(eye, target);
      zAxis := lib.unit(offset);
      viewDir := Neg(zAxis);
      xAxis := lib.unit(Cross(up, zAxis));
      yAxis := lib.unit(Cross(zAxis, xAxis));
      xAxis := lib.unit(xAxis);
      var b := Axes();
      forall c, r | 0 <= c < 4 && 0 <= r < 3 {
        viewMatrix[c, r] := ViewCell(b, eye, c, r);
      }
    }

    /**
     * The same horizontal-field-of-view perspective as the vector camera;
     * fovx and the planes are stored, the aspect is not.
     */
    method Perspective(fovx: real, aspect: real, znear: real, zfar: real)
      requires Valid()
      requires PerspectiveDefined(lib, fovx, aspect) && znear != zfar
      modifies this`fovx, this`znear, this`zfar, projMatrix
      ensures Valid()
      ensures this.fovx == fovx && this.znear == znear && this.zfar == zfar
      ensures ProjLayout(projMatrix, PerspectiveScales(lib, fovx, aspect).0,
                         PerspectiveScales(lib, fovx, aspect).1, znear, zfar)
    {
      var e := 1.0 / lib.tan(Radians(fovx) / 2.0);
      var aspectInv := 1.0 / aspect;
      var fovy := 2.0 * lib.atan(aspectInv / e);
      var xScale := 1.0 / lib.tan(0.5 * fovy);
      InverseNonZero(aspect);
      var yScale := xScale / aspectInv;
      forall c, r | 0 <= c < 4 && 0 <= r < 4 {
        projMatrix[c, r] := ProjCell(xScale, yScale, znear, zfar, c, r);
      }
      this.fovx := fovx;
      this.znear := znear;
      this.zfar := zfar;
    }

    /** Records the angular rates, in degrees per second; nothing turns yet. */
    method Rotate(longitudeDegrees: real, latitudeDegrees: real)
      modifies this`longitudeDegrees, this`latitudeDegrees
      ensures this.longitudeDegrees == longitudeDegrees && this.latitudeDegrees == latitudeDegrees
    {
      this.latitudeDegrees := latitudeDegrees;
      this.longitudeDegrees := longitudeDegrees;
    }

    /**
     * Orbits the eye about the target: the offset is turned by the angles
     * swept in elapsedTimeSec, the eye becomes target + turned offset, and
     * the view is rebuilt with the world y axis as up. The target and the
     * rates stay; the new offset is exactly the turned one.
     */
    method Update(elapsedTimeSec: real)
      requires Valid()
      modifies this, viewMatrix
      ensures Valid()
      ensures var turned := Orbited(lib, old(longitudeDegrees), old(latitudeDegrees), elapsedTimeSec, old(offset));
        State() == old(State()).(
          eye := Add(turned, old(target)), offset := turned,
          axes := LookAtAxes(lib, Add(turned, old(target)), old(target), WorldY),
          viewDir := Neg(LookAtAxes(lib, Add(turned, old(target)), old(target), WorldY).z))
      ensures ViewLayout(viewMatrix, Axes(), eye)
    {
      var latitudeElapsed := latitudeDegrees * elapsedTimeSec;
      var longitudeElapsed := longitudeDegrees * elapsedTimeSec;
      var turned := lib.orbit(longitudeElapsed, latitudeElapsed, offset);
      var newCameraPosition := Add(turned, target);
      AddSubCancel(turned, target);
      LookAt(newCameraPosition, target, WorldY);
    }
  }
}
