/**
 * Small 3D vector algebra shared by both cameras, the library operations the
 * cameras call but whose internals are not modelled (normalisation's inverse
 * square root, tan/atan/asin, axis-angle rotation, glm::lookAt, the
 * quaternion triple product), and the cell-by-cell layout of the view and
 * projection matrices.  Every scalar is a `real`.
 */
module Geometry {

  datatype Vec3 = Vec3(x: real, y: real, z: real)

  /** The camera's local frame: right (x), up (y) and back (z) axes. */
  datatype Basis = Basis(x: Vec3, y: Vec3, z: Vec3)

  const Zero := Vec3(0.0, 0.0, 0.0)
  const WorldX := Vec3(1.0, 0.0, 0.0)
  const WorldY := Vec3(0.0, 1.0, 0.0)
  const WorldZ := Vec3(0.0, 0.0, 1.0)

  /** glm::pi<float>() written out as a decimal. */
  const Pi: real := 3.14159265358979323846

  function Add(a: Vec3, b: Vec3): Vec3 { Vec3(a.x + b.x, a.y + b.y, a.z + b.z) }

  function Sub(a: Vec3, b: Vec3): Vec3 { Vec3(a.x - b.x, a.y - b.y, a.z - b.z) }

  function Neg(a: Vec3): Vec3 { Vec3(-a.x, -a.y, -a.z) }

  function Scale(a: Vec3, k: real): Vec3 { Vec3(a.x * k, a.y * k, a.z * k) }

  function Dot(a: Vec3, b: Vec3): real { a.x * b.x + a.y * b.y + a.z * b.z }

  function Cross(a: Vec3, b: Vec3): Vec3 {
    Vec3(a.y * b.z - a.z * b.y, a.z * b.x - a.x * b.z, a.x * b.y - a.y * b.x)
  }

  /** Component i (0, 1 or 2) of a vector. */
  function Component(v: Vec3, i: int): real {
    if i == 0 then v.x else if i == 1 then v.y else v.z
  }

  /** Axis i (0, 1 or 2) of a basis. */
  function AxisOf(b: Basis, i: int): Vec3 {
    if i == 0 then b.x else if i == 1 then b.y else b.z
  }

  function Abs(x: real): real { if x < 0.0 then -x else x }

  function Min(a: real, b: real): real { if a <= b then a else b }

  function Max(a: real, b: real): real { if a >= b then a else b }

  /**
   * x forced into [lo, hi] by two tests in the order the sources write them:
   * above hi gives hi, and below lo gives lo, the second test winning.
   */
  function Clamp(x: real, lo: real, hi: real): (r: real)
    ensures lo <= hi ==> lo <= r <= hi
    ensures lo <= x <= hi ==> r == x
    ensures x < lo ==> r == lo
  {
    if x < lo then lo else if x > hi then hi else x
  }

  function Radians(degrees: real): real { degrees * Pi / 180.0 }

  function Degrees(radians: real): real { radians * 180.0 / Pi }

  /**
   * The library operations the cameras use, as uninterpreted total functions.
   *  - invSqrt(s): 1/sqrt(s), the factor glm::normalize and Vector3::normalize scale by;
   *  - tan, atan, asin: the C math functions on radians;
   *  - rotate(angle, axis, v): glm::vec4(v, 1) * glm::rotate(identity, angle, axis), angle in radians;
   *  - lookAtCell(eye, centre, up, c, r): cell [c][r] of glm::lookAt(eye, centre, up);
   *  - orbit(longitude, latitude, v): the vector part of q* (0, v) q for q = Quaternion(longitude, latitude, 0);
   *  - unit(v): Vector3::normalize of the quaternion library, whose definition is not part of this model.
   */
  datatype MathLib = MathLib(
    invSqrt: real -> real,
    tan: real -> real,
    atan: real -> real,
    asin: real -> real,
    rotate: (real, Vec3, Vec3) -> Vec3,
    lookAtCell: (Vec3, Vec3, Vec3, int, int) -> real,
    orbit: (real, real, Vec3) -> Vec3,
    unit: Vec3 -> Vec3)

  /** glm::normalize: v scaled by the inverse of its length. */
  function Normalize(lib: MathLib, v: Vec3): Vec3 {
    Scale(v, lib.invSqrt(Dot(v, v)))
  }

  lemma CrossOrthogonal(a: Vec3, b: Vec3)
    ensures Dot(Cross(a, b), a) == 0.0
    ensures Dot(Cross(a, b), b) == 0.0
  {
  }

  lemma DotScaleLeft(a: Vec3, k: real, b: Vec3)
    ensures Dot(Scale(a, k), b) == k * Dot(a, b)
  {
  }

  /** Scaling, and so normalising, keeps a vector orthogonal to whatever it was orthogonal to. */
  lemma NormalizeKeepsOrthogonal(lib: MathLib, a: Vec3, b: Vec3)
    requires Dot(a, b) == 0.0
    ensures Dot(Normalize(lib, a), b) == 0.0
  {
    DotScaleLeft(a, lib.invSqrt(Dot(a, a)), b);
  }

  // ---------------------------------------------------------------------------
  // View matrix layout (glm column-major: m[c][r] is column c, row r).
  // ---------------------------------------------------------------------------

  /**
   * Cell [c][r] of the view matrix built from a basis and an eye position:
   * rows 0-2 hold the x, y and z axes, the translation column holds
   * -dot(axis, eye), and row 3 is (0, 0, 0, 1).
   */
  function ViewCell(b: Basis, eye: Vec3, c: int, r: int): real
    requires 0 <= c < 4 && 0 <= r < 4
  {
    if r == 3 then (if c == 3 then 1.0 else 0.0)
    else if c == 3 then -Dot(AxisOf(b, r), eye)
    else Component(AxisOf(b, r), c)
  }

  predicate IsMat4(m: array2<real>) { m.Length0 == 4 && m.Length1 == 4 }

  /** glm::mat4(1) and Matrix4::identity(). */
  predicate IsIdentity(m: array2<real>)
    requires IsMat4(m)
    reads m
  {
    forall c, r :: 0 <= c < 4 && 0 <= r < 4 ==> m[c, r] == (if c == r then 1.0 else 0.0)
  }

  /** Every cell of `m` is the view-matrix cell for the basis and eye. */
  predicate ViewLayout(m: array2<real>, b: Basis, eye: Vec3)
    requires IsMat4(m)
    reads m
  {
    forall c, r :: 0 <= c < 4 && 0 <= r < 4 ==> m[c, r] == ViewCell(b, eye, c, r)
  }

  /** Row r of the view matrix applied to the homogeneous point (p, 1). */
  function ViewTransform(b: Basis, eye: Vec3, p: Vec3, r: int): real
    requires 0 <= r < 4
  {
    ViewCell(b, eye, 0, r) * p.x + ViewCell(b, eye, 1, r) * p.y
      + ViewCell(b, eye, 2, r) * p.z + ViewCell(b, eye, 3, r)
  }

  /**
   * The view matrix expresses a point in camera coordinates: row r (< 3) of
   * the transformed point is its offset from the eye measured along axis r,
   * and the homogeneous coordinate stays 1.  In particular the eye maps to
   * the origin.
   */
  lemma ViewTransformIsCameraCoordinates(b: Basis, eye: Vec3, p: Vec3, r: int)
    requires 0 <= r < 4
    ensures r < 3 ==> ViewTransform(b, eye, p, r) == Dot(AxisOf(b, r), Sub(p, eye))
    ensures r == 3 ==> ViewTransform(b, eye, p, r) == 1.0
    ensures r < 3 ==> ViewTransform(b, eye, eye, r) == 0.0
  {
    var a := AxisOf(b, r);
    if r < 3 {
      assert ViewTransform(b, eye, p, r) == a.x * p.x + a.y * p.y + a.z * p.z - Dot(a, eye);
      assert Dot(a, Sub(p, eye)) == a.x * p.x + a.y * p.y + a.z * p.z - Dot(a, eye);
    }
  }

  /** Every cell of `m` is the corresponding cell of glm::lookAt(eye, centre, up). */
  predicate LookAtLayout(m: array2<real>, lib: MathLib, eye: Vec3, centre: Vec3, up: Vec3)
    requires IsMat4(m)
    reads m
  {
    forall c, r :: 0 <= c < 4 && 0 <= r < 4 ==> m[c, r] == lib.lookAtCell(eye, centre, up, c, r)
  }

  // ---------------------------------------------------------------------------
  // Projection matrix layout.
  // ---------------------------------------------------------------------------

  /**
   * Cell [c][r] of the perspective matrix with scales xScale, yScale and
   * planes znear, zfar; the caller guarantees znear != zfar.
   */
  function ProjCell(xScale: real, yScale: real, znear: real, zfar: real, c: int, r: int): real
    requires 0 <= c < 4 && 0 <= r < 4
    requires znear != zfar
  {
    if c == 0 && r == 0 then xScale
    else if c == 1 && r == 1 then yScale
    else if c == 2 && r == 2 then (zfar + znear) / (znear - zfar)
    else if c == 2 && r == 3 then -1.0
    else if c == 3 && r == 2 then (2.0 * zfar * znear) / (znear - zfar)
    else 0.0
  }

  /**
   * The divisions of the horizontal-field-of-view perspective are defined:
   * a nonzero aspect ratio, and nonzero tangents of half of fovx and of half
   * of the derived fovy.
   */
  predicate PerspectiveDefined(lib: MathLib, fovx: real, aspect: real) {
    aspect != 0.0 && lib.tan(Radians(fovx) / 2.0) != 0.0
    && lib.tan(0.5 * FovY(lib, fovx, aspect)) != 0.0
  }

  /** fovy = 2 atan(aspectInv / e) with e = 1 / tan(fovx / 2) and aspectInv = 1 / aspect. */
  function FovY(lib: MathLib, fovx: real, aspect: real): real
    requires aspect != 0.0 && lib.tan(Radians(fovx) / 2.0) != 0.0
  {
    var t := lib.tan(Radians(fovx) / 2.0);
    InverseNonZero(t);
    var e := 1.0 / t;
    var aspectInv := 1.0 / aspect;
    2.0 * lib.atan(aspectInv / e)
  }

  lemma InverseNonZero(t: real)
    requires t != 0.0
    ensures 1.0 / t != 0.0
  {
    assert (1.0 / t) * t == 1.0;
  }

  /** The (xScale, yScale) pair the perspective writes into cells [0][0] and [1][1]. */
  function PerspectiveScales(lib: MathLib, fovx: real, aspect: real): (real, real)
    requires PerspectiveDefined(lib, fovx, aspect)
  {
    var xScale := 1.0 / lib.tan(0.5 * FovY(lib, fovx, aspect));
    var aspectInv := 1.0 / aspect;
    InverseNonZero(aspect);
    (xScale, xScale / aspectInv)
  }

  /**
   * Wherever tan undoes atan on the ratio the perspective feeds it,
   * xScale is aspect / tan(fovx / 2) and yScale is aspect^2 / tan(fovx / 2):
   * both scales carry the aspect ratio, and yScale / xScale is the aspect.
   */
  lemma PerspectiveScalesCarryAspect(lib: MathLib, fovx: real, aspect: real)
    requires PerspectiveDefined(lib, fovx, aspect)
    requires var t := lib.tan(Radians(fovx) / 2.0);
      t != 0.0 && lib.tan(lib.atan((1.0 / aspect) / (1.0 / t))) == (1.0 / aspect) / (1.0 / t)
    ensures var t := lib.tan(Radians(fovx) / 2.0);
      PerspectiveScales(lib, fovx, aspect) == (aspect / t, aspect * aspect / t)
  {
    var t := lib.tan(Radians(fovx) / 2.0);
    InverseNonZero(t);
    var u := (1.0 / aspect) / (1.0 / t);
    var a := lib.atan(u);
    assert 0.5 * (2.0 * a) == a;
    assert FovY(lib, fovx, aspect) == 2.0 * a;
    assert lib.tan(0.5 * FovY(lib, fovx, aspect)) == u;
    assert u == t / aspect;
    assert 1.0 / u == aspect / t;
    var xScale := 1.0 / u;
    assert xScale / (1.0 / aspect) == xScale * aspect;
    assert (aspect / t) * aspect == aspect * aspect / t;
    assert PerspectiveScales(lib, fovx, aspect) == (xScale, xScale / (1.0 / aspect));
    assert xScale / (1.0 / aspect) == aspect * aspect / t;
    assert PerspectiveScales(lib, fovx, aspect) == (aspect / t, aspect * aspect / t);
  }

  predicate ProjLayout(m: array2<real>, xScale: real, yScale: real, znear: real, zfar: real)
    requires IsMat4(m) && znear != zfar
    reads m
  {
    forall c, r :: 0 <= c < 4 && 0 <= r < 4 ==> m[c, r] == ProjCell(xScale, yScale, znear, zfar, c, r)
  }

  /**
   * Normalised device depth of the camera-space depth z (the clip z divided
   * by the clip w) under the projection cells above.
   */
  function NdcDepth(znear: real, zfar: real, z: real): real
    requires znear != zfar && z != 0.0
  {
    (ProjCell(1.0, 1.0, znear, zfar, 2, 2) * z + ProjCell(1.0, 1.0, znear, zfar, 3, 2))
      / (ProjCell(1.0, 1.0, znear, zfar, 2, 3) * z)
  }

  /** The near plane (z = -znear) maps to depth -1 and the far plane (z = -zfar) to +1. */
  lemma ProjectionMapsClipPlanes(znear: real, zfar: real)
    requires znear != zfar && znear != 0.0 && zfar != 0.0
    ensures NdcDepth(znear, zfar, -znear) == -1.0
    ensures NdcDepth(znear, zfar, -zfar) == 1.0
  {
    var d := znear - zfar;
    var a := (zfar + znear) / d;
    var t := (2.0 * zfar * znear) / d;
    assert ProjCell(1.0, 1.0, znear, zfar, 2, 2) == a;
    assert ProjCell(1.0, 1.0, znear, zfar, 3, 2) == t;
    assert ProjCell(1.0, 1.0, znear, zfar, 2, 3) == -1.0;
    assert a * d == zfar + znear;
    assert t * d == 2.0 * zfar * znear;
    assert (a * -znear + t) * d == -znear * d;
    assert a * -znear + t == -znear;
    assert (a * -zfar + t) * d == zfar * d;
    assert a * -zfar + t == zfar;
    assert -1.0 * -znear == znear;
    assert -1.0 * -zfar == zfar;
    assert NdcDepth(znear, zfar, -znear) == (-znear) / znear;
    assert NdcDepth(znear, zfar, -zfar) == zfar / zfar;
    assert znear / znear == 1.0;
    assert (-znear) / znear == -1.0;
  }

  // ---------------------------------------------------------------------------
  // Real arithmetic used by the averaging proofs.
  // ---------------------------------------------------------------------------

  lemma MulNonNegative(a: real, b: real)
    requires a >= 0.0 && b >= 0.0
    ensures a * b >= 0.0
  {
  }

  lemma MulMonotone(a: real, b: real, p: real)
    requires a <= b && p >= 0.0
    ensures a * p <= b * p
  {
    assert b * p - a * p == (b - a) * p;
    MulNonNegative(b - a, p);
  }

  lemma NonNegativeFactor(a: real, t: real)
    requires t > 0.0 && a * t >= 0.0
    ensures a >= 0.0
  {
  }

  /** Dividing c * t by a nonzero t gives back c. */
  lemma DivideOut(s: real, t: real, c: real)
    requires t != 0.0 && s == c * t
    ensures s / t == c
  {
  }

  lemma DivisionBounds(s: real, t: real, lo: real, hi: real)
    requires t > 0.0 && lo * t <= s <= hi * t
    ensures lo <= s / t <= hi
  {
    var q := s / t;
    assert q * t == s;
    assert (q - lo) * t == s - lo * t;
    NonNegativeFactor(q - lo, t);
    assert (hi - q) * t == hi * t - s;
    NonNegativeFactor(hi - q, t);
  }
}
