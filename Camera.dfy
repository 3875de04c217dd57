/**
 * `vis/Camera.go`: an orbiting camera given by four numbers, the radius of
 * its orbit, a polar angle and an azimuth on that orbit, and the distance from
 * the eye to the projection screen. `Camera` holds the four fields that the
 * rotation and zoom methods update; the projections read them. `math.Sin` and
 * `math.Cos` are the parameters `sin` and `cos`.
 */
module VisCamera {
  import opened Wrappers
  import opened RealMath
  import opened GeomVertex
  import opened GeomVector

  /** `CameraConfig`: the values a camera is created from. */
  datatype CameraConfig = CameraConfig(Radius: real, PolarAngle: real, Azimuth: real, DistanceToScreen: real)

  /** The three reasons `NewCamera` refuses a configuration, carrying the values it reports. */
  datatype CameraError =
    | NonPositiveRadius(radius: real)
    | NegativeDistanceToScreen(distance: real)
    | DistanceExceedsRadius(distance: real, radius: real)

  /** `DefaultCameraConfig`: radius 1000, both angles a quarter of pi, screen at 500. */
  function DefaultCameraConfig(): (c: CameraConfig)
    ensures c.Radius == 1000.0 && c.DistanceToScreen == 500.0
    ensures c.PolarAngle == PI / 4.0 && c.Azimuth == PI / 4.0
  {
    CameraConfig(1000.0, PI / 4.0, PI / 4.0, 500.0)
  }

  /**
   * The checks of `NewCamera`, in its order: the radius must be positive, then
   * the screen distance non-negative, then no larger than the radius. The
   * angles are not checked.
   */
  function CheckCameraConfig(config: CameraConfig): (r: Outcome<CameraError>)
    ensures r.Pass? <==> 0.0 < config.Radius && 0.0 <= config.DistanceToScreen <= config.Radius
    ensures r == Fail(NonPositiveRadius(config.Radius)) <==> config.Radius <= 0.0
    ensures r == Fail(NegativeDistanceToScreen(config.DistanceToScreen)) <==>
      0.0 < config.Radius && config.DistanceToScreen < 0.0
    ensures r == Fail(DistanceExceedsRadius(config.DistanceToScreen, config.Radius)) <==>
      0.0 < config.Radius && 0.0 <= config.DistanceToScreen && config.Radius < config.DistanceToScreen
  {
    if config.Radius <= 0.0 then Fail(NonPositiveRadius(config.Radius))
    else if config.DistanceToScreen < 0.0 then Fail(NegativeDistanceToScreen(config.DistanceToScreen))
    else if config.DistanceToScreen > config.Radius then
      Fail(DistanceExceedsRadius(config.DistanceToScreen, config.Radius))
    else Pass
  }

  /** The default configuration passes every check, so `NewCameraWithDefaults` never yields nil. */
  lemma DefaultConfigAccepted()
    ensures CheckCameraConfig(DefaultCameraConfig()) == Pass
  {
  }

  /**
   * The polar angle `RotatePolar` stores for the sum `p`: Go's `math.Mod(p, 2π)`,
   * moved up by 2π when negative. It lies in [0, 2π) and differs from `p` by a
   * whole number of turns.
   */
  function WrapPolar(p: real): (r: real)
    ensures 0.0 <= r < TWO_PI
    ensures IsMultipleOf(p - r, TWO_PI)
  {
    var m := Mod(p, TWO_PI);
    if m < 0.0 then
      TurnBack(p - m);
      m + TWO_PI
    else m
  }

  /** One more turn keeps a whole number of turns. */
  lemma TurnBack(x: real)
    requires IsMultipleOf(x, TWO_PI)
    ensures IsMultipleOf(x - TWO_PI, TWO_PI)
  {
    var k := x / TWO_PI;
    assert (x - TWO_PI) / TWO_PI == k - 1.0;
    assert (k - 1.0).Floor == k.Floor - 1;
  }

  /** An angle already in [0, 2π) is left as it is. */
  lemma WrapPolarInRange(p: real)
    requires 0.0 <= p < TWO_PI
    ensures WrapPolar(p) == p
  {
    var q := p / TWO_PI;
    ScaleBounds(p, TWO_PI, 0.0, q);
    assert q < 1.0 by {
      if 1.0 <= q {
        ScaleBounds(p, TWO_PI, 1.0, q);
      }
    }
    assert Trunc(q) == 0;
  }

  /** The azimuth `RotateAzimuth` stores for the sum `a`: `a` clamped to [0, π]. */
  function ClampAzimuth(a: real): (r: real)
    ensures 0.0 <= r <= PI
    ensures a < 0.0 ==> r == 0.0
    ensures PI < a ==> r == PI
    ensures 0.0 <= a <= PI ==> r == a
  {
    Max(0.0, Min(PI, a))
  }

  /**
   * The screen distance `ScaleLinear` stores for the sum `d`: zero below zero,
   * the radius above the radius, `d` itself in between.
   */
  function ClampDistance(d: real, radius: real): (r: real)
    ensures d < 0.0 ==> r == 0.0
    ensures 0.0 <= d && radius < d ==> r == radius
    ensures 0.0 <= d <= radius ==> r == d
    ensures 0.0 <= radius ==> 0.0 <= r <= radius
  {
    if d < 0.0 then 0.0
    else if d > radius then radius
    else d
  }

  /** `minZDistance`: below this view depth the projection does not divide. */
  const MIN_Z_DISTANCE: real := 0.000001

  /** The unit direction from the world origin to a camera at the given angles. */
  function Direction(polar: real, azimuth: real, sin: real -> real, cos: real -> real): Vector {
    NewVector(sin(azimuth) * cos(polar), sin(azimuth) * sin(polar), cos(azimuth))
  }

  /** `camera`: the four fields `NewCamera` stores and the methods update. */
  class Camera {
    var radius: real
    var polarAngle: real
    var azimuth: real
    var distanceToScreen: real

    /** What `NewCamera` establishes and every method keeps: a positive radius and the screen inside the orbit. */
    predicate Valid()
      reads this
    {
      0.0 < radius && 0.0 <= distanceToScreen <= radius
    }

    /** The `&camera{...}` literal: stores the four configuration values as given. */
    constructor (config: CameraConfig)
      ensures radius == config.Radius && polarAngle == config.PolarAngle
      ensures azimuth == config.Azimuth && distanceToScreen == config.DistanceToScreen
    {
      radius := config.Radius;
      polarAngle := config.PolarAngle;
      azimuth := config.Azimuth;
      distanceToScreen := config.DistanceToScreen;
    }

    /** `RotatePolar`: adds `angle` and wraps the result into [0, 2π); nothing else changes. */
    method RotatePolar(angle: real)
      modifies this
      ensures polarAngle == WrapPolar(old(polarAngle) + angle)
      ensures radius == old(radius) && azimuth == old(azimuth) && distanceToScreen == old(distanceToScreen)
      ensures old(Valid()) ==> Valid()
    {
      polarAngle := polarAngle + angle;
      polarAngle := Mod(polarAngle, TWO_PI);
      if polarAngle < 0.0 {
        polarAngle := polarAngle + TWO_PI;
      }
    }

    /** `RotateAzimuth`: adds `angle` and clamps the result to [0, π]; nothing else changes. */
    method RotateAzimuth(angle: real)
      modifies this
      ensures azimuth == ClampAzimuth(old(azimuth) + angle)
      ensures radius == old(radius) && polarAngle == old(polarAngle) && distanceToScreen == old(distanceToScreen)
      ensures old(Valid()) ==> Valid()
    {
      azimuth := azimuth + angle;
      azimuth := Max(0.0, Min(PI, azimuth));
    }

    /** `ScaleLinear`: moves the screen by `distance`, stopping at 0 and at the radius; nothing else changes. */
    method ScaleLinear(distance: real)
      modifies this
      ensures distanceToScreen == ClampDistance(old(distanceToScreen) + distance, radius)
      ensures radius == old(radius) && polarAngle == old(polarAngle) && azimuth == old(azimuth)
      ensures old(Valid()) ==> Valid()
    {
      var newDistance := distanceToScreen + distance;
      if newDistance < 0.0 {
        distanceToScreen := 0.0;
        return;
      }
      if newDistance > radius {
        distanceToScreen := radius;
        return;
      }
      distanceToScreen := newDistance;
    }

    function GetRadius(): real
      reads this
    {
      radius
    }

    function GetPolarAngle(): real
      reads this
    {
      polarAngle
    }

    function GetAzimuth(): real
      reads this
    {
      azimuth
    }

    function GetDistanceToScreen(): real
      reads this
    {
      distanceToScreen
    }

    /** The configuration the current fields would be created from. */
    function Config(): CameraConfig
      reads this
    {
      CameraConfig(GetRadius(), GetPolarAngle(), GetAzimuth(), GetDistanceToScreen())
    }

    /**
     * `fromWorldToView`: the world point in the camera's frame. The view depth
     * is the radius less the point's extent along the camera's direction, so
     * the world origin is at depth `radius` on the view axis.
     */
    function FromWorldToView(v: Vertex, sin: real -> real, cos: real -> real): (r: Vertex)
      reads this
      ensures r.Z() == radius - NewVectorFromVertex(v).Dot(Direction(polarAngle, azimuth, sin, cos))
      ensures v == NewVertex(0.0, 0.0, 0.0) ==> r == NewVertex(0.0, 0.0, radius)
    {
      var sp, cp, sa, ca := sin(polarAngle), cos(polarAngle), sin(azimuth), cos(azimuth);
      var x := -v.X() * sp + v.Y() * cp;
      var y := -v.X() * ca * cp - v.Y() * ca * sp + v.Z() * sa;
      var z := -v.X() * sa * cp - v.Y() * sa * sp - v.Z() * ca + radius;
      NewVertex(x, y, z)
    }

    /**
     * `fromViewToScreen`: a point closer to the eye plane than `MIN_Z_DISTANCE`
     * keeps its view x and y; any other point is projected onto the screen so
     * that its offset times its depth is the screen distance times its view
     * coordinate. The offset is then taken from the screen centre, with y
     * pointing down.
     */
    function FromViewToScreen(v: Vertex, screenWidth: int, screenHeight: int): (r: Vector2d)
      reads this
      ensures Abs(v.Z()) < MIN_Z_DISTANCE ==>
        r.X() - screenWidth as real / 2.0 == v.X() && screenHeight as real / 2.0 - r.Y() == v.Y()
      ensures MIN_Z_DISTANCE <= Abs(v.Z()) ==>
        (r.X() - screenWidth as real / 2.0) * v.Z() == distanceToScreen * v.X() &&
        (screenHeight as real / 2.0 - r.Y()) * v.Z() == distanceToScreen * v.Y()
    {
      var z := v.Z();
      var x, y :=
        if Abs(z) < MIN_Z_DISTANCE then v.X() else distanceToScreen * v.X() / z,
        if Abs(z) < MIN_Z_DISTANCE then v.Y() else distanceToScreen * v.Y() / z;
      NewVector2d(x + screenWidth as real / 2.0, screenHeight as real / 2.0 - y)
    }

    /** `Transform`: the world point's position on the screen. */
    function Transform(v: Vertex, screenWidth: int, screenHeight: int, sin: real -> real, cos: real -> real): Vertex2d
      reads this
    {
      var screen := FromViewToScreen(FromWorldToView(v, sin, cos), screenWidth, screenHeight);
      NewVertex2d(screen.X(), screen.Y())
    }
  }

  /**
   * `NewCamera`: nil and the first failed check's error for a bad configuration;
   * otherwise a new valid camera holding the four values.
   */
  method NewCamera(config: CameraConfig) returns (cam: Camera?, err: Option<CameraError>)
    ensures CheckCameraConfig(config).Fail? ==> cam == null && err == Some(CheckCameraConfig(config).error)
    ensures CheckCameraConfig(config).Pass? ==>
      err == None && cam != null && fresh(cam) && cam.Config() == config && cam.Valid()
  {
    if config.Radius <= 0.0 {
      return null, Some(NonPositiveRadius(config.Radius));
    }
    if config.DistanceToScreen < 0.0 {
      return null, Some(NegativeDistanceToScreen(config.DistanceToScreen));
    }
    if config.DistanceToScreen > config.Radius {
      return null, Some(DistanceExceedsRadius(config.DistanceToScreen, config.Radius));
    }
    cam := new Camera(config);
    err := None;
  }

  /** `NewCameraWithDefaults`: a camera on the default configuration, never nil. */
  method NewCameraWithDefaults() returns (cam: Camera?)
    ensures cam != null && fresh(cam) && cam.Config() == DefaultCameraConfig() && cam.Valid()
  {
    DefaultConfigAccepted();
    var err;
    cam, err := NewCamera(DefaultCameraConfig());
  }

  /** `Transform` sends the world origin to the centre of the screen, whatever the camera's state. */
  lemma TransformOrigin(cam: Camera, screenWidth: int, screenHeight: int, sin: real -> real, cos: real -> real)
    ensures cam.Transform(NewVertex(0.0, 0.0, 0.0), screenWidth, screenHeight, sin, cos) ==
      NewVertex2d(screenWidth as real / 2.0, screenHeight as real / 2.0)
  {
    var view := cam.FromWorldToView(NewVertex(0.0, 0.0, 0.0), sin, cos);
    assert view.X() == 0.0 && view.Y() == 0.0;
    var screen := cam.FromViewToScreen(view, screenWidth, screenHeight);
    assert screen.X() == screenWidth as real / 2.0;
    assert screen.Y() == screenHeight as real / 2.0;
  }

  /**
   * Once the sine and cosine of both angles satisfy sin² + cos² = 1, the camera's
   * own position, `radius` along its direction, is the origin of its view frame.
   */
  lemma CameraAtViewOrigin(cam: Camera, sin: real -> real, cos: real -> real)
    requires sin(cam.polarAngle) * sin(cam.polarAngle) + cos(cam.polarAngle) * cos(cam.polarAngle) == 1.0
    requires sin(cam.azimuth) * sin(cam.azimuth) + cos(cam.azimuth) * cos(cam.azimuth) == 1.0
    ensures var p := CameraPosition(cam, sin, cos);
      cam.FromWorldToView(NewVertex(p.X(), p.Y(), p.Z()), sin, cos) == NewVertex(0.0, 0.0, 0.0)
  {
    var sp, cp, sa, ca := sin(cam.polarAngle), cos(cam.polarAngle), sin(cam.azimuth), cos(cam.azimuth);
    RotationOfCameraPoint(cam.radius, sp, cp, sa, ca);
  }

  /** The rotation of `cameraPosition`'s coordinates, written out on the sines and cosines. */
  lemma RotationOfCameraPoint(r: real, sp: real, cp: real, sa: real, ca: real)
    requires sp * sp + cp * cp == 1.0 && sa * sa + ca * ca == 1.0
    ensures var x, y, z := r * sa * cp, r * sa * sp, r * ca;
      -x * sp + y * cp == 0.0 &&
      -x * ca * cp - y * ca * sp + z * sa == 0.0 &&
      -x * sa * cp - y * sa * sp - z * ca + r == 0.0
  {
    var x, y, z := r * sa * cp, r * sa * sp, r * ca;
    assert -x * ca * cp - y * ca * sp + z * sa == r * ca * sa * (1.0 - (cp * cp + sp * sp));
    assert -x * sa * cp - y * sa * sp - z * ca + r == r * (1.0 - sa * sa * (cp * cp + sp * sp) - ca * ca);
  }

  /** `cameraPosition` of the renderer: the vector `radius` along the camera's direction. */
  function CameraPosition(cam: Camera, sin: real -> real, cos: real -> real): (p: Vector)
    reads cam
    ensures p == Direction(cam.polarAngle, cam.azimuth, sin, cos).Scaled(cam.GetRadius())
  {
    var radius, polar, azimuth := cam.GetRadius(), cam.GetPolarAngle(), cam.GetAzimuth();
    var sinAzimuth, cosAzimuth, sinPolar, cosPolar := sin(azimuth), cos(azimuth), sin(polar), cos(polar);
    NewVector(radius * sinAzimuth * cosPolar, radius * sinAzimuth * sinPolar, radius * cosAzimuth)
  }
}
