/**
 * The state evaluator of the vehicle-dynamics simulator: vehicle constants and
 * the pure map from (speed, steering-wheel angle, longitudinal acceleration) to
 * the derived dynamics record (turn radius, lateral acceleration, yaw rate,
 * slip angle and the four wheel loads).
 *
 * Numbers are exact reals. The trigonometric functions of the host language are
 * not modelled; they are passed in as the fields of a `Trig` value, and a lemma
 * that needs a fact about them (atan(0) == 0) states it as a requirement.
 */
module Vehicle {

  // Vehicle constants (projeto.py:6-15).
  const Mv: real := 1500.0            // total mass, kg
  const L: real := 2.8                // wheelbase, m
  const Lr: real := 1.2               // divisor of the lateral-transfer term, m
  const G: real := 9.81               // gravity, m/s^2
  const A1: real := 1.4               // front axle to centre of gravity, m
  const A2: real := 1.4               // rear axle to centre of gravity, m
  const H: real := 1.0                // centre-of-gravity height, m
  const Ca: real := 60000.0           // cornering stiffness
  const SteeringRatio: real := 20.0   // steering-wheel degrees per road-wheel degree

  /** The value of the host's pi constant, written as an exact decimal. */
  const Pi: real := 3.141592653589793

  /** Road-wheel angles (rad) whose magnitude is below this count as straight ahead. */
  const StraightThreshold: real := 0.000001

  function Abs(x: real): real {
    if x < 0.0 then -x else x
  }

  function Radians(deg: real): real {
    deg * (Pi / 180.0)
  }

  function Degrees(rad: real): real {
    rad * (180.0 / Pi)
  }

  /** Road-wheel angle in radians for a steering-wheel angle in degrees. */
  function RoadWheelAngle(steeringDeg: real): real {
    Radians(steeringDeg / SteeringRatio)
  }

  /**
   * The host's trigonometric functions, not modelled beyond their signatures.
   * The model applies them only through the members below, so that every
   * application is a named function term, which contracts and quantifier
   * triggers can mention, rather than an anonymous arrow application.
   */
  datatype Trig = Trig(tan: real -> real, atan: real -> real, cos: real -> real, sin: real -> real)
  {
    function Tan(x: real): real { tan(x) }
    function Atan(x: real): real { atan(x) }
    function Cos(x: real): real { cos(x) }
    function Sin(x: real): real { sin(x) }
  }

  /** A turn radius: infinite when driving straight. */
  datatype Radius = Inf | Finite(r: real)

  /** The one runtime failure of the core: a floating-point division by zero. */
  datatype Error = ZeroDivision

  datatype Result<T> = Ok(value: T) | Err(error: Error)

  /** The record the evaluator returns, one field per key of the source's dictionary. */
  datatype Dynamics = Dynamics(
    speed: real,
    radius: Radius,
    ay: real,
    ax: real,
    yawRate: real,
    yawRateDeg: real,
    vx: real,
    slipDeg: real,
    wfi: real,
    wfo: real,
    wri: real,
    wro: real)

  /** Front axle load: static share minus longitudinal transfer. */
  function FrontAxleLoad(ax: real): real {
    (Mv * G * A2) / L - (Mv * ax * H) / L
  }

  /** Rear axle load: static share plus longitudinal transfer. */
  function RearAxleLoad(ax: real): real {
    (Mv * G * A1) / L + (Mv * ax * H) / L
  }

  /**
   * Denominator of the single-track yaw-rate formula, written with the static
   * axle masses FrontAxleLoad/G and RearAxleLoad/G.
   */
  function YawDenominator(V: real, ax: real): real {
    L + (((FrontAxleLoad(ax) - RearAxleLoad(ax)) / G) / Ca) * V * V
  }

  /** The road-wheel turn takes the finite branch, and tan of the angle is exactly zero. */
  predicate TanVanishes(trig: Trig, steeringDeg: real) {
    Abs(RoadWheelAngle(steeringDeg)) >= StraightThreshold && trig.Tan(RoadWheelAngle(steeringDeg)) == 0.0
  }

  /** A moving, turning vehicle whose yaw-rate denominator is exactly zero. */
  predicate YawSingular(V: real, steeringDeg: real, ax: real) {
    V != 0.0 && Abs(RoadWheelAngle(steeringDeg)) >= StraightThreshold && YawDenominator(V, ax) == 0.0
  }

  /** A quotient of two non-zero reals is non-zero. */
  lemma QuotientNonzero(a: real, b: real)
    requires a != 0.0 && b != 0.0
    ensures a / b != 0.0
  {
    assert (a / b) * b == a;
  }

  /**
   * The state evaluator (calcular_parametros). A division by zero in the
   * source raises; here it is the result Err(ZeroDivision).
   */
  function Evaluate(trig: Trig, V: real, steeringDeg: real, ax: real): (res: Result<Dynamics>)
    // the only failures are the two divisions by zero
    ensures res.Err? <==> TanVanishes(trig, steeringDeg) || YawSingular(V, steeringDeg, ax)
    ensures res.Ok? ==> res.value.speed == V && res.value.vx == V && res.value.ax == ax
    // straight ahead exactly when the road-wheel angle is below the threshold
    ensures res.Ok? ==> (res.value.radius.Inf? <==> Abs(RoadWheelAngle(steeringDeg)) < StraightThreshold)
  {
    var delta := steeringDeg / SteeringRatio;
    var deltaRad := Radians(delta);
    var wf := FrontAxleLoad(ax);
    var wr := RearAxleLoad(ax);
    var mF := wf / G;
    var mR := wr / G;
    if Abs(deltaRad) >= StraightThreshold && trig.Tan(deltaRad) == 0.0 then
      Err(ZeroDivision)
    else
      var radius := if Abs(deltaRad) < StraightThreshold then Inf else Finite(L / trig.Tan(deltaRad));
      assert radius.Finite? ==> radius.r != 0.0 by {
        if radius.Finite? { QuotientNonzero(L, trig.Tan(deltaRad)); }
      }
      var ay := if radius.Finite? then V * V / radius.r else 0.0;
      var wfi := wf / 2.0 - (mF * ay * H) / Lr;
      var wfo := wf / 2.0 + (mF * ay * H) / Lr;
      var wri := wr / 2.0 - (mR * ay * H) / Lr;
      var wro := wr / 2.0 + (mR * ay * H) / Lr;
      var mf := (wfi + wfo) / G;
      var mr := (wri + wro) / G;
      var denominator := L + ((mf - mr) / Ca) * V * V;
      assert denominator == YawDenominator(V, ax);
      if !(V == 0.0 || radius.Inf?) && denominator == 0.0 then
        Err(ZeroDivision)
      else
        var yawRate := if V == 0.0 || radius.Inf? then 0.0 else V / denominator;
        var yawRateDeg := Degrees(yawRate);
        var vx := V;
        var betaRad := if vx != 0.0 then trig.Atan((yawRate * A2) / vx) else 0.0;
        var betaDeg := Degrees(betaRad);
        Ok(Dynamics(V, radius, ay, ax, yawRate, yawRateDeg, vx, betaDeg, wfi, wfo, wri, wro))
  }

  /** Bicycle-model geometry on the turning branch: R * tan(delta) == L whatever the speed, and ay * R == V^2. */
  lemma TurnGeometry(trig: Trig, V: real, steeringDeg: real, ax: real)
    requires Evaluate(trig, V, steeringDeg, ax).Ok?
    ensures var d := Evaluate(trig, V, steeringDeg, ax).value;
      d.radius.Finite? ==>
        d.radius.r != 0.0 && d.radius.r * trig.Tan(RoadWheelAngle(steeringDeg)) == L && d.ay * d.radius.r == V * V
  {
  }

  /** Straight ahead there is no lateral acceleration and no yaw, and no slip when atan(0) == 0. */
  lemma StraightBranch(trig: Trig, V: real, steeringDeg: real, ax: real)
    requires Evaluate(trig, V, steeringDeg, ax).Ok?
    ensures var d := Evaluate(trig, V, steeringDeg, ax).value;
      d.radius.Inf? ==>
        d.ay == 0.0 && d.yawRate == 0.0 && d.yawRateDeg == 0.0 && (trig.Atan(0.0) == 0.0 ==> d.slipDeg == 0.0)
  {
  }

  /**
   * The yaw rate: zero when standing still (and then no slip and no lateral
   * acceleration either), the steady-state value V / denominator when moving
   * and turning, reported in degrees, and the slip angle it implies.
   */
  lemma YawAndSlip(trig: Trig, V: real, steeringDeg: real, ax: real)
    requires Evaluate(trig, V, steeringDeg, ax).Ok?
    ensures var d := Evaluate(trig, V, steeringDeg, ax).value;
      V == 0.0 ==> d.yawRate == 0.0 && d.yawRateDeg == 0.0 && d.slipDeg == 0.0 && d.ay == 0.0
    ensures var d := Evaluate(trig, V, steeringDeg, ax).value;
      V != 0.0 && d.radius.Finite? ==> d.yawRate * YawDenominator(V, ax) == V
    ensures var d := Evaluate(trig, V, steeringDeg, ax).value;
      d.yawRateDeg == Degrees(d.yawRate)
    ensures var d := Evaluate(trig, V, steeringDeg, ax).value;
      V != 0.0 ==> d.slipDeg == Degrees(trig.Atan(d.yawRate * A2 / V))
  {
  }

  /**
   * Lateral transfer moves load between the two wheels of an axle, never off
   * the axle: each pair sums to its axle load and differs by twice the
   * transfer term.
   */
  lemma LoadTransfer(trig: Trig, V: real, steeringDeg: real, ax: real)
    requires Evaluate(trig, V, steeringDeg, ax).Ok?
    ensures var d := Evaluate(trig, V, steeringDeg, ax).value;
      d.wfi + d.wfo == FrontAxleLoad(ax) && d.wri + d.wro == RearAxleLoad(ax)
    ensures var d := Evaluate(trig, V, steeringDeg, ax).value;
      d.wfo - d.wfi == 2.0 * (FrontAxleLoad(ax) / G) * d.ay * H / Lr &&
      d.wro - d.wri == 2.0 * (RearAxleLoad(ax) / G) * d.ay * H / Lr
  {
  }

  /** The two axle loads always add up to the vehicle's weight: longitudinal transfer cancels. */
  lemma AxleLoadsSumToWeight(ax: real)
    ensures FrontAxleLoad(ax) + RearAxleLoad(ax) == Mv * G
    ensures FrontAxleLoad(ax) / G + RearAxleLoad(ax) / G == Mv
  {
  }

  /**
   * With no lateral acceleration every wheel carries half its axle, and the
   * four wheels together carry the whole weight for any longitudinal acceleration.
   */
  lemma WheelLoadsWithoutLateralTransfer(trig: Trig, V: real, steeringDeg: real, ax: real)
    requires Evaluate(trig, V, steeringDeg, ax).Ok?
    ensures var d := Evaluate(trig, V, steeringDeg, ax).value;
      d.wfi + d.wfo + d.wri + d.wro == Mv * G &&
      (d.ay == 0.0 ==> d.wfi == d.wfo == FrontAxleLoad(ax) / 2.0 && d.wri == d.wro == RearAxleLoad(ax) / 2.0)
  {
    AxleLoadsSumToWeight(ax);
  }

  /**
   * Straight-line invariant: steering angle 0 never fails and gives an
   * infinite radius, no lateral acceleration, no yaw and no slip, at any speed.
   */
  lemma StraightAhead(trig: Trig, V: real, ax: real)
    requires trig.Atan(0.0) == 0.0
    ensures Evaluate(trig, V, 0.0, ax).Ok?
    ensures var d := Evaluate(trig, V, 0.0, ax).value;
      d.radius == Inf && d.ay == 0.0 && d.yawRateDeg == 0.0 && d.slipDeg == 0.0 &&
      d.wfi == d.wfo && d.wri == d.wro
  {
  }

  /**
   * Zero-speed invariant: at V == 0 the radius still comes from geometry
   * (R * tan(delta) == L when the wheels are turned), and yaw and slip are zero.
   */
  lemma StandingStill(trig: Trig, steeringDeg: real, ax: real)
    requires !TanVanishes(trig, steeringDeg)
    ensures Evaluate(trig, 0.0, steeringDeg, ax).Ok?
    ensures var d := Evaluate(trig, 0.0, steeringDeg, ax).value;
      d.yawRateDeg == 0.0 && d.slipDeg == 0.0 && d.ay == 0.0 &&
      (Abs(RoadWheelAngle(steeringDeg)) >= StraightThreshold ==>
        d.radius.Finite? && d.radius.r * trig.Tan(RoadWheelAngle(steeringDeg)) == L)
  {
  }
}
