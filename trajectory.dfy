/**
 * The trajectory integrator: three fixed-step forward-Euler runs of the
 * vehicle, each calling the state evaluator once per step and appending one
 * entry to each of thirteen output lists, and the selector that picks a run.
 *
 * A: straight line, accelerating to 60 km/h, 100 steps.
 * B: steering wheel locked at -100 degrees, accelerating until 60 km/h.
 * C: constant 20 km/h while the steering wheel sweeps 0, -150, 0, 150, 0.
 */
module Trajectory {
  import opened Vehicle
  import opened SteeringProfile

  // Integrator constants (projeto.py:74-76, 82-83, 189, 293).
  const Ax: real := 2.0                 // longitudinal acceleration of A and B, m/s^2
  const VMax: real := 60.0 / 3.6        // speed cap of A and B, m/s
  const StraightSteps: nat := 100       // length of A's steering profile
  const VyConst: real := 0.0            // lateral speed A uses to move y
  const LockSteering: real := -100.0    // B's steering-wheel lock, degrees
  const VConst: real := 20.0 / 3.6      // C's constant speed, m/s

  /** Number of steps B takes: the least k with k * Ax * Dt >= VMax. */
  const LockSteps: nat := 84

  /**
   * One entry of the thirteen output lists the source fills per step, in the
   * order it fills them: entry i of every list is the field of sample i.
   */
  datatype Sample = Sample(
    t: real,
    x: real,
    y: real,
    vx: real,
    vy: real,
    ax: real,
    ay: real,
    yaw: real,
    slip: real,
    wfi: real,
    wfo: real,
    wri: real,
    wro: real)

  /** The output lists of one run, as one list of samples. */
  type Trace = seq<Sample>

  /** One step's appends: time, position, the loop's vy, and the evaluator's record. */
  function Record(t: real, x: real, y: real, vy: real, d: Dynamics): Sample {
    Sample(t, x, y, d.vx, vy, d.ax, d.ay, d.yawRateDeg, d.slipDeg, d.wfi, d.wfo, d.wri, d.wro)
  }

  /** The record-derived fields of a sample show the evaluator's record d. */
  predicate Shows(s: Sample, d: Dynamics) {
    s.vx == d.vx && s.ax == d.ax && s.ay == d.ay && s.yaw == d.yawRateDeg && s.slip == d.slipDeg &&
    s.wfi == d.wfi && s.wfo == d.wfo && s.wri == d.wri && s.wro == d.wro
  }

  /** The sample comes from a successful evaluator call on (V, steering, ax). */
  predicate FromEvaluator(s: Sample, trig: Trig, V: real, steering: real, ax: real) {
    Evaluate(trig, V, steering, ax).Ok? && Shows(s, Evaluate(trig, V, steering, ax).value)
  }

  /** Every state variable starts at 0. */
  const Origin: Sample := Sample(0.0, 0.0, 0.0, 0.0, 0.0, 0.0, 0.0, 0.0, 0.0, 0.0, 0.0, 0.0, 0.0)

  /** The sample before entry i: the one appended last, or the all-zero start before the first. */
  function Previous(tr: Trace, i: nat): Sample
    requires i <= |tr|
  {
    if i == 0 then Origin else tr[i - 1]
  }

  /** What the selector produces: a run, a run aborted by a division by zero, or nothing. */
  datatype Outcome = Simulated(trace: Trace) | Failed(error: Error) | NothingSimulated


  /** Speed after k capped acceleration steps from rest, in exact arithmetic. */
  function SpeedAfter(k: nat): real {
    var v := k as real * (Ax * Dt);
    if v < VMax then v else VMax
  }

  /** The integrator's own radius computation divides only by a non-zero tangent. */
  predicate LoopTanOk(trig: Trig, steering: real) {
    Abs(RoadWheelAngle(steering)) > StraightThreshold ==> trig.Tan(RoadWheelAngle(steering)) != 0.0
  }

  /**
   * The integrator's radius: finite only when the road-wheel angle is strictly
   * above the threshold (the evaluator's test is the complement of `<`).
   */
  function LoopRadius(trig: Trig, steering: real): (R: Radius)
    requires LoopTanOk(trig, steering)
    ensures R.Inf? <==> Abs(RoadWheelAngle(steering)) <= StraightThreshold
    ensures R.Finite? ==> R.r != 0.0 && R.r * trig.Tan(RoadWheelAngle(steering)) == L
  {
    var deltaRad := RoadWheelAngle(steering);
    if Abs(deltaRad) > StraightThreshold then
      QuotientNonzero(L, trig.Tan(deltaRad));
      Finite(L / trig.Tan(deltaRad))
    else Inf
  }

  /** Heading rate v / R, zero on a straight line. */
  function Omega(v: real, R: Radius): real
    requires R.Finite? ==> R.r != 0.0
  {
    match R
    case Inf => 0.0
    case Finite(r) => v / r
  }

  /** One forward-Euler update with step Dt: the value plus its rate of change times the step. */
  function Euler(value: real, rate: real): real {
    value + rate * Dt
  }

  /** Entry i of s is one forward-Euler update, at the given rate, of the previous entry (0 before the first). */
  predicate EulerStep(s: seq<real>, i: nat, rate: real)
    requires i < |s|
  {
    s[i] == Euler(if i == 0 then 0.0 else s[i - 1], rate)
  }

  /**
   * The capped speed never decreases, never exceeds VMax, and reaches VMax
   * exactly from step LockSteps == ceil(VMax / (Ax * Dt)) on.
   */
  lemma SpeedAfterBounds(i: nat, j: nat)
    requires i <= j
    ensures SpeedAfter(i) <= SpeedAfter(j) <= VMax
    ensures SpeedAfter(j) == VMax <==> j >= LockSteps
    ensures (LockSteps - 1) as real * (Ax * Dt) < VMax <= LockSteps as real * (Ax * Dt)
  {
    if j < LockSteps {
      assert j as real <= (LockSteps - 1) as real;
    } else {
      assert j as real >= LockSteps as real;
    }
  }

  /** One pass of the capped update `vx += ax*dt; if vx > VMax: vx = VMax` from SpeedAfter(k). */
  lemma SpeedStep(k: nat)
    ensures SpeedAfter(k) < VMax ==>
      (if SpeedAfter(k) + Ax * Dt > VMax then VMax else SpeedAfter(k) + Ax * Dt) == SpeedAfter(k + 1)
    ensures SpeedAfter(k) >= VMax ==> SpeedAfter(k) == SpeedAfter(k + 1) == VMax
  {
    SpeedAfterBounds(k, k + 1);
  }

  /** Below the cap, one pass of B's speed update reaches SpeedAfter(k + 1), and B has steps left. */
  lemma LockedSpeedStep(k: nat)
    requires SpeedAfter(k) < VMax
    ensures k < LockSteps && 0.0 <= SpeedAfter(k + 1) <= VMax
    ensures (if SpeedAfter(k) + Ax * Dt > VMax then VMax else SpeedAfter(k) + Ax * Dt) == SpeedAfter(k + 1)
  {
    SpeedStep(k);
    SpeedAfterBounds(k, k);
    SpeedAfterBounds(k + 1, k + 1);
  }

  /** B's loop stops exactly after LockSteps passes. */
  lemma LockedSpeedReached(k: nat)
    requires k <= LockSteps && SpeedAfter(k) >= VMax
    ensures k == LockSteps
    ensures (k - 1) as real * (Ax * Dt) < VMax <= k as real * (Ax * Dt)
  {
    SpeedAfterBounds(k, k);
  }

  /** The locked steering wheel turns the road wheels by more than the straight-ahead threshold. */
  lemma LockTurns()
    ensures Abs(RoadWheelAngle(LockSteering)) > StraightThreshold
  {
  }

  /** A product of two non-negative reals is non-negative. */
  lemma ProductNonneg(a: real, b: real)
    requires a >= 0.0 && b >= 0.0
    ensures a * b >= 0.0
  {
  }

  /** On the B and C speeds the yaw-rate denominator is positive, so the evaluator never divides by zero there. */
  lemma YawDenominatorPositive(V: real, ax: real)
    requires 0.0 <= V <= VMax
    requires 0.0 <= ax <= Ax
    ensures YawDenominator(V, ax) > 0.0
  {
    var c := ((FrontAxleLoad(ax) - RearAxleLoad(ax)) / G) / Ca;
    assert c == -(2.0 * Mv * H / L / G / Ca) * ax;
    assert -0.004 <= c <= 0.0;
    ProductNonneg(V, VMax - V);
    ProductNonneg(VMax, VMax - V);
    assert V * V <= VMax * VMax;
    ProductNonneg(c + 0.004, V * V);
    assert c * V * V == c * (V * V);
  }

  /** Every evaluator call of run B succeeds once the lock's tangent is non-zero. */
  lemma LockEvaluationDefined(trig: Trig, V: real)
    requires 0.0 <= V <= VMax
    requires trig.Tan(RoadWheelAngle(LockSteering)) != 0.0
    ensures Evaluate(trig, V, LockSteering, Ax).Ok?
  {
    YawDenominatorPositive(V, Ax);
  }

  /**
   * At a road-wheel angle of exactly 1e-6 rad the two radius tests disagree:
   * the evaluator takes the finite branch, the integrator drives straight.
   */
  lemma ThresholdDisagreement(trig: Trig)
    requires trig.Tan(StraightThreshold) != 0.0
    ensures var s := StraightThreshold * (180.0 / Pi) * SteeringRatio;
      RoadWheelAngle(s) == StraightThreshold &&
      LoopRadius(trig, s) == Inf &&
      Evaluate(trig, 0.0, s, Ax).Ok? && Evaluate(trig, 0.0, s, Ax).value.radius.Finite?
  {
    var s := StraightThreshold * (180.0 / Pi) * SteeringRatio;
    assert RoadWheelAngle(s) == StraightThreshold;
  }

  /** The last entry of a list, or 0 before the first step (every state variable starts at 0). */
  function LastOr0(s: seq<real>): real {
    if s == [] then 0.0 else s[|s| - 1]
  }

  /** The integrator between two steps: the loop's scalars, the headings visited so far and the samples. */
  datatype Progress = Progress(
    t: real,
    x: real,
    y: real,
    theta: real,
    vx: real,
    vy: real,
    headings: seq<real>,
    trace: Trace)
  {
    /** The scalars are the values last appended, and time has advanced by dt per sample. */
    predicate Tracks() {
      |headings| == |trace| && t == |trace| as real * Dt && theta == LastOr0(headings) &&
      x == Previous(trace, |trace|).x && y == Previous(trace, |trace|).y && vy == Previous(trace, |trace|).vy
    }
  }

  const Start: Progress := Progress(0.0, 0.0, 0.0, 0.0, 0.0, 0.0, [], [])

  /**
   * The rest of one loop pass once the speed vx and the lateral speed vy are
   * set: heading, then position (y moves with ySpeed), one sample, then time.
   */
  function Step(trig: Trig, p: Progress, vx: real, omega: real, ySpeed: real, vy: real, d: Dynamics): Progress {
    var theta := Euler(p.theta, omega);
    var x := Euler(p.x, vx * trig.Cos(theta));
    var y := Euler(p.y, ySpeed * trig.Sin(theta));
    Progress(p.t + Dt, x, y, theta, vx, vy, p.headings + [theta], p.trace + [Record(p.t, x, y, vy, d)])
  }

  /** The loop's own updates of heading, position, samples and time compute exactly one Step. */
  lemma StepIs(trig: Trig, p: Progress, vx: real, omega: real, ySpeed: real, vy: real, d: Dynamics,
               theta: real, x: real, y: real)
    requires theta == Euler(p.theta, omega)
    requires x == Euler(p.x, vx * trig.Cos(theta))
    requires y == Euler(p.y, ySpeed * trig.Sin(theta))
    ensures Step(trig, p, vx, omega, ySpeed, vy, d) ==
      Progress(p.t + Dt, x, y, theta, vx, vy, p.headings + [theta], p.trace + [Record(p.t, x, y, vy, d)])
  {
    var q := Step(trig, p, vx, omega, ySpeed, vy, d);
    assert q.theta == theta;
    assert q.x == x;
    assert q.y == y;
  }

  /**
   * Row i of a run driven at speed v with steering-wheel angle `steering`: its
   * time and one forward-Euler step of the heading (from the integrator's own
   * radius) and of the position.
   */
  predicate EulerRow(trig: Trig, p: Progress, i: nat, v: real, steering: real, ySpeed: real)
    requires |p.headings| == |p.trace| && i < |p.trace|
    requires LoopTanOk(trig, steering)
  {
    p.trace[i].t == i as real * Dt &&
    EulerStep(p.headings, i, Omega(v, LoopRadius(trig, steering))) &&
    p.trace[i].x == Euler(Previous(p.trace, i).x, v * trig.Cos(p.headings[i])) &&
    p.trace[i].y == Euler(Previous(p.trace, i).y, ySpeed * trig.Sin(p.headings[i]))
  }

  /** A step leaves every earlier row as it was. */
  lemma StepKeepsRow(trig: Trig, p: Progress, vx: real, omega: real, ySpeed: real, vy: real, d: Dynamics,
                     i: nat, v: real, steering: real, rowYSpeed: real)
    requires |p.headings| == |p.trace| && i < |p.trace|
    requires LoopTanOk(trig, steering)
    requires EulerRow(trig, p, i, v, steering, rowYSpeed)
    ensures var q := Step(trig, p, vx, omega, ySpeed, vy, d);
      |q.headings| == |q.trace| && i < |q.trace| &&
      q.trace[i] == p.trace[i] && q.headings[i] == p.headings[i] &&
      Previous(q.trace, i) == Previous(p.trace, i) &&
      EulerRow(trig, q, i, v, steering, rowYSpeed)
  {
    var q := Step(trig, p, vx, omega, ySpeed, vy, d);
    if i > 0 {
      assert q.headings[i - 1] == p.headings[i - 1];
      assert q.trace[i - 1] == p.trace[i - 1];
    }
  }

  /** A step on a tracking state appends a row built from the evaluator's record. */
  lemma StepNewRow(trig: Trig, p: Progress, steering: real, ySpeed: real, vx: real, vy: real, d: Dynamics)
    requires p.Tracks()
    requires LoopTanOk(trig, steering)
    ensures var q := Step(trig, p, vx, Omega(vx, LoopRadius(trig, steering)), ySpeed, vy, d);
      var n := |p.trace|;
      q.Tracks() && |q.trace| == n + 1 &&
      EulerRow(trig, q, n, vx, steering, ySpeed) &&
      q.trace[n] == Record(p.t, q.x, q.y, vy, d) && q.headings[n] == q.theta &&
      Previous(q.trace, n) == Previous(p.trace, n)
  {
    var q := Step(trig, p, vx, Omega(vx, LoopRadius(trig, steering)), ySpeed, vy, d);
    var n := |p.trace|;
    if n > 0 {
      assert q.headings[n - 1] == p.theta;
      assert q.trace[n - 1] == p.trace[n - 1];
    }
  }

  /** Forward-Euler integral, with step Dt, of the lateral accelerations of a list of samples. */
  function IntegratedAy(tr: Trace): real {
    if tr == [] then 0.0 else Euler(IntegratedAy(tr[..|tr| - 1]), tr[|tr| - 1].ay)
  }

  /** In a list whose vy advances by one forward-Euler step of its own ay, vy is the running integral of ay. */
  lemma {:induction false} VyIntegratesAy(tr: Trace, n: nat)
    requires n < |tr|
    requires forall i :: 0 <= i < |tr| ==> tr[i].vy == Euler(Previous(tr, i).vy, tr[i].ay)
    ensures tr[n].vy == IntegratedAy(tr[..n + 1])
    decreases n
  {
    var s := tr[..n + 1];
    assert s[..|s| - 1] == tr[..n];
    assert tr[n].vy == Euler(Previous(tr, n).vy, tr[n].ay);
    if n == 0 {
      assert tr[..0] == [];
    } else {
      VyIntegratesAy(tr, n - 1);
    }
  }

  // ---------------------------------------------------------------- run A

  /** Run A after k steps: speed SpeedAfter(k), steering 0, y moving with VyConst, vy 0. */
  function RunA(trig: Trig, k: nat): Progress
    // trig never decreases; naming it keeps the verifier from unrolling the run at a literal step count
    decreases k, trig
  {
    if k == 0 then Start
    else
      var v := SpeedAfter(k);
      Step(trig, RunA(trig, k - 1), v, Omega(v, LoopRadius(trig, 0.0)), VyConst, 0.0,
           Evaluate(trig, v, 0.0, Ax).value)
  }

  /** One more step of run A is one Step from the state before it. */
  lemma RunANext(trig: Trig, k: nat, v: real, omega: real, d: Dynamics)
    requires v == SpeedAfter(k + 1) && omega == Omega(v, LoopRadius(trig, 0.0))
    requires d == Evaluate(trig, v, 0.0, Ax).value
    ensures RunA(trig, k + 1) == Step(trig, RunA(trig, k), v, omega, VyConst, 0.0, d)
  {
  }

  /** One pass of A's loop body on the state after k steps gives the state after k + 1. */
  lemma StraightPass(trig: Trig, k: nat, t: real, x: real, y: real, theta: real, vx: real, vy: real,
                     headings: seq<real>, tr: Trace, v: real, omega: real, theta': real, x': real, y': real,
                     d: Dynamics)
    requires Progress(t, x, y, theta, vx, vy, headings, tr) == RunA(trig, k) && vy == 0.0
    requires v == SpeedAfter(k + 1) && omega == Omega(v, LoopRadius(trig, 0.0))
    requires d == Evaluate(trig, v, 0.0, Ax).value
    requires theta' == Euler(theta, omega)
    requires x' == Euler(x, v * trig.Cos(theta')) && y' == Euler(y, VyConst * trig.Sin(theta'))
    ensures Progress(t + Dt, x', y', theta', v, vy, headings + [theta'], tr + [Record(t, x', y', vy, d)]) ==
      RunA(trig, k + 1)
  {
    var before := Progress(t, x, y, theta, vx, vy, headings, tr);
    StepIs(trig, before, v, omega, VyConst, vy, d, theta', x', y');
    RunANext(trig, k, v, omega, d);
  }

  /** Row i of run A's state: an Euler row at the capped speed and steering 0, the evaluator's record, heading, y and vy 0. */
  predicate StraightStep(trig: Trig, p: Progress, i: nat)
    requires |p.headings| == |p.trace| && i < |p.trace|
  {
    EulerRow(trig, p, i, SpeedAfter(i + 1), 0.0, VyConst) &&
    FromEvaluator(p.trace[i], trig, SpeedAfter(i + 1), 0.0, Ax) &&
    p.headings[i] == 0.0 && p.trace[i].y == 0.0 && p.trace[i].vy == 0.0
  }

  lemma {:induction false} StraightRun(trig: Trig, k: nat)
    ensures RunA(trig, k).Tracks() && |RunA(trig, k).trace| == k && RunA(trig, k).vx == SpeedAfter(k)
    ensures forall i :: 0 <= i < k ==> StraightStep(trig, RunA(trig, k), i)
    decreases k
  {
    if k > 0 {
      StraightRun(trig, k - 1);
      var p := RunA(trig, k - 1);
      var v := SpeedAfter(k);
      var d := Evaluate(trig, v, 0.0, Ax).value;
      var omega := Omega(v, LoopRadius(trig, 0.0));
      assert omega == 0.0;
      StepNewRow(trig, p, 0.0, VyConst, v, 0.0, d);
      var q := RunA(trig, k);
      assert k - 1 > 0 ==> StraightStep(trig, p, k - 2);
      assert StraightStep(trig, q, k - 1);
      forall i | 0 <= i < k - 1 ensures StraightStep(trig, q, i) {
        assert StraightStep(trig, p, i);
        StepKeepsRow(trig, p, v, omega, VyConst, 0.0, d, i, SpeedAfter(i + 1), 0.0, VyConst);
      }
    }
  }

  /**
   * Row i of run A as the source's lists show it: time i*dt, the capped speed,
   * x advanced along heading 0, y and vy 0, ...
   */
  predicate StraightMotion(trig: Trig, tr: Trace, i: nat)
    requires i < |tr|
  {
    tr[i].t == i as real * Dt && tr[i].vx == SpeedAfter(i + 1) && tr[i].vx <= VMax &&
    tr[i].x == Euler(Previous(tr, i).x, tr[i].vx * trig.Cos(0.0)) &&
    tr[i].y == 0.0 && tr[i].vy == 0.0
  }

  /**
   * ... and the evaluator's record at steering 0, with no lateral acceleration,
   * no yaw and no lateral load transfer.
   */
  predicate StraightDynamics(trig: Trig, tr: Trace, i: nat)
    requires i < |tr|
  {
    FromEvaluator(tr[i], trig, SpeedAfter(i + 1), 0.0, Ax) &&
    tr[i].ay == 0.0 && tr[i].yaw == 0.0 && tr[i].wfi == tr[i].wfo && tr[i].wri == tr[i].wro
  }

  lemma StraightMotionOf(trig: Trig, p: Progress, i: nat)
    requires |p.headings| == |p.trace| && i < |p.trace|
    requires EulerRow(trig, p, i, SpeedAfter(i + 1), 0.0, VyConst)
    requires p.trace[i].vx == SpeedAfter(i + 1)
    requires p.headings[i] == 0.0 && p.trace[i].y == 0.0 && p.trace[i].vy == 0.0
    ensures StraightMotion(trig, p.trace, i)
  {
    SpeedAfterBounds(i + 1, i + 1);
    assert trig.Cos(p.headings[i]) == trig.Cos(0.0);
  }

  lemma StraightDynamicsOf(trig: Trig, p: Progress, i: nat)
    requires i < |p.trace|
    requires FromEvaluator(p.trace[i], trig, SpeedAfter(i + 1), 0.0, Ax)
    ensures StraightDynamics(trig, p.trace, i)
  {
    var v := SpeedAfter(i + 1);
    assert RoadWheelAngle(0.0) == 0.0;
    StraightBranch(trig, v, 0.0, Ax);
    LoadTransfer(trig, v, 0.0, Ax);
  }

  /**
   * Every sample of run A after k steps shows straight, capped, yaw-free motion,
   * and the heading and y are still 0 after the last step.
   */
  lemma StraightRunRows(trig: Trig, k: nat)
    ensures |RunA(trig, k).trace| == k
    ensures RunA(trig, k).theta == 0.0 && RunA(trig, k).y == 0.0
    ensures forall i :: 0 <= i < k ==>
      StraightMotion(trig, RunA(trig, k).trace, i) && StraightDynamics(trig, RunA(trig, k).trace, i)
  {
    StraightRun(trig, k);
    var p := RunA(trig, k);
    if k > 0 {
      assert StraightStep(trig, p, k - 1);
    }
    forall i | 0 <= i < k ensures StraightMotion(trig, p.trace, i) && StraightDynamics(trig, p.trace, i) {
      assert StraightStep(trig, p, i);
      assert p.trace[i].vx == Evaluate(trig, SpeedAfter(i + 1), 0.0, Ax).value.vx;
      StraightMotionOf(trig, p, i);
      StraightDynamicsOf(trig, p, i);
    }
  }

  /** The samples of a complete run A. */
  function StraightTrace(trig: Trig): Trace {
    RunA(trig, StraightSteps).trace
  }

  /** Run A: straight line, 100 steps, speed capped at VMax. */
  method SimulateA(trig: Trig) returns (tr: Trace)
    ensures tr == StraightTrace(trig) && |tr| == StraightSteps
  {
    var profile := seq(StraightSteps, _ => 0.0);
    var x, y, theta := 0.0, 0.0, 0.0;
    var vx := 0.0;
    var vy := 0.0;
    var t := 0.0;
    tr := [];
    ghost var headings: seq<real> := [];
    for k := 0 to |profile|
      invariant vx == SpeedAfter(k) && vy == 0.0
      invariant Progress(t, x, y, theta, vx, vy, headings, tr) == RunA(trig, k)
    {
      ghost var vx0 := vx;
      var steering := profile[k];
      assert steering == 0.0;
      SpeedStep(k);
      if vx < VMax {
        vx := vx + Ax * Dt;
        if vx > VMax {
          vx := VMax;
        }
      }
      var radius := LoopRadius(trig, steering);
      var omega := Omega(vx, radius);
      ghost var theta0, x0, y0 := theta, x, y;
      theta := Euler(theta, omega);
      x := Euler(x, vx * trig.Cos(theta));
      y := Euler(y, VyConst * trig.Sin(theta));
      var res := Evaluate(trig, vx, steering, Ax);
      StraightPass(trig, k, t, x0, y0, theta0, vx0, vy, headings, tr, vx, omega, theta, x, y, res.value);
      tr := tr + [Record(t, x, y, vy, res.value)];
      headings := headings + [theta];
      t := t + Dt;
    }
    StraightRun(trig, StraightSteps);
  }

  // ---------------------------------------------------------------- run B

  /** Run B after k steps: steering locked, speed SpeedAfter(k), y moving with the speed, vy 0. */
  function RunB(trig: Trig, k: nat): Progress
    requires trig.Tan(RoadWheelAngle(LockSteering)) != 0.0
    // trig never decreases; naming it keeps the verifier from unrolling the run at a literal step count
    decreases k, trig
  {
    if k == 0 then Start
    else
      var v := SpeedAfter(k);
      SpeedAfterBounds(k, k);
      LockEvaluationDefined(trig, v);
      Step(trig, RunB(trig, k - 1), v, Omega(v, LoopRadius(trig, LockSteering)), v, 0.0,
           Evaluate(trig, v, LockSteering, Ax).value)
  }

  /** One more step of run B is one Step from the state before it. */
  lemma RunBNext(trig: Trig, k: nat, v: real, omega: real, d: Dynamics)
    requires trig.Tan(RoadWheelAngle(LockSteering)) != 0.0
    requires v == SpeedAfter(k + 1) && omega == Omega(v, LoopRadius(trig, LockSteering))
    requires Evaluate(trig, v, LockSteering, Ax).Ok? && d == Evaluate(trig, v, LockSteering, Ax).value
    ensures RunB(trig, k + 1) == Step(trig, RunB(trig, k), v, omega, v, 0.0, d)
  {
  }

  /** One pass of B's loop body on the state after k steps gives the state after k + 1. */
  lemma LockedPass(trig: Trig, k: nat, t: real, x: real, y: real, theta: real, vx: real, vy: real,
                   headings: seq<real>, tr: Trace, v: real, omega: real, theta': real, x': real, y': real,
                   d: Dynamics)
    requires trig.Tan(RoadWheelAngle(LockSteering)) != 0.0
    requires Progress(t, x, y, theta, vx, vy, headings, tr) == RunB(trig, k) && vy == 0.0
    requires v == SpeedAfter(k + 1) && omega == Omega(v, LoopRadius(trig, LockSteering))
    requires Evaluate(trig, v, LockSteering, Ax).Ok? && d == Evaluate(trig, v, LockSteering, Ax).value
    requires theta' == Euler(theta, omega)
    requires x' == Euler(x, v * trig.Cos(theta')) && y' == Euler(y, v * trig.Sin(theta'))
    ensures Progress(t + Dt, x', y', theta', v, vy, headings + [theta'], tr + [Record(t, x', y', vy, d)]) ==
      RunB(trig, k + 1)
  {
    var before := Progress(t, x, y, theta, vx, vy, headings, tr);
    StepIs(trig, before, v, omega, v, vy, d, theta', x', y');
    RunBNext(trig, k, v, omega, d);
  }

  /** Row i of run B's state: an Euler row at the capped speed and the locked angle, the evaluator's record, vy 0. */
  predicate LockedStep(trig: Trig, p: Progress, i: nat)
    requires trig.Tan(RoadWheelAngle(LockSteering)) != 0.0
    requires |p.headings| == |p.trace| && i < |p.trace|
  {
    EulerRow(trig, p, i, SpeedAfter(i + 1), LockSteering, SpeedAfter(i + 1)) &&
    FromEvaluator(p.trace[i], trig, SpeedAfter(i + 1), LockSteering, Ax) &&
    p.trace[i].vy == 0.0
  }

  lemma {:induction false} LockedRun(trig: Trig, k: nat)
    requires trig.Tan(RoadWheelAngle(LockSteering)) != 0.0
    ensures RunB(trig, k).Tracks() && |RunB(trig, k).trace| == k && RunB(trig, k).vx == SpeedAfter(k)
    ensures forall i :: 0 <= i < k ==> LockedStep(trig, RunB(trig, k), i)
    decreases k
  {
    if k > 0 {
      LockedRun(trig, k - 1);
      var p := RunB(trig, k - 1);
      var v := SpeedAfter(k);
      SpeedAfterBounds(k, k);
      LockEvaluationDefined(trig, v);
      var d := Evaluate(trig, v, LockSteering, Ax).value;
      var omega := Omega(v, LoopRadius(trig, LockSteering));
      StepNewRow(trig, p, LockSteering, v, v, 0.0, d);
      var q := RunB(trig, k);
      assert LockedStep(trig, q, k - 1);
      forall i | 0 <= i < k - 1 ensures LockedStep(trig, q, i) {
        assert LockedStep(trig, p, i);
        StepKeepsRow(trig, p, v, omega, v, 0.0, d, i, SpeedAfter(i + 1), LockSteering, SpeedAfter(i + 1));
      }
    }
  }

  /** The samples of a complete run B. */
  function LockedTrace(trig: Trig): Trace
    requires trig.Tan(RoadWheelAngle(LockSteering)) != 0.0
  {
    RunB(trig, LockSteps).trace
  }

  /** The speeds of run B rise monotonically to the cap, which the last sample reaches. */
  lemma LockedRunSpeeds(trig: Trig)
    requires trig.Tan(RoadWheelAngle(LockSteering)) != 0.0
    ensures var tr := LockedTrace(trig);
      |tr| == LockSteps &&
      (forall i :: 0 <= i < |tr| ==> tr[i].t == i as real * Dt && tr[i].vy == 0.0) &&
      (forall i :: 0 <= i < |tr| ==> tr[i].vx == SpeedAfter(i + 1) && tr[i].vx <= VMax) &&
      (forall i, j :: 0 <= i <= j < |tr| ==> tr[i].vx <= tr[j].vx) &&
      tr[LockSteps - 1].vx == VMax
  {
    LockedRun(trig, LockSteps);
    var p := RunB(trig, LockSteps);
    forall i | 0 <= i < LockSteps
      ensures p.trace[i].t == i as real * Dt && p.trace[i].vy == 0.0
      ensures p.trace[i].vx == SpeedAfter(i + 1) && p.trace[i].vx <= VMax
    {
      assert LockedStep(trig, p, i);
      SpeedAfterBounds(i + 1, i + 1);
    }
    forall i, j | 0 <= i <= j < LockSteps ensures p.trace[i].vx <= p.trace[j].vx {
      SpeedAfterBounds(i + 1, j + 1);
    }
    SpeedAfterBounds(LockSteps, LockSteps);
  }

  /** Run B: the steering wheel locked at -100 degrees until the speed reaches VMax. */
  method SimulateB(trig: Trig) returns (res: Result<Trace>)
    ensures res.Ok? <==> trig.Tan(RoadWheelAngle(LockSteering)) != 0.0
    ensures res.Ok? ==> res.value == LockedTrace(trig)
    // the loop runs ceil(VMax / (Ax * Dt)) times
    ensures res.Ok? ==>
      |res.value| == LockSteps && (|res.value| - 1) as real * (Ax * Dt) < VMax <= |res.value| as real * (Ax * Dt)
  {
    var steering := LockSteering;
    var deltaRad := RoadWheelAngle(steering);
    LockTurns();
    if Abs(deltaRad) > StraightThreshold && trig.Tan(deltaRad) == 0.0 {
      return Err(ZeroDivision);
    }
    var radius := LoopRadius(trig, steering);
    var x, y, theta := 0.0, 0.0, 0.0;
    var vx := 0.0;
    var vy := 0.0;
    var t := 0.0;
    var tr := [];
    ghost var headings: seq<real> := [];
    ghost var k: nat := 0;
    while vx < VMax
      invariant k <= LockSteps
      invariant vx == SpeedAfter(k) && vy == 0.0 && |tr| == k
      invariant Progress(t, x, y, theta, vx, vy, headings, tr) == RunB(trig, k)
      decreases LockSteps - k
    {
      ghost var vx0 := vx;
      LockedSpeedStep(k);
      vx := vx + Ax * Dt;
      if vx > VMax {
        vx := VMax;
      }
      var omega := Omega(vx, radius);
      ghost var theta0, x0, y0 := theta, x, y;
      theta := Euler(theta, omega);
      x := Euler(x, vx * trig.Cos(theta));
      y := Euler(y, vx * trig.Sin(theta));
      LockEvaluationDefined(trig, vx);
      var d := Evaluate(trig, vx, steering, Ax);
      LockedPass(trig, k, t, x0, y0, theta0, vx0, vy, headings, tr, vx, omega, theta, x, y, d.value);
      tr := tr + [Record(t, x, y, vy, d.value)];
      headings := headings + [theta];
      t := t + Dt;
      k := k + 1;
    }
    LockedSpeedReached(k);
    res := Ok(tr);
  }

  // ---------------------------------------------------------------- run C

  /** The steering profile of run C. */
  function SweepProfile(): seq<real> {
    RampProfile(SweepTargets)
  }

  /** Run C completes on a profile when none of its angles turns the wheels onto a zero tangent. */
  predicate Drivable(trig: Trig, profile: seq<real>) {
    forall i :: 0 <= i < |profile| ==> !TanVanishes(trig, profile[i])
  }

  /** Run C completes on its own profile. */
  predicate SweepSucceeds(trig: Trig) {
    Drivable(trig, SweepProfile())
  }

  /** Run C after k steps of `profile`: constant speed VConst, ax 0, vy integrating ay. */
  function RunC(trig: Trig, profile: seq<real>, k: nat): Progress
    requires k <= |profile|
    requires forall i :: 0 <= i < k ==> !TanVanishes(trig, profile[i])
    // trig never decreases; naming it keeps the verifier from unrolling the run at a literal step count
    decreases k, trig
  {
    if k == 0 then Start
    else
      var p := RunC(trig, profile, k - 1);
      var steering := profile[k - 1];
      YawDenominatorPositive(VConst, 0.0);
      var d := Evaluate(trig, VConst, steering, 0.0).value;
      Step(trig, p, VConst, Omega(VConst, LoopRadius(trig, steering)), VConst, Euler(p.vy, d.ay), d)
  }

  /** One more step of run C is one Step from the state before it. */
  lemma RunCNext(trig: Trig, profile: seq<real>, k: nat, omega: real, d: Dynamics)
    requires k < |profile|
    requires forall i :: 0 <= i <= k ==> !TanVanishes(trig, profile[i])
    requires !TanVanishes(trig, profile[k])
    requires omega == Omega(VConst, LoopRadius(trig, profile[k]))
    requires Evaluate(trig, VConst, profile[k], 0.0).Ok? && d == Evaluate(trig, VConst, profile[k], 0.0).value
    ensures RunC(trig, profile, k + 1) ==
      Step(trig, RunC(trig, profile, k), VConst, omega, VConst, Euler(RunC(trig, profile, k).vy, d.ay), d)
  {
  }

  /** One pass of C's loop body on the state after k steps gives the state after k + 1. */
  lemma SweepPass(trig: Trig, profile: seq<real>, k: nat, t: real, x: real, y: real, theta: real, vx: real, vy: real,
                  headings: seq<real>, tr: Trace, omega: real, theta': real, x': real, y': real, d: Dynamics)
    requires k < |profile|
    requires forall i :: 0 <= i <= k ==> !TanVanishes(trig, profile[i])
    requires !TanVanishes(trig, profile[k])
    requires Progress(t, x, y, theta, vx, vy, headings, tr) == RunC(trig, profile, k)
    requires omega == Omega(VConst, LoopRadius(trig, profile[k]))
    requires Evaluate(trig, VConst, profile[k], 0.0).Ok? && d == Evaluate(trig, VConst, profile[k], 0.0).value
    requires theta' == Euler(theta, omega)
    requires x' == Euler(x, VConst * trig.Cos(theta')) && y' == Euler(y, VConst * trig.Sin(theta'))
    ensures Progress(t + Dt, x', y', theta', VConst, Euler(vy, d.ay), headings + [theta'],
                     tr + [Record(t, x', y', Euler(vy, d.ay), d)]) == RunC(trig, profile, k + 1)
  {
    var before := Progress(t, x, y, theta, vx, vy, headings, tr);
    StepIs(trig, before, VConst, omega, VConst, Euler(vy, d.ay), d, theta', x', y');
    RunCNext(trig, profile, k, omega, d);
  }

  /**
   * Row i of run C's state: an Euler row at VConst and the profile's angle, the
   * evaluator's record, and one Euler step of ay into vy.
   */
  predicate SweepStep(trig: Trig, profile: seq<real>, p: Progress, i: nat)
    requires i < |profile| && !TanVanishes(trig, profile[i])
    requires |p.headings| == |p.trace| && i < |p.trace|
  {
    EulerRow(trig, p, i, VConst, profile[i], VConst) &&
    FromEvaluator(p.trace[i], trig, VConst, profile[i], 0.0) &&
    p.trace[i].vy == Euler(Previous(p.trace, i).vy, p.trace[i].ay)
  }

  lemma {:induction false} SweepRun(trig: Trig, profile: seq<real>, k: nat)
    requires k <= |profile|
    requires forall i :: 0 <= i < k ==> !TanVanishes(trig, profile[i])
    ensures RunC(trig, profile, k).Tracks() && |RunC(trig, profile, k).trace| == k
    ensures forall i :: 0 <= i < k ==> SweepStep(trig, profile, RunC(trig, profile, k), i)
    decreases k
  {
    if k > 0 {
      SweepRun(trig, profile, k - 1);
      var p := RunC(trig, profile, k - 1);
      var steering := profile[k - 1];
      YawDenominatorPositive(VConst, 0.0);
      var d := Evaluate(trig, VConst, steering, 0.0).value;
      var omega := Omega(VConst, LoopRadius(trig, steering));
      var vy := Euler(p.vy, d.ay);
      StepNewRow(trig, p, steering, VConst, VConst, vy, d);
      var q := RunC(trig, profile, k);
      assert SweepStep(trig, profile, q, k - 1);
      forall i | 0 <= i < k - 1 ensures SweepStep(trig, profile, q, i) {
        assert SweepStep(trig, profile, p, i);
        StepKeepsRow(trig, p, VConst, omega, VConst, vy, d, i, VConst, profile[i], VConst);
      }
    }
  }

  /**
   * The samples of a completed run C: constant speed, no longitudinal
   * acceleration, the evaluator's record at each profile angle, and vy after
   * k steps is the sum of the first k values of ay * dt.
   */
  lemma SweepRunLists(trig: Trig, profile: seq<real>)
    requires forall i :: 0 <= i < |profile| ==> !TanVanishes(trig, profile[i])
    ensures var tr := RunC(trig, profile, |profile|).trace;
      |tr| == |profile| &&
      (forall i :: 0 <= i < |tr| ==>
        tr[i].t == i as real * Dt && tr[i].vx == VConst && tr[i].ax == 0.0 &&
        FromEvaluator(tr[i], trig, VConst, profile[i], 0.0)) &&
      (forall i :: 0 <= i < |tr| ==> tr[i].vy == IntegratedAy(tr[..i + 1]))
  {
    var k := |profile|;
    SweepRun(trig, profile, k);
    var tr := RunC(trig, profile, k).trace;
    forall i | 0 <= i < k
      ensures tr[i].t == i as real * Dt && tr[i].vx == VConst && tr[i].ax == 0.0
      ensures FromEvaluator(tr[i], trig, VConst, profile[i], 0.0)
      ensures tr[i].vy == Euler(Previous(tr, i).vy, tr[i].ay)
    {
      assert SweepStep(trig, profile, RunC(trig, profile, k), i);
    }
    forall i | 0 <= i < k ensures tr[i].vy == IntegratedAy(tr[..i + 1]) {
      VyIntegratesAy(tr, i);
    }
  }

  /**
   * The loop of run C over a given profile: constant speed VConst, the wheels
   * turned by each profile angle in turn, ay integrated into vy. It stops with
   * a division by zero at the first angle whose tangent vanishes.
   */
  method DriveProfile(trig: Trig, profile: seq<real>) returns (res: Result<Trace>)
    ensures res.Ok? <==> Drivable(trig, profile)
    ensures res.Ok? ==> res.value == RunC(trig, profile, |profile|).trace
    ensures res.Ok? ==> |res.value| == |profile|
  {
    var x, y, theta := 0.0, 0.0, 0.0;
    var vy := 0.0;
    var t := 0.0;
    var tr := [];
    ghost var headings: seq<real> := [];
    // C keeps no speed variable: the state's speed is 0 before the first step and VConst after
    ghost var vx := 0.0;
    YawDenominatorPositive(VConst, 0.0);
    for k := 0 to |profile|
      invariant forall i :: 0 <= i < k ==> !TanVanishes(trig, profile[i])
      invariant Progress(t, x, y, theta, vx, vy, headings, tr) == RunC(trig, profile, k)
    {
      var steering := profile[k];
      var deltaRad := RoadWheelAngle(steering);
      if Abs(deltaRad) > StraightThreshold && trig.Tan(deltaRad) == 0.0 {
        assert TanVanishes(trig, profile[k]);
        return Err(ZeroDivision);
      }
      var radius := LoopRadius(trig, steering);
      var omega := Omega(VConst, radius);
      ghost var theta0, x0, y0 := theta, x, y;
      theta := Euler(theta, omega);
      x := Euler(x, VConst * trig.Cos(theta));
      y := Euler(y, VConst * trig.Sin(theta));
      var r := Evaluate(trig, VConst, steering, 0.0);
      if r.Err? {
        assert TanVanishes(trig, profile[k]);
        return Err(r.error);
      }
      SweepPass(trig, profile, k, t, x0, y0, theta0, vx, vy, headings, tr, omega, theta, x, y, r.value);
      var ay := r.value.ay;
      vy := Euler(vy, ay);
      tr := tr + [Record(t, x, y, vy, r.value)];
      headings := headings + [theta];
      t := t + Dt;
      vx := VConst;
    }
    SweepRun(trig, profile, |profile|);
    res := Ok(tr);
  }

  /** The samples of a complete run C. */
  function SweepTrace(trig: Trig): Trace
    requires SweepSucceeds(trig)
  {
    RunC(trig, SweepProfile(), |SweepProfile()|).trace
  }

  /** Run C: the ramp profile through 0, -150, 0, 150, 0, driven at constant speed. */
  method SimulateC(trig: Trig) returns (res: Result<Trace>)
    ensures res.Ok? <==> SweepSucceeds(trig)
    ensures res.Ok? ==> res.value == SweepTrace(trig) && |res.value| == |SweepProfile()| == 4 * 300 + 1
  {
    var profile := BuildRampProfile(SweepTargets);
    res := DriveProfile(trig, profile);
    SweepProfileLength();
  }

  // ---------------------------------------------------------------- selector

  /**
   * The selector: 'A', 'B' or 'C' runs that trajectory; any other string
   * simulates nothing (the source only prints a message).
   */
  method SimulateTrajectory(trig: Trig, selector: string) returns (out: Outcome)
    ensures out == NothingSimulated <==> selector != "A" && selector != "B" && selector != "C"
    ensures selector == "A" ==> out == Simulated(StraightTrace(trig)) && |out.trace| == StraightSteps
    ensures selector == "B" ==>
      (out.Simulated? <==> trig.Tan(RoadWheelAngle(LockSteering)) != 0.0) &&
      (out.Simulated? ==> out.trace == LockedTrace(trig) && |out.trace| == LockSteps) &&
      (!out.Simulated? ==> out == Failed(ZeroDivision))
    ensures selector == "C" ==>
      (out.Simulated? <==> SweepSucceeds(trig)) &&
      (out.Simulated? ==> out.trace == SweepTrace(trig) && |out.trace| == 4 * 300 + 1) &&
      (!out.Simulated? ==> out == Failed(ZeroDivision))
  {
    if selector == "A" {
      var tr := SimulateA(trig);
      return Simulated(tr);
    }
    if selector == "B" {
      var r := SimulateB(trig);
      return if r.Ok? then Simulated(r.value) else Failed(r.error);
    }
    if selector == "C" {
      var r := SimulateC(trig);
      return if r.Ok? then Simulated(r.value) else Failed(r.error);
    }
    out := NothingSimulated;
  }
}
