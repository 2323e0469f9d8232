/**
 * The steering profile of variant C: a piecewise-linear ramp through a list of
 * target steering-wheel angles, at a fixed steering rate, one angle per step.
 */
module SteeringProfile {

  /** Integration step of every trajectory, s. */
  const Dt: real := 0.1

  /** Steering-wheel rate of the ramp, degrees per second. */
  const SteeringRate: real := 5.0

  /** The targets variant C sweeps through, degrees. */
  const SweepTargets: seq<int> := [0, -150, 0, 150, 0]

  function IntAbs(d: int): nat {
    if d < 0 then -d else d
  }

  /** The sign of an integer difference: -1, 0 or 1. */
  function Sign(d: int): int {
    if d > 0 then 1 else if d < 0 then -1 else 0
  }

  /** Number of ramp steps from start to end: the duration divided by the step, truncated. */
  function SegmentSteps(start: int, end: int): nat {
    var duration := IntAbs(end - start) as real / SteeringRate;
    (duration / Dt).Floor
  }

  /** The s-th angle of the ramp from start towards end. */
  function RampAngle(start: int, end: int, s: int): real {
    start as real + Sign(end - start) as real * s as real * SteeringRate * Dt
  }

  /** The angles one pair of consecutive targets contributes. */
  function Segment(start: int, end: int): seq<real> {
    seq(SegmentSteps(start, end), s => RampAngle(start, end, s))
  }

  /** The ramps of all consecutive target pairs, in order. */
  function Segments(targets: seq<int>): seq<real>
    decreases |targets|
  {
    if |targets| < 2 then []
    else Segments(targets[..|targets| - 1]) + Segment(targets[|targets| - 2], targets[|targets| - 1])
  }

  /** The whole profile: every ramp, then the final target once more. */
  function RampProfile(targets: seq<int>): seq<real>
    requires |targets| > 0
  {
    Segments(targets) + [targets[|targets| - 1] as real]
  }

  /** Total variation of the targets: the sum of the distances between consecutive ones. */
  function Variation(targets: seq<int>): nat
    decreases |targets|
  {
    if |targets| < 2 then 0
    else Variation(targets[..|targets| - 1]) + IntAbs(targets[|targets| - 1] - targets[|targets| - 2])
  }

  /** In exact arithmetic a ramp over d degrees at 5 deg/s and 0.1 s takes 2 * d steps. */
  lemma SegmentStepsExact(start: int, end: int)
    ensures SegmentSteps(start, end) == 2 * IntAbs(end - start)
  {
    var n := IntAbs(end - start);
    assert (n as real / SteeringRate) / Dt == (2 * n) as real;
  }

  /**
   * Shape of one ramp: it starts at `start`, consecutive angles differ by
   * the rate times the step in the direction of `end`, and every angle lies
   * between `start` (inclusive) and `end` (exclusive).
   */
  lemma SegmentShape(start: int, end: int)
    ensures |Segment(start, end)| == 2 * IntAbs(end - start)
    ensures start == end <==> Segment(start, end) == []
    ensures start != end ==> Segment(start, end)[0] == start as real
    ensures forall s :: 0 <= s < |Segment(start, end)| - 1 ==>
      Segment(start, end)[s + 1] - Segment(start, end)[s] == Sign(end - start) as real * SteeringRate * Dt
    ensures start < end ==> forall s :: 0 <= s < |Segment(start, end)| ==>
      start as real <= Segment(start, end)[s] < end as real
    ensures end < start ==> forall s :: 0 <= s < |Segment(start, end)| ==>
      end as real < Segment(start, end)[s] <= start as real
  {
    SegmentStepsExact(start, end);
  }

  /** The profile is as long as twice the targets' total variation, plus the final angle. */
  lemma {:induction false} SegmentsLength(targets: seq<int>)
    ensures |Segments(targets)| == 2 * Variation(targets)
    decreases |targets|
  {
    if |targets| >= 2 {
      SegmentsLength(targets[..|targets| - 1]);
      SegmentStepsExact(targets[|targets| - 2], targets[|targets| - 1]);
    }
  }

  /** Appending one more target appends exactly its ramp. */
  lemma SegmentsExtend(targets: seq<int>, i: nat)
    requires i + 1 < |targets|
    ensures Segments(targets[..i + 2]) == Segments(targets[..i + 1]) + Segment(targets[i], targets[i + 1])
  {
    var t := targets[..i + 2];
    assert t[..|t| - 1] == targets[..i + 1];
  }

  /** The profile ends with the last target, exactly. */
  lemma RampProfileEnds(targets: seq<int>)
    requires |targets| > 0
    ensures |RampProfile(targets)| == 2 * Variation(targets) + 1
    ensures RampProfile(targets)[|RampProfile(targets)| - 1] == targets[|targets| - 1] as real
  {
    SegmentsLength(targets);
  }

  /** The sweep 0, -150, 0, 150, 0 gives four ramps of 300 angles and the final 0. */
  lemma SweepProfileLength()
    ensures |RampProfile(SweepTargets)| == 4 * 300 + 1
    ensures RampProfile(SweepTargets)[4 * 300] == 0.0
  {
    var t := SweepTargets;
    assert t[..2][..1] == [0] && t[..2] == [0, -150];
    assert Variation(t[..2]) == 150;
    assert t[..3][..2] == t[..2] && t[..3] == [0, -150, 0];
    assert Variation(t[..3]) == 300;
    assert t[..4][..3] == t[..3] && t[..4] == [0, -150, 0, 150];
    assert Variation(t[..4]) == 450;
    assert t[..4] == t[..|t| - 1];
    assert Variation(t) == 600;
    RampProfileEnds(t);
  }

  /** Builds the variant C steering profile with the source's nested loops. */
  method BuildRampProfile(targets: seq<int>) returns (profile: seq<real>)
    requires |targets| > 0
    ensures profile == RampProfile(targets)
  {
    profile := [];
    for i := 0 to |targets| - 1
      invariant profile == Segments(targets[..i + 1])
    {
      var start := targets[i];
      var end := targets[i + 1];
      var direction := Sign(end - start);
      var deltaTotal := IntAbs(end - start);
      var duration := deltaTotal as real / SteeringRate;
      var steps := (duration / Dt).Floor;
      ghost var before := profile;
      for s := 0 to steps
        invariant profile == before + Segment(start, end)[..s]
      {
        var angle := start as real + direction as real * s as real * SteeringRate * Dt;
        assert Segment(start, end)[..s + 1] == Segment(start, end)[..s] + [angle];
        profile := profile + [angle];
      }
      assert Segment(start, end)[..steps] == Segment(start, end);
      SegmentsExtend(targets, i);
    }
    assert targets[..|targets|] == targets;
    profile := profile + [targets[|targets| - 1] as real];
  }
}
