/** `stepPoseTowardTarget` in fixed point, in units of 0.0001: where the simulated robot is after k heartbeats. */
module Pose {
  datatype FixedPose = FixedPose(x: int, y: int, theta: int)

  const LINEAR_STEP := 2500
  const ANGULAR_STEP := 800

  function Abs(n: int): nat {
    if n < 0 then -n else n
  }

  /** One scalar, one heartbeat. */
  function StepNumber(current: int, target: int, maxStep: int): int {
    var delta := target - current;
    if Abs(delta) <= maxStep then target else current + if delta < 0 then -maxStep else maxStep
  }

  function StepPose(current: FixedPose, target: FixedPose): FixedPose {
    FixedPose(StepNumber(current.x, target.x, LINEAR_STEP), StepNumber(current.y, target.y, LINEAR_STEP),
              StepNumber(current.theta, target.theta, ANGULAR_STEP))
  }

  function ScalarAfter(current: int, target: int, maxStep: int, k: nat): int {
    if k == 0 then current else StepNumber(ScalarAfter(current, target, maxStep, k - 1), target, maxStep)
  }

  function PoseAfter(current: FixedPose, target: FixedPose, k: nat): FixedPose {
    if k == 0 then current else StepPose(PoseAfter(current, target, k - 1), target)
  }

  /** The scalar closes in by one step per heartbeat, from its own side, and never overshoots. */
  lemma {:induction false} ScalarConverges(current: int, target: int, maxStep: int, k: nat)
    requires 0 < maxStep
    ensures var rest := Abs(target - current) - k * maxStep;
            ScalarAfter(current, target, maxStep, k)
            == if rest <= 0 then target else if target < current then target + rest else target - rest
  {
    if k != 0 {
      ScalarConverges(current, target, maxStep, k - 1);
      assert k * maxStep == (k - 1) * maxStep + maxStep;
    }
  }

  /** The heartbeats an axis needs: distance over step, rounded up. */
  function Heartbeats(distance: nat, maxStep: int): nat
    requires 0 < maxStep
  {
    (distance + maxStep - 1) / maxStep
  }

  lemma HeartbeatsReach(distance: nat, maxStep: int, k: nat)
    requires 0 < maxStep
    ensures distance <= k * maxStep <==> Heartbeats(distance, maxStep) <= k
  {
    var h, r := Heartbeats(distance, maxStep), (distance + maxStep - 1) % maxStep;
    assert distance + maxStep - 1 == h * maxStep + r && 0 <= r < maxStep;
    if h <= k {
      assert h * maxStep <= k * maxStep;
    } else {
      assert (k + 1) * maxStep <= h * maxStep;
      assert (k + 1) * maxStep == k * maxStep + maxStep;
    }
  }

  lemma {:induction false} PoseIsPerAxis(current: FixedPose, target: FixedPose, k: nat)
    ensures PoseAfter(current, target, k)
         == FixedPose(ScalarAfter(current.x, target.x, LINEAR_STEP, k),
                      ScalarAfter(current.y, target.y, LINEAR_STEP, k),
                      ScalarAfter(current.theta, target.theta, ANGULAR_STEP, k))
  {
    if k != 0 {
      PoseIsPerAxis(current, target, k - 1);
    }
  }

  function Max3(a: nat, b: nat, c: nat): nat {
    var m := if a < b then b else a;
    if m < c then c else m
  }

  /** The robot stands on its target after exactly the largest per-axis number of heartbeats, and from then on. */
  lemma ArrivesExactly(current: FixedPose, target: FixedPose, k: nat)
    ensures PoseAfter(current, target, k) == target <==>
              Max3(Heartbeats(Abs(target.x - current.x), LINEAR_STEP),
                   Heartbeats(Abs(target.y - current.y), LINEAR_STEP),
                   Heartbeats(Abs(target.theta - current.theta), ANGULAR_STEP)) <= k
  {
    PoseIsPerAxis(current, target, k);
    ScalarConverges(current.x, target.x, LINEAR_STEP, k);
    ScalarConverges(current.y, target.y, LINEAR_STEP, k);
    ScalarConverges(current.theta, target.theta, ANGULAR_STEP, k);
    HeartbeatsReach(Abs(target.x - current.x), LINEAR_STEP, k);
    HeartbeatsReach(Abs(target.y - current.y), LINEAR_STEP, k);
    HeartbeatsReach(Abs(target.theta - current.theta), ANGULAR_STEP, k);
    hide PoseAfter, ScalarAfter, Heartbeats;
  }
}
