/** The squat evaluator: the knee angle averaged over both legs. */
module SquatLogic {
  import opened Wrappers
  import opened Numeric
  import opened Keypoints
  import opened AngleUtils
  import opened Feedback
  import opened ExerciseTypes

  const DownThreshold: real := 70.0
  const UpThreshold: real := 160.0
  const TargetAngle: real := 90.0

  const BendKneesMessage: string := "Bend your knees more"
  const BackStraightMessage: string := "Keep your back straight"

  /** `averageAngle([leftKnee, rightKnee]) ?? 180`. */
  function HipAngle(leftKnee: Option<real>, rightKnee: Option<real>): real {
    AverageAngle([leftKnee, rightKnee]).GetOr(180.0)
  }

  /** Both knees unknown fall back to 180 degrees; one known knee is taken as
      it is; two known knees give their midpoint. */
  lemma HipAngleCases(leftKnee: Option<real>, rightKnee: Option<real>)
    ensures leftKnee.None? && rightKnee.None? ==> HipAngle(leftKnee, rightKnee) == 180.0
    ensures leftKnee.Some? && rightKnee.None? ==> HipAngle(leftKnee, rightKnee) == leftKnee.value
    ensures leftKnee.None? && rightKnee.Some? ==> HipAngle(leftKnee, rightKnee) == rightKnee.value
    ensures leftKnee.Some? && rightKnee.Some? ==>
      Min(leftKnee.value, rightKnee.value) <= HipAngle(leftKnee, rightKnee) <= Max(leftKnee.value, rightKnee.value)
    ensures leftKnee.Some? && rightKnee.Some? ==>
      HipAngle(leftKnee, rightKnee) == (leftKnee.value + rightKnee.value) / 2.0
  {
    var angles := [leftKnee, rightKnee];
    if leftKnee.Some? && rightKnee.None? {
      AverageAngleSingle(angles, 0, leftKnee.value);
    } else if leftKnee.None? && rightKnee.Some? {
      AverageAngleSingle(angles, 1, rightKnee.value);
    } else if leftKnee.Some? && rightKnee.Some? {
      AverageAngleBounds(angles, Min(leftKnee.value, rightKnee.value), Max(leftKnee.value, rightKnee.value));
      AverageOfTwo(leftKnee.value, rightKnee.value);
    }
  }

  /** The squat assessment from the two knee angles and the torso angle
      (shoulder-hip-knee). */
  function Position(leftKnee: Option<real>, rightKnee: Option<real>, shoulderHip: Option<real>): (p: PositionResult)
    ensures 0.0 <= p.accuracy <= 100.0
    ensures !(p.isDown && p.isUp)
    ensures p.accuracy == 100.0 <==> HipAngle(leftKnee, rightKnee) == TargetAngle
    ensures |p.feedbackRules| == 2
    ensures p.feedbackRules[0].message == BendKneesMessage
    ensures p.feedbackRules[1].message == BackStraightMessage
  {
    var hipAngle := HipAngle(leftKnee, rightKnee);
    var isDown := hipAngle < DownThreshold;
    var isUp := hipAngle > UpThreshold;
    var accuracy := TargetScore(hipAngle, TargetAngle);
    PositionResult(accuracy, isDown, isUp, [
      FeedbackRule(BendKneesMessage, !isDown && hipAngle > 120.0),
      FeedbackRule(BackStraightMessage, shoulderHip.GetOr(180.0) < 150.0)
    ])
  }

  /** With neither knee angle known the squat reads as standing: up, not down,
      scoring 10. */
  lemma BothKneesUnknown(shoulderHip: Option<real>)
    ensures var p := Position(None, None, shoulderHip);
      p.isUp && !p.isDown && p.accuracy == 10.0
  {
    HipAngleCases(None, None);
  }

  /** The signals and the score as functions of the hip angle, and when each
      rule fires: the knee rule exactly above 120 degrees, the back rule only
      for a known torso angle below 150 degrees. */
  lemma PositionMeaning(leftKnee: Option<real>, rightKnee: Option<real>, shoulderHip: Option<real>)
    ensures var p, a := Position(leftKnee, rightKnee, shoulderHip), HipAngle(leftKnee, rightKnee);
      && (p.isDown <==> a < 70.0)
      && (p.isUp <==> a > 160.0)
      && (Abs(a - 90.0) <= 100.0 ==> p.accuracy == 100.0 - Abs(a - 90.0))
      && (p.feedbackRules[0].condition <==> a > 120.0)
      && (p.feedbackRules[1].condition <==> shoulderHip.Some? && shoulderHip.value < 150.0)
  {
  }

  /** `evaluatePosition`: the knee angles hip-knee-ankle on each side and the
      torso angle shoulder-hip-knee on the left. */
  function Evaluate(m: RealMath, frame: Frame): (p: PositionResult)
    ensures 0.0 <= p.accuracy <= 100.0
    ensures !(p.isDown && p.isUp)
    // a frame without usable knees reads as standing
    ensures !Usable(At(frame, LeftKnee)) && !Usable(At(frame, RightKnee)) ==>
      p.isUp && !p.isDown && p.accuracy == 10.0
  {
    HipAngleCases(None, None);
    var leftKnee := GetAngleAtJoint(m, At(frame, LeftHip), At(frame, LeftKnee), At(frame, LeftAnkle));
    var rightKnee := GetAngleAtJoint(m, At(frame, RightHip), At(frame, RightKnee), At(frame, RightAnkle));
    var shoulderHip := GetAngleAtJoint(m, At(frame, LeftShoulder), At(frame, LeftHip), At(frame, LeftKnee));
    Position(leftKnee, rightKnee, shoulderHip)
  }
}
