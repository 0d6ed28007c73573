/** The push-up evaluator: the smaller of the two elbow angles. */
module PushupLogic {
  import opened Wrappers
  import opened Numeric
  import opened Keypoints
  import opened AngleUtils
  import opened Feedback
  import opened ExerciseTypes

  const DownThreshold: real := 70.0
  const UpThreshold: real := 160.0
  const TargetAngle: real := 90.0

  const LowerChestMessage: string := "Lower your chest"
  const BackStraightMessage: string := "Keep your back straight"

  /** `Math.min(leftElbow ?? 180, rightElbow ?? 180)`. */
  function ElbowAngle(leftElbow: Option<real>, rightElbow: Option<real>): real {
    Min(leftElbow.GetOr(180.0), rightElbow.GetOr(180.0))
  }

  /** The push-up assessment from the two elbow angles and the hip line. */
  function Position(leftElbow: Option<real>, rightElbow: Option<real>, hipLine: Option<real>): (p: PositionResult)
    ensures 0.0 <= p.accuracy <= 100.0
    ensures !(p.isDown && p.isUp)
    ensures p.accuracy == 100.0 <==> ElbowAngle(leftElbow, rightElbow) == TargetAngle
    ensures |p.feedbackRules| == 2
    ensures p.feedbackRules[0].message == LowerChestMessage
    ensures p.feedbackRules[1].message == BackStraightMessage
  {
    var elbowAngle := ElbowAngle(leftElbow, rightElbow);
    var isDown := elbowAngle < DownThreshold;
    var isUp := elbowAngle > UpThreshold;
    var accuracy := TargetScore(elbowAngle, TargetAngle);
    PositionResult(accuracy, isDown, isUp, [
      FeedbackRule(LowerChestMessage, !isDown && elbowAngle > 130.0),
      FeedbackRule(BackStraightMessage, hipLine.GetOr(180.0) < 165.0)
    ])
  }

  /** With neither elbow angle known the push-up reads as arms extended: up,
      scoring 10. One known elbow angle (at most 180) decides on its own. */
  lemma ElbowFallbacks(leftElbow: Option<real>, rightElbow: Option<real>, hipLine: Option<real>)
    ensures var p := Position(None, None, hipLine);
      p.isUp && !p.isDown && p.accuracy == 10.0
    ensures leftElbow.Some? && leftElbow.value <= 180.0 ==> ElbowAngle(leftElbow, None) == leftElbow.value
    ensures rightElbow.Some? && rightElbow.value <= 180.0 ==> ElbowAngle(None, rightElbow) == rightElbow.value
  {
  }

  /** The signals, the score and the two rules in terms of the elbow angle:
      the chest rule exactly above 130 degrees, the back rule only for a known
      hip line below 165 degrees. */
  lemma PositionMeaning(leftElbow: Option<real>, rightElbow: Option<real>, hipLine: Option<real>)
    ensures var p, a := Position(leftElbow, rightElbow, hipLine), ElbowAngle(leftElbow, rightElbow);
      && (p.isDown <==> a < 70.0)
      && (p.isUp <==> a > 160.0)
      && (Abs(a - 90.0) <= 100.0 ==> p.accuracy == 100.0 - Abs(a - 90.0))
      && (p.feedbackRules[0].condition <==> a > 130.0)
      && (p.feedbackRules[1].condition <==> hipLine.Some? && hipLine.value < 165.0)
  {
  }

  /** `evaluatePosition`: the elbow angles shoulder-elbow-wrist on each side,
      and the hip line, the angle at the left hip between the left shoulder
      and the right hip. */
  function Evaluate(m: RealMath, frame: Frame): (p: PositionResult)
    ensures 0.0 <= p.accuracy <= 100.0
    ensures !(p.isDown && p.isUp)
    // a frame without usable elbows reads as arms extended
    ensures !Usable(At(frame, LeftElbow)) && !Usable(At(frame, RightElbow)) ==>
      p.isUp && !p.isDown && p.accuracy == 10.0
    // the back rule looks only at the left shoulder and both hips
    ensures |p.feedbackRules| == 2 && p.feedbackRules[1].condition <==>
      GetAngleAtJoint(m, At(frame, LeftShoulder), At(frame, LeftHip), At(frame, RightHip)).GetOr(180.0) < 165.0
  {
    var leftElbow := GetAngleAtJoint(m, At(frame, LeftShoulder), At(frame, LeftElbow), At(frame, LeftWrist));
    var rightElbow := GetAngleAtJoint(m, At(frame, RightShoulder), At(frame, RightElbow), At(frame, RightWrist));
    var hipLine := GetAngleAtJoint(m, At(frame, LeftShoulder), At(frame, LeftHip), At(frame, RightHip));
    Position(leftElbow, rightElbow, hipLine)
  }
}
