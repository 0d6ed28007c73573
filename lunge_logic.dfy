/** The lunge evaluator: the smaller of the front (left) and back (right) knee angles. */
module LungeLogic {
  import opened Wrappers
  import opened Numeric
  import opened Keypoints
  import opened AngleUtils
  import opened Feedback
  import opened ExerciseTypes

  const DownThreshold: real := 90.0
  const UpThreshold: real := 160.0
  const TargetAngle: real := 100.0

  const LowerHipsMessage: string := "Lower your hips"
  const TorsoUprightMessage: string := "Keep torso upright"

  /** `Math.min(frontKnee ?? 180, backKnee ?? 180)`. */
  function KneeAngle(frontKnee: Option<real>, backKnee: Option<real>): real {
    Min(frontKnee.GetOr(180.0), backKnee.GetOr(180.0))
  }

  /** The lunge assessment from the two knee angles and the torso angle. */
  function Position(frontKnee: Option<real>, backKnee: Option<real>, torso: Option<real>): (p: PositionResult)
    ensures 0.0 <= p.accuracy <= 100.0
    ensures !(p.isDown && p.isUp)
    ensures p.accuracy == 100.0 <==> KneeAngle(frontKnee, backKnee) == TargetAngle
    ensures |p.feedbackRules| == 2
    ensures p.feedbackRules[0].message == LowerHipsMessage
    ensures p.feedbackRules[1].message == TorsoUprightMessage
  {
    var kneeAngle := KneeAngle(frontKnee, backKnee);
    var isDown := kneeAngle < DownThreshold;
    var isUp := kneeAngle > UpThreshold;
    var accuracy := TargetScore(kneeAngle, TargetAngle);
    PositionResult(accuracy, isDown, isUp, [
      FeedbackRule(LowerHipsMessage, !isDown && kneeAngle > 120.0),
      FeedbackRule(TorsoUprightMessage, torso.GetOr(180.0) < 150.0)
    ])
  }

  /** One known knee angle (at most 180) decides on its own; with none known
      the lunge reads as standing, scoring 20. */
  lemma KneeFallbacks(frontKnee: Option<real>, backKnee: Option<real>, torso: Option<real>)
    ensures frontKnee.Some? && frontKnee.value <= 180.0 ==> KneeAngle(frontKnee, None) == frontKnee.value
    ensures backKnee.Some? && backKnee.value <= 180.0 ==> KneeAngle(None, backKnee) == backKnee.value
    ensures var p := Position(None, None, torso);
      p.isUp && !p.isDown && p.accuracy == 20.0
  {
  }

  /** The signals, the score and the rules in terms of the knee angle; a knee
      angle from 90 to 120 degrees is neither down nor up and fires no knee rule. */
  lemma PositionMeaning(frontKnee: Option<real>, backKnee: Option<real>, torso: Option<real>)
    ensures var p, a := Position(frontKnee, backKnee, torso), KneeAngle(frontKnee, backKnee);
      && (p.isDown <==> a < 90.0)
      && (p.isUp <==> a > 160.0)
      && (Abs(a - 100.0) <= 100.0 ==> p.accuracy == 100.0 - Abs(a - 100.0))
      && (p.feedbackRules[0].condition <==> a > 120.0)
      && (90.0 <= a <= 120.0 ==> !p.isDown && !p.isUp && !p.feedbackRules[0].condition)
      && (p.feedbackRules[1].condition <==> torso.Some? && torso.value < 150.0)
  {
  }

  /** `evaluatePosition`: the front knee is the left hip-knee-ankle angle, the
      back knee the right one, the torso the left shoulder-hip-knee angle. */
  function Evaluate(m: RealMath, frame: Frame): (p: PositionResult)
    ensures 0.0 <= p.accuracy <= 100.0
    ensures !(p.isDown && p.isUp)
    ensures !Usable(At(frame, LeftKnee)) && !Usable(At(frame, RightKnee)) ==>
      p.isUp && !p.isDown && p.accuracy == 20.0
  {
    var frontKnee := GetAngleAtJoint(m, At(frame, LeftHip), At(frame, LeftKnee), At(frame, LeftAnkle));
    var backKnee := GetAngleAtJoint(m, At(frame, RightHip), At(frame, RightKnee), At(frame, RightAnkle));
    var torso := GetAngleAtJoint(m, At(frame, LeftShoulder), At(frame, LeftHip), At(frame, LeftKnee));
    Position(frontKnee, backKnee, torso)
  }
}
