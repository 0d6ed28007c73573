/** The jumping-jack evaluator: the left shoulder angle (arm against torso)
    and the left leg angle. */
module JumpingJackLogic {
  import opened Wrappers
  import opened Numeric
  import opened Keypoints
  import opened AngleUtils
  import opened Feedback
  import opened ExerciseTypes

  const RaiseArmsMessage: string := "Raise your arms higher"

  /** The jumping-jack assessment. An unknown shoulder angle counts as 0 for
      the up signal and the score but as 180 for the down signal and the rule;
      an unknown leg angle counts as 180. */
  function Position(shoulderAngle: Option<real>, legAngle: Option<real>): (p: PositionResult)
    ensures 0.0 <= p.accuracy <= 100.0
    // with a known shoulder angle the two signals exclude each other
    ensures shoulderAngle.Some? ==> !(p.isDown && p.isUp)
    // with an unknown one the down signal is on and the leg alone decides up
    ensures shoulderAngle.None? ==> p.isDown && (p.isUp <==> legAngle.GetOr(180.0) > 170.0)
    ensures shoulderAngle.None? ==> p.accuracy == 20.0
    ensures |p.feedbackRules| == 1 && p.feedbackRules[0].message == RaiseArmsMessage
  {
    var isUp := shoulderAngle.GetOr(0.0) < 60.0 && legAngle.GetOr(180.0) > 170.0;
    var isDown := shoulderAngle.GetOr(180.0) > 120.0;
    var accuracy := TargetScore(shoulderAngle.GetOr(0.0), 80.0);
    PositionResult(accuracy, isDown, isUp, [
      FeedbackRule(RaiseArmsMessage, !isUp && shoulderAngle.GetOr(180.0) > 90.0)
    ])
  }

  /** The signals, the score and the rule in terms of the two angles. */
  lemma PositionMeaning(shoulderAngle: Option<real>, legAngle: Option<real>)
    ensures var p := Position(shoulderAngle, legAngle);
      && (p.isUp <==> shoulderAngle.GetOr(0.0) < 60.0 && legAngle.GetOr(180.0) > 170.0)
      && (p.isDown <==> shoulderAngle.GetOr(180.0) > 120.0)
      && (p.accuracy == 100.0 <==> shoulderAngle == Some(80.0))
      && (p.feedbackRules[0].condition <==> !p.isUp && shoulderAngle.GetOr(180.0) > 90.0)
  {
  }

  /** The leg angle affects the up signal only: the down signal and the score
      do not depend on it, and the rule depends on it only through `isUp`. */
  lemma LegAffectsOnlyUp(shoulderAngle: Option<real>, leg1: Option<real>, leg2: Option<real>)
    ensures var p1, p2 := Position(shoulderAngle, leg1), Position(shoulderAngle, leg2);
      && p1.isDown == p2.isDown
      && p1.accuracy == p2.accuracy
      && (p1.isUp == p2.isUp ==> p1.feedbackRules == p2.feedbackRules)
  {
  }

  /** `evaluatePosition`: the shoulder angle elbow-shoulder-hip and the leg
      angle hip-knee-ankle, both on the left. */
  function Evaluate(m: RealMath, frame: Frame): (p: PositionResult)
    ensures 0.0 <= p.accuracy <= 100.0
    // a frame without a usable left shoulder is always "down", scoring 20
    ensures !Usable(At(frame, LeftShoulder)) ==> p.isDown && p.accuracy == 20.0
    // ... and, when the left knee is not usable either, also "up"
    ensures !Usable(At(frame, LeftShoulder)) && !Usable(At(frame, LeftKnee)) ==> p.isDown && p.isUp
  {
    var shoulderAngle := GetAngleAtJoint(m, At(frame, LeftElbow), At(frame, LeftShoulder), At(frame, LeftHip));
    var legAngle := GetAngleAtJoint(m, At(frame, LeftHip), At(frame, LeftKnee), At(frame, LeftAnkle));
    Position(shoulderAngle, legAngle)
  }
}
