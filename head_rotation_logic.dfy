/** The head-rotation evaluator. Unlike the angle-based evaluators it reads
    raw positions: the nose's horizontal offset from the midpoint of the ears,
    normalised by the ear distance, and the slope of the shoulder line. */
module HeadRotationLogic {
  import opened Wrappers
  import opened Numeric
  import opened Keypoints
  import opened Feedback
  import opened ExerciseTypes

  datatype Direction = Left | Right | Center

  const CenterThreshold: real := 0.2
  const RotationThreshold: real := 0.3
  /** Ears closer than this (in pixels) are taken as a failed detection. */
  const MinEarDistance: real := 20.0

  const RotateMoreMessage: string := "Rotate your head more to the side"
  const ShouldersLevelMessage: string := "Keep your shoulders level"
  const ReturnToCenterMessage: string := "Return to center position"

  /** What the evaluator takes from a frame whose keypoints it can use. */
  datatype Measurement = Measurement(noseOffset: real, shoulderAngle: real)

  /** Centred within the centre threshold, otherwise the side the nose points to. */
  function DirectionOf(offset: real): (d: Direction)
    ensures d == Center <==> Abs(offset) < CenterThreshold
    ensures d == Right <==> offset >= CenterThreshold
    ensures d == Left <==> offset <= -CenterThreshold
  {
    if Abs(offset) < CenterThreshold then Center
    else if offset > 0.0 then Right
    else Left
  }

  /** The five keypoints the evaluator needs are present; their confidence
      scores are not consulted. */
  predicate Present(frame: Frame) {
    && At(frame, Nose).Some? && At(frame, LeftEar).Some? && At(frame, RightEar).Some?
    && At(frame, LeftShoulder).Some? && At(frame, RightShoulder).Some?
  }

  /** `Math.sqrt((rx - lx)^2 + (ry - ly)^2)`. */
  function EarDistance(m: RealMath, leftEar: Keypoint, rightEar: Keypoint): real {
    m.sqrt(Sq(rightEar.x - leftEar.x) + Sq(rightEar.y - leftEar.y))
  }

  /** `|atan(slope) * 180 / PI|` for the shoulder line. A vertical shoulder
      line (equal x) has an infinite slope, whose arctangent is a right angle. */
  function ShoulderAngle(m: RealMath, leftShoulder: Keypoint, rightShoulder: Keypoint): (a: real)
    ensures 0.0 <= a
    ensures ValidMath(m) ==> a <= 90.0
    ensures ValidMath(m) && leftShoulder.y == rightShoulder.y && leftShoulder.x != rightShoulder.x ==> a == 0.0
  {
    var dx := rightShoulder.x - leftShoulder.x;
    var dy := rightShoulder.y - leftShoulder.y;
    if dx == 0.0 then 90.0 else Abs(m.atan(dy / dx) * (180.0 / PI))
  }

  /** The measurement, or None when a keypoint is missing or the ears are
      closer than `MinEarDistance`. */
  function Measure(m: RealMath, frame: Frame): (r: Option<Measurement>)
    ensures r.Some? ==> Present(frame)
    ensures Present(frame) ==>
      (r.None? <==> EarDistance(m, frame[LeftEar], frame[RightEar]) < MinEarDistance)
    ensures r.Some? ==> 0.0 <= r.value.shoulderAngle
    ensures ValidMath(m) && r.Some? ==> r.value.shoulderAngle <= 90.0
  {
    if !Present(frame) then None
    else
      var nose, leftEar, rightEar := frame[Nose], frame[LeftEar], frame[RightEar];
      var earCenterX := (leftEar.x + rightEar.x) / 2.0;
      var earDistance := EarDistance(m, leftEar, rightEar);
      if earDistance < MinEarDistance then None
      else
        var noseOffset := (nose.x - earCenterX) / earDistance;
        Some(Measurement(noseOffset, ShoulderAngle(m, frame[LeftShoulder], frame[RightShoulder])))
  }

  /** The assessment of a usable frame: down when the head is turned past the
      rotation threshold, up when it is centred; the score weighs the rotation
      (70%) against level shoulders (30%). */
  function Position(meas: Measurement): (p: PositionResult)
    ensures 35.0 <= p.accuracy <= 100.0
    ensures p.isDown <==> Abs(meas.noseOffset) > RotationThreshold
    ensures p.isUp <==> Abs(meas.noseOffset) < CenterThreshold
    ensures !(p.isDown && p.isUp)
    ensures |p.feedbackRules| == 3
    ensures p.feedbackRules[0].message == RotateMoreMessage
    ensures p.feedbackRules[1].message == ShouldersLevelMessage
    ensures p.feedbackRules[2].message == ReturnToCenterMessage
  {
    var offset := meas.noseOffset;
    var direction := DirectionOf(offset);
    var isDown := direction != Center && Abs(offset) > RotationThreshold;
    var isUp := direction == Center && Abs(offset) < CenterThreshold;
    var maxRotation := Max(0.3, Min(0.6, Abs(offset)));
    var rotationAccuracy := ClampPercent(maxRotation / 0.6 * 100.0);
    var shoulderLevel := Abs(meas.shoulderAngle);
    var postureAccuracy := Max(0.0, 100.0 - shoulderLevel * 3.0);
    var accuracy := rotationAccuracy * 0.7 + postureAccuracy * 0.3;
    PositionResult(accuracy, isDown, isUp, [
      FeedbackRule(RotateMoreMessage, isDown && Abs(offset) < 0.35),
      FeedbackRule(ShouldersLevelMessage, shoulderLevel > 10.0),
      FeedbackRule(ReturnToCenterMessage, !isUp && direction != Center && Abs(offset) > 0.5)
    ])
  }

  /** The three rules in terms of the measurement: "rotate more" only in the
      band just past the rotation threshold, "return to center" only far out,
      so the two never fire together. */
  lemma RulesMeaning(meas: Measurement)
    ensures var p, off := Position(meas), Abs(meas.noseOffset);
      && (p.feedbackRules[0].condition <==> 0.3 < off < 0.35)
      && (p.feedbackRules[1].condition <==> Abs(meas.shoulderAngle) > 10.0)
      && (p.feedbackRules[2].condition <==> off > 0.5)
      && !(p.feedbackRules[0].condition && p.feedbackRules[2].condition)
      && (p.feedbackRules[2].condition ==> p.isDown)
  {
  }

  /** A full score needs a rotation of at least 0.6 ear distances and level
      shoulders, and nothing less gives one. */
  lemma PerfectScore(meas: Measurement)
    ensures Position(meas).accuracy == 100.0 <==>
      Abs(meas.noseOffset) >= 0.6 && meas.shoulderAngle == 0.0
  {
  }

  /** The evaluator: the neutral result when the frame cannot be measured. */
  function Evaluate(m: RealMath, frame: Frame): (p: PositionResult)
    ensures 0.0 <= p.accuracy <= 100.0
    ensures !(p.isDown && p.isUp)
    ensures !Present(frame) ==> p == Neutral
    // ears closer than `MinEarDistance` give the neutral result too
    ensures Measure(m, frame).None? ==> p == Neutral
    ensures p.feedbackRules == [] <==> Measure(m, frame).None?
  {
    match Measure(m, frame)
    case None => Neutral
    case Some(meas) => Position(meas)
  }

  /** Confidence scores and names play no part: frames that agree on every
      position give the same measurement and the same assessment. */
  lemma ScoresIgnored(m: RealMath, f1: Frame, f2: Frame)
    requires |f1| == |f2|
    requires forall i :: 0 <= i < |f1| ==> f1[i].x == f2[i].x && f1[i].y == f2[i].y
    ensures Measure(m, f1) == Measure(m, f2)
    ensures Evaluate(m, f1) == Evaluate(m, f2)
  {
  }
}
