# Pose-analysis engine of a webcam exercise coach

This project is a Dafny model of the engine behind a browser exercise coach.
For every camera frame, a pose estimator delivers 17 keypoints: nose, eyes,
ears, shoulders, elbows, wrists, hips, knees and ankles. Each keypoint has a
position and an optional confidence score. The engine runs in four stages:

1. It smooths the keypoints over the last four frames.
2. One of five exercise evaluators turns the frame into an assessment. The
   five are squat, push-up, lunge, jumping jack and head rotation. An
   assessment is a "down" signal, an "up" signal, an accuracy score and an
   ordered list of candidate feedback messages.
3. A three-phase state machine counts repetitions from the two signals.
4. A debouncer decides when one of the messages is spoken.

Modules, leaves first:

| file | module | models |
|---|---|---|
| `wrappers.dfy` | `Wrappers` | `Option`, for `null`/`undefined`, and `GetOr`, for `??` |
| `numeric.dfy` | `Numeric` | `Math.abs/min/max`, the percentage clamp, sums and means, and the library functions `sqrt`, `acos` and `atan` |
| `keypoints.dfy` | `Keypoints` | the keypoint record and the 17 keypoint indices |
| `angle_utils.dfy` | `AngleUtils` | `getAngleAtJoint`, `averageAngle` |
| `exercise_types.dfy` | `ExerciseTypes` | `PositionResult` and the neutral result |
| `squat_logic.dfy` … `head_rotation_logic.dfy` | one module per evaluator | `evaluatePosition` of each exercise |
| `state_machine.dfy` | `StateMachine` | `ExerciseStateMachine` |
| `feedback_engine.dfy` | `Feedback` | `FeedbackEngine` |
| `base_exercise.dfy` | `BaseExercise` | `BaseExerciseLogic`, with dispatch over the five evaluators |
| `camera_view.dfy` | `CameraView` | the keypoint smoother and the choice of evaluator by exercise name |

How the model is organised:

- **Pure code** becomes functions with lemmas. That covers the angle
  helpers, the evaluators, the dispatch, and the averaging inside the
  smoother.
- **State changed in place** becomes classes whose methods are proved
  against pure specification functions, and the properties are proved about
  those functions:
  - `ExerciseStateMachine.Update` is proved against `StateMachine.Step`.
  - `FeedbackEngine.Evaluate` is proved against `Feedback.Step`.
  - `ExerciseLogic.Update` is proved against `BaseExercise.Apply`.
  - `KeypointSmoother.Smooth` is proved against `CameraView.Push` and
    `CameraView.SmoothFrame`.
- **Sessions** are modelled by `StateMachine.Run`, `Feedback.Run` and
  `BaseExercise.Replay`, which fold a sequence of calls.

Choices that shape the model:

- **Feedback conditions are values.** Every feedback condition in the
  evaluators is a closure over constants of the frame that built it. So
  `FeedbackRule` carries the boolean the closure returns.
- **Rule identity is an index.** The debouncer compares rule objects by
  reference. Rule lists are fixed, so the model tracks a rule by its index
  in the list.
- **Clock readings are parameters.** `Date.now()` in the debouncer becomes
  the `now` parameter of `Evaluate`, `Step` and `Update`. The sample
  timestamp is never read by any evaluator, so frames carry none.
- **Library maths is a parameter.** `Math.sqrt`, `Math.acos` and
  `Math.atan` are the three fields of a `RealMath` value. `ValidMath(m)`
  states the laws the proofs use:
  - `sqrt` is non-negative on non-negative arguments, and zero only at zero;
  - `acos` maps [-1, 1] into [0, PI];
  - `atan` lies strictly between -PI/2 and PI/2, and `atan(0)` is 0.

Behaviours of the code that the proofs make explicit:

- **The debouncer is frozen to the first frame.** The facade builds it
  once, from the first frame's rules
  (`lib/exerciseLogic/BaseExercise.ts:40-42`). Those rules' conditions
  close over that frame's values, so which rule is true never changes
  again in the session. `BaseExercise.ReplayFeedback` shows that
  afterwards the feedback is a function of the clock readings alone.
  `BaseExercise.FeedbackFollowsFirstFrame` shows that two sessions whose
  first frames yield the same rules speak identically on every frame.
  Conditions evaluated afresh on every frame look like the intent. The
  model follows the code.
- **A spoken rule can repeat without being sustained again.** After
  speaking, the debouncer resets the sustain start to 0 rather than to
  `now` (`lib/feedbackEngine.ts:55`). A rule that stays first-true is
  therefore spoken again at the first call after the cooldown, without a
  new sustain period (`Feedback.ReEmitAfterCooldown`). The inline comment
  says the rule "won't speak again until condition changes". The model
  follows the code.
- **An empty frame counts jumping jacks.** With nobody in view, the frame
  is empty, so the jumping jack's shoulder angle is unknown. That raises
  both signals at once. From any phase but up, each such frame counts one
  repetition (`BaseExercise.UnseenJumpingJacksCount`); from up, the first
  empty frame only returns the machine to down. A squat session that has not
  started never starts on empty frames
  (`BaseExercise.UnseenSquatsDoNotCount`).

## Model

| member | source | states |
|---|---|---|
| Keypoints.At | lib/exerciseLogic/squatLogic.ts:11-23 | a keypoint index gives a keypoint exactly when it is inside the frame, and then the keypoint at that index |
| Numeric.ClampPercent | lib/exerciseLogic/squatLogic.ts:39 | `min(100, max(0, v))` lies in [0, 100]; it is `v` inside that range, 0 below it and 100 above it |
| Numeric.TargetScore | lib/exerciseLogic/squatLogic.ts:39 | the score lies in [0, 100]; it is 100 exactly at the target; within 100 degrees of the target it is 100 minus the distance, and 0 farther away |
| Numeric.SumBounds | lib/angleUtils.ts:58 | a sum of n values, each in [lo, hi], lies in [n·lo, n·hi] |
| Numeric.MeanBounds | lib/angleUtils.ts:58-59 | a mean lies in every interval that contains all of its values |
| Numeric.MeanOfConstant | components/CameraView.tsx:187-189 | the mean of equal values is that value |
| AngleUtils.RaySquared | lib/angleUtils.ts:33-34 | a squared ray length is non-negative, and zero exactly when the point coincides with the joint |
| AngleUtils.GetAngleAtJoint | lib/angleUtils.ts:12-47 | a known angle implies all three points are present and scored at least 0.3; under the library laws a known angle lies in [0, 180] because of the clamp |
| AngleUtils.DegreesFromRadians | lib/angleUtils.ts:44 | maps [0, PI] radians into [0, 180] degrees |
| AngleUtils.GetAngleUnknown | lib/angleUtils.ts:17-37 | the angle is unknown if and only if a point is missing, a score is missing or below 0.3, or a point coincides with the joint |
| AngleUtils.GetAngleScoreBoundary | lib/angleUtils.ts:19 | scores of exactly 0.3 are accepted, and a joint score below 0.3 makes the angle unknown |
| AngleUtils.GetAngleSymmetric | lib/angleUtils.ts:22-44 | swapping the two outer points gives the same result |
| AngleUtils.Known | lib/angleUtils.ts:55 | the known angles: no more than the list holds, empty exactly when none is known, each one taken from the list, and every known entry kept |
| AngleUtils.KnownConcat | lib/angleUtils.ts:55 | the known angles of a concatenation are those of each part in turn, so the filter keeps every known entry in list order |
| AngleUtils.AverageOfTwo | lib/angleUtils.ts:55-59 | two known angles average to their midpoint |
| AngleUtils.AverageAngle | lib/angleUtils.ts:54-60 | the average is unknown exactly when no angle is known, including for the empty list |
| AngleUtils.AverageAngleBounds | lib/angleUtils.ts:55-59 | the average lies in every interval that holds all known angles, so between their minimum and maximum |
| AngleUtils.AverageAngleSingle | lib/angleUtils.ts:55-59 | a single known angle among unknowns is returned unchanged |
| SquatLogic.HipAngleCases | lib/exerciseLogic/squatLogic.ts:34 | with both knees unknown the hip angle is 180; one known knee angle is taken as it is; with two known, the hip angle is their midpoint |
| SquatLogic.Position | lib/exerciseLogic/squatLogic.ts:37-53 | accuracy lies in [0, 100]; down and up exclude each other; accuracy is 100 exactly at a 90° hip angle; the two rules come in source order with their messages |
| SquatLogic.BothKneesUnknown | lib/exerciseLogic/squatLogic.ts:34-39 | with both knees unknown the squat reads up, not down, with accuracy 10 |
| SquatLogic.PositionMeaning | lib/exerciseLogic/squatLogic.ts:37-53 | down iff the angle is below 70; up iff it is above 160; the linear score; the knee rule iff the angle is above 120; the back rule iff the torso angle is known and below 150 |
| SquatLogic.Evaluate | lib/exerciseLogic/squatLogic.ts:26-56 | over a whole frame: the score bounds and signal exclusivity hold, and a frame without usable knees reads up with accuracy 10 |
| PushupLogic.Position | lib/exerciseLogic/pushupLogic.ts:31-49 | accuracy lies in [0, 100]; down and up exclude each other; accuracy is 100 exactly at a 90° elbow angle; the two rules come in source order with their messages |
| PushupLogic.ElbowFallbacks | lib/exerciseLogic/pushupLogic.ts:31-34 | with both elbows unknown the push-up reads up, not down, with accuracy 10; one known elbow angle (at most 180) decides on its own |
| PushupLogic.PositionMeaning | lib/exerciseLogic/pushupLogic.ts:32-49 | down iff the angle is below 70; up iff it is above 160; the linear score; the chest rule iff the angle is above 130; the back rule iff the hip line is known and below 165 |
| PushupLogic.Evaluate | lib/exerciseLogic/pushupLogic.ts:21-51 | over a whole frame: the score bounds and exclusivity hold; a frame without usable elbows reads up with accuracy 10; the back rule reads the angle at the left hip between the left shoulder and the right hip |
| LungeLogic.Position | lib/exerciseLogic/lungeLogic.ts:24-42 | accuracy lies in [0, 100]; down and up exclude each other; accuracy is 100 exactly at a 100° knee angle; the two rules come in source order with their messages |
| LungeLogic.KneeFallbacks | lib/exerciseLogic/lungeLogic.ts:24-27 | one known knee angle (at most 180) decides on its own; with none known the lunge reads up with accuracy 20 |
| LungeLogic.PositionMeaning | lib/exerciseLogic/lungeLogic.ts:25-41 | down iff the angle is below 90; up iff it is above 160; the linear score; the hips rule iff the angle is above 120, so an angle in [90, 120] fires neither knee rule; the torso rule iff the torso angle is known and below 150 |
| LungeLogic.Evaluate | lib/exerciseLogic/lungeLogic.ts:18-44 | over a whole frame: the score bounds and exclusivity hold, and a frame without usable knees reads up with accuracy 20 |
| JumpingJackLogic.Position | lib/exerciseLogic/jumpingJackLogic.ts:25-38 | accuracy lies in [0, 100]; with a known shoulder angle the signals exclude each other; with an unknown one, down holds, up is `(leg ?? 180) > 170`, and accuracy is 20; one rule with its message |
| JumpingJackLogic.PositionMeaning | lib/exerciseLogic/jumpingJackLogic.ts:25-37 | both signals with their asymmetric fallbacks; accuracy is 100 exactly at a known 80° shoulder angle; the rule iff not up and `(shoulder ?? 180) > 90` |
| JumpingJackLogic.LegAffectsOnlyUp | lib/exerciseLogic/jumpingJackLogic.ts:23-27 | the leg angle changes neither the down signal nor the score, and it reaches the rule only through the up signal |
| JumpingJackLogic.Evaluate | lib/exerciseLogic/jumpingJackLogic.ts:20-40 | over a whole frame: accuracy lies in [0, 100]; without a usable left shoulder the result reads down with accuracy 20; if the left knee is not usable either, it also reads up |
| HeadRotationLogic.DirectionOf | lib/exerciseLogic/headRotationLogic.ts:62-69 | center iff \|offset\| < 0.2; right iff offset ≥ 0.2; left iff offset ≤ -0.2 |
| HeadRotationLogic.ShoulderAngle | lib/exerciseLogic/headRotationLogic.ts:87-89 | the shoulder-line angle is non-negative; under the library laws it is at most 90, and 0 for level, distinct shoulders |
| HeadRotationLogic.Measure | lib/exerciseLogic/headRotationLogic.ts:24-88 | a measurement exists only if all five keypoints are present; when they are, it is missing exactly when the ears are closer than 20; the shoulder angle lies in [0, 90] |
| HeadRotationLogic.Position | lib/exerciseLogic/headRotationLogic.ts:62-113 | accuracy lies in [35, 100]; down iff \|offset\| > 0.3; up iff \|offset\| < 0.2; never both; three rules in source order with their messages |
| HeadRotationLogic.RulesMeaning | lib/exerciseLogic/headRotationLogic.ts:99-112 | "rotate more" iff 0.3 < \|offset\| < 0.35; "shoulders level" iff the level exceeds 10; "return to center" iff \|offset\| > 0.5; the first and third never fire together, and the third implies down |
| HeadRotationLogic.PerfectScore | lib/exerciseLogic/headRotationLogic.ts:82-93 | accuracy is 100 exactly when \|offset\| ≥ 0.6 and the shoulders are level |
| HeadRotationLogic.Evaluate | lib/exerciseLogic/headRotationLogic.ts:21-114 | accuracy lies in [0, 100]; the signals exclude each other; a frame missing a keypoint, or whose ears are closer than 20, gives the neutral result (accuracy 50, no signal, no rule); the rule list is empty exactly when the frame cannot be measured |
| HeadRotationLogic.ScoresIgnored | lib/exerciseLogic/headRotationLogic.ts:31-59 | confidence scores play no part: frames that agree on every position give the same measurement and the same result |
| StateMachine.Step | lib/stateMachine.ts:9-20 | at most one repetition per call, counted exactly on the pass from down to up; idle is never re-entered; up is never reached from idle directly; ending in up means no down signal this call |
| StateMachine.StepQuiet | lib/stateMachine.ts:10-19 | with neither signal, a call changes nothing |
| StateMachine.StepBothSignalsFromIdle | lib/stateMachine.ts:10-19 | with both signals, an idle machine goes through down and up back to down in one call and counts one repetition |
| StateMachine.RunMonotone | lib/stateMachine.ts:13-16 | over any sequence of calls the count never falls, grows by at most one per call, and a machine that has left idle never returns to it |
| StateMachine.IdleNeedsDown | lib/stateMachine.ts:10-12 | without a down signal the machine stays idle whatever the up signals |
| StateMachine.ExerciseStateMachine.constructor | lib/stateMachine.ts:4-7 | starts idle with count 0 |
| StateMachine.ExerciseStateMachine.Update | lib/stateMachine.ts:9-20 | the new fields are `Step` of the old ones, and the returned pair equals them |
| StateMachine.ExerciseStateMachine.Reset | lib/stateMachine.ts:23-26 | back to idle with count 0 |
| Feedback.Conditions | lib/feedbackEngine.ts:24 | one condition value per rule, in rule order |
| Feedback.FirstTrue | lib/feedbackEngine.ts:24 | the index of a true condition with none true before it, and none exactly when no condition is true |
| Feedback.Step | lib/feedbackEngine.ts:20-58 | afterwards the tracked rule is the first-true rule; a message is spoken only for the rule tracked already, after the sustain period and the cooldown; the last-spoken time moves only when it speaks |
| Feedback.StepSilent | lib/feedbackEngine.ts:27-49 | with no true rule: clear and reset the start to 0; with a new rule: record it with start `now`; sustain or cooldown unmet: no change |
| Feedback.StepSpeaks | lib/feedbackEngine.ts:52-57 | a call that speaks keeps the rule, records `now` as last spoken and resets the start to 0 |
| Feedback.ReEmitAfterCooldown | lib/feedbackEngine.ts:41-55 | after speaking, a rule that stays first-true is spoken again at the first call after the cooldown |
| Feedback.Run | lib/feedbackEngine.ts:20-58 | a run speaks at most once per call |
| Feedback.EmissionsSpaced | lib/feedbackEngine.ts:47-53 | any two messages are at least the cooldown apart, and so is the first from the last one before the run |
| Feedback.SustainedBeforeSpeaking | lib/feedbackEngine.ts:41-44 | while the tracked rule stays first-true, the first message comes at least the sustain period after its start |
| Feedback.RuleMustBeSustained | lib/feedbackEngine.ts:34-44 | a newly first-true rule is not spoken before the sustain period has passed since it became first-true |
| Feedback.OscillationIsSilent | lib/feedbackEngine.ts:34-38 | if the first-true rule changes on every call, nothing is ever spoken |
| Feedback.SustainRestartScenario | lib/feedbackEngine.ts:27-44 | a false reading restarts the sustain period: true at T, false at T+1000, then true from T+1100 is first spoken at T+3100 |
| Feedback.FeedbackEngine.constructor | lib/feedbackEngine.ts:14-18 | keeps the rules and timings given (defaults 5000 and 2000), with nothing tracked and nothing spoken |
| Feedback.FeedbackEngine.Evaluate | lib/feedbackEngine.ts:20-58 | the new tracker is `Step` of the old one on the rules' conditions, and the result is the message of the rule `Step` speaks |
| BaseExercise.EvaluatePosition | lib/exerciseLogic/BaseExercise.ts:36 | every evaluator's accuracy lies in [0, 100], and only the jumping jack can raise both signals |
| BaseExercise.ObservedDirection | lib/exerciseLogic/headRotationLogic.ts:17-78 | a direction is recorded only by the head rotation evaluator and only for a measurable frame; it is center exactly when \|offset\| < 0.2 |
| BaseExercise.Apply | lib/exerciseLogic/BaseExercise.ts:38-46 | the evaluation is recorded before the counter runs on its signals; reps, phase and accuracy come from this call; the debouncer is built from the first frame's rules and keeps them; feedback is absent or one of those rules' messages; the direction is kept unless a new one is recorded |
| BaseExercise.Replay | lib/exerciseLogic/BaseExercise.ts:38-46 | one result per frame |
| BaseExercise.ReplayCountsReps | lib/exerciseLogic/BaseExercise.ts:28-43 | a session's count and phase are the state machine run on the evaluators' signals, frame by frame |
| BaseExercise.ReplayFeedback | lib/exerciseLogic/BaseExercise.ts:40-44 | once built, the debouncer's state over a session is the debouncer run on the clock readings with its own rules' conditions held fixed |
| BaseExercise.FeedbackIgnoresFrames | lib/exerciseLogic/BaseExercise.ts:40-44 | sessions whose debouncers agree speak the same messages at the same frames whatever the frames are |
| BaseExercise.FeedbackFollowsFirstFrame | lib/exerciseLogic/BaseExercise.ts:40-44 | from a new session, the first frame's rules and the clock decide the feedback of every frame |
| BaseExercise.UnseenSignals | lib/exerciseLogic/jumpingJackLogic.ts:25-26 | an empty frame raises both signals for the jumping jack and only the up signal for the squat |
| BaseExercise.UnseenJumpingJacksCount | lib/stateMachine.ts:10-19 | with nobody in view, a jumping-jack session that is not in up counts one repetition per frame |
| BaseExercise.UnseenSquatsDoNotCount | lib/exerciseLogic/squatLogic.ts:34-38 | with nobody in view, a squat session that has not started stays idle |
| BaseExercise.ExerciseLogic.constructor | lib/exerciseLogic/BaseExercise.ts:24-34 | a new machine, no debouncer, no last position, direction center; both predicates read false |
| BaseExercise.ExerciseLogic.Update | lib/exerciseLogic/BaseExercise.ts:38-46 | the new state and the result are `Apply` of the old state and this frame's evaluation; an existing debouncer is kept, and a missing one is created fresh |
| CameraView.LogicFor | components/CameraView.tsx:25-38 | "pushup", "lunge", "jumpingjack" and "headrotation" select their evaluators; any other name selects the squat |
| CameraView.Push | components/CameraView.tsx:183-184 | the buffer holds at most 4 frames, the current one first, followed by the newest of the older ones in order |
| CameraView.SmoothFrame | components/CameraView.tsx:185-191 | the output has one keypoint per current keypoint, with the current keypoint's name and a score |
| CameraView.SmoothStaysInside | components/CameraView.tsx:185-190 | each smoothed keypoint stays in every box, and its score in every interval, that contains that keypoint in all buffered frames; a missing keypoint is replaced by the current one and a missing score counts as 0 |
| CameraView.SmoothSteady | components/CameraView.tsx:186-190 | a pose held for the whole window comes out unchanged, apart from a missing score becoming 0 |
| CameraView.WindowSettles | components/CameraView.tsx:183-184 | after the same frame arrives four times, the window holds only that frame |
| CameraView.KeypointSmoother.constructor | components/CameraView.tsx:39 | the buffer starts empty |
| CameraView.KeypointSmoother.Smooth | components/CameraView.tsx:182-193 | the buffer becomes `Push` of the old buffer, and the output is the smoothed frame over the new buffer |

## Left out

- Camera acquisition, the animation-frame loop, error messages and cleanup in `components/CameraView.tsx` are left out. They are browser I/O. The loop hands each smoothed frame to `update`; the model gives the frame to `ExerciseLogic.Update` directly.
- The pose estimator (`lib/poseDetector.ts`) is not part of this model. Keypoints are inputs.
- `FeedbackEngine.speak` is left out. It is a speech-synthesis side effect. The message it would speak is the result of `Evaluate`.
- Floating point is left out. Values are reals, so the model has no rounding, no NaN and no infinities. `Math.sqrt`, `Math.acos` and `Math.atan` are parameters constrained only by `ValidMath`.
- HeadRotationLogic.ShoulderAngle: when both shoulders share an x coordinate, the slope is infinite. The model gives the 90° its arctangent yields. The 0/0 case (identical shoulders) yields NaN in the source, and the model still gives 90.
- Sparse keypoint arrays are left out. A keypoint is missing only when its index lies past the end of the frame.
- The sample timestamp (`performance.now()`) is left out. No evaluator reads it.
- Exercises are identified by the `Exercise` datatype. The class hierarchy and the abstract `evaluatePosition` become dispatch in `BaseExercise.EvaluatePosition`.
