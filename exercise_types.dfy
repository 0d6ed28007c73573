/** What an exercise evaluator reports for one frame. */
module ExerciseTypes {
  import opened Feedback

  /** `PositionResult`: a score, the two signals for the repetition counter and
      the candidate feedback rules in priority order. */
  datatype PositionResult = PositionResult(accuracy: real, isDown: bool, isUp: bool,
                                           feedbackRules: seq<FeedbackRule>)

  /** The result an evaluator gives when it cannot judge the frame. */
  const Neutral: PositionResult := PositionResult(50.0, false, false, [])
}
