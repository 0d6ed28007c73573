/** The engine facade: one exercise's evaluator, repetition counter and
    feedback debouncer, driven once per frame. */
module BaseExercise {
  import opened Wrappers
  import opened Numeric
  import opened Keypoints
  import opened Feedback
  import StateMachine
  import opened ExerciseTypes
  import SquatLogic
  import PushupLogic
  import LungeLogic
  import JumpingJackLogic
  import HeadRotationLogic

  /** The closed set of evaluators. */
  datatype Exercise = Squat | Pushup | Lunge | JumpingJack | HeadRotation

  /** What one frame produces. */
  datatype ExerciseResult = ExerciseResult(reps: nat, state: StateMachine.Phase, accuracy: real, feedback: Option<string>)

  /** `evaluatePosition`, dispatched on the exercise. */
  function EvaluatePosition(m: RealMath, exercise: Exercise, frame: Frame): (p: PositionResult)
    ensures 0.0 <= p.accuracy <= 100.0
    // only the jumping jack can raise both signals at once
    ensures exercise != JumpingJack ==> !(p.isDown && p.isUp)
  {
    match exercise
    case Squat => SquatLogic.Evaluate(m, frame)
    case Pushup => PushupLogic.Evaluate(m, frame)
    case Lunge => LungeLogic.Evaluate(m, frame)
    case JumpingJack => JumpingJackLogic.Evaluate(m, frame)
    case HeadRotation => HeadRotationLogic.Evaluate(m, frame)
  }

  /** A debouncer as the facade holds it: its fixed rule list and its state. */
  datatype Engine = Engine(rules: seq<FeedbackRule>, tracker: Tracker)

  /** Everything the facade keeps between frames. `lastDirection` is the head
      rotation evaluator's own field, which it writes and never reads. */
  datatype Session = Session(
    machine: StateMachine.RepState,
    engine: Option<Engine>,
    lastPosition: Option<PositionResult>,
    lastDirection: HeadRotationLogic.Direction)

  const NewSession: Session := Session(StateMachine.Initial, None, None, HeadRotationLogic.Center)

  datatype Outcome = Outcome(next: Session, result: ExerciseResult)

  /** The direction the head rotation evaluator records for a frame, when it
      records one: only for that exercise and only for a measurable frame. */
  function ObservedDirection(m: RealMath, exercise: Exercise, frame: Frame): (d: Option<HeadRotationLogic.Direction>)
    ensures d.Some? <==> exercise == HeadRotation && HeadRotationLogic.Measure(m, frame).Some?
    ensures d.Some? ==> (d.value == HeadRotationLogic.Center <==>
      Abs(HeadRotationLogic.Measure(m, frame).value.noseOffset) < HeadRotationLogic.CenterThreshold)
  {
    if exercise != HeadRotation then None
    else
      match HeadRotationLogic.Measure(m, frame)
      case Some(meas) => Some(HeadRotationLogic.DirectionOf(meas.noseOffset))
      case None => None
  }

  /** What `update` does with the evaluator's verdict on a frame: record it,
      build the debouncer from its rules if there is none yet, step the
      counter on its signals and let the debouncer run at clock reading `now`. */
  function Apply(s: Session, p: PositionResult, direction: Option<HeadRotationLogic.Direction>, now: int): (o: Outcome)
    ensures o.next.lastPosition == Some(p)
    ensures o.next.machine == StateMachine.Step(s.machine, p.isDown, p.isUp)
    ensures o.result.reps == o.next.machine.reps && o.result.state == o.next.machine.phase
    ensures o.result.accuracy == p.accuracy
    ensures o.next.lastDirection == direction.GetOr(s.lastDirection)
    ensures o.next.engine.Some?
    // the rule list is the first frame's, for good
    ensures s.engine.Some? ==> o.next.engine.value.rules == s.engine.value.rules
    ensures s.engine.None? ==> o.next.engine.value.rules == p.feedbackRules
    // a message, when there is one, is one of those rules' messages
    ensures o.result.feedback.Some? ==>
      exists i :: 0 <= i < |o.next.engine.value.rules| && o.result.feedback.value == o.next.engine.value.rules[i].message
  {
    var engine := if s.engine.Some? then s.engine.value else Engine(p.feedbackRules, InitialTracker);
    var machine := StateMachine.Step(s.machine, p.isDown, p.isUp);
    var v := Step(engine.tracker, Conditions(engine.rules), now, DefaultCooldownMs, DefaultMinConditionDuration);
    var feedback := if v.spoken.Some? then Some(engine.rules[v.spoken.value].message) else None;
    Outcome(Session(machine, Some(Engine(engine.rules, v.next)), Some(p), direction.GetOr(s.lastDirection)),
            ExerciseResult(machine.reps, machine.phase, p.accuracy, feedback))
  }

  /** One frame as the facade sees it: the evaluator's verdict, the recorded
      direction and the clock reading taken while processing it. */
  datatype Observation = Observation(position: PositionResult, direction: Option<HeadRotationLogic.Direction>, now: int)

  /** One frame and the clock reading taken while processing it. */
  datatype Sample = Sample(frame: Frame, now: int)

  function Observe(m: RealMath, exercise: Exercise, sample: Sample): Observation {
    Observation(EvaluatePosition(m, exercise, sample.frame), ObservedDirection(m, exercise, sample.frame), sample.now)
  }

  function Observations(m: RealMath, exercise: Exercise, samples: seq<Sample>): (obs: seq<Observation>)
    ensures |obs| == |samples|
  {
    seq(|samples|, i requires 0 <= i < |samples| => Observe(m, exercise, samples[i]))
  }

  /** A session: the final state and the result of every frame. */
  function Replay(s: Session, obs: seq<Observation>): (r: (Session, seq<ExerciseResult>))
    ensures |r.1| == |obs|
    decreases |obs|
  {
    if obs == [] then (s, [])
    else
      var o := Apply(s, obs[0].position, obs[0].direction, obs[0].now);
      var rest := Replay(o.next, obs[1..]);
      (rest.0, [o.result] + rest.1)
  }

  /** The (down, up) signals of each frame. */
  function Signals(obs: seq<Observation>): (sig: seq<(bool, bool)>)
    ensures |sig| == |obs|
  {
    seq(|obs|, i requires 0 <= i < |obs| => (obs[i].position.isDown, obs[i].position.isUp))
  }

  /** The repetition count of a session is the state machine run on the
      evaluator's signals, frame by frame. */
  lemma {:induction false} ReplayCountsReps(s: Session, obs: seq<Observation>)
    ensures Replay(s, obs).0.machine == StateMachine.Run(s.machine, Signals(obs))
    decreases |obs|
  {
    if obs != [] {
      var o := Apply(s, obs[0].position, obs[0].direction, obs[0].now);
      ReplayCountsReps(o.next, obs[1..]);
      assert Signals(obs)[1..] == Signals(obs[1..]);
    }
  }

  /** The clock readings of a session, each paired with one fixed list of
      condition values. */
  function TicksAt(conds: seq<bool>, obs: seq<Observation>): (ticks: seq<Tick>)
    ensures |ticks| == |obs|
  {
    seq(|obs|, i requires 0 <= i < |obs| => Tick(obs[i].now, conds))
  }

  /** Once the debouncer exists, its state over a session is the debouncer
      run on the clock readings alone, with its rules' conditions held fixed:
      the frames play no part. */
  lemma {:induction false} ReplayFeedback(s: Session, obs: seq<Observation>)
    requires s.engine.Some?
    ensures var e := s.engine.value;
      Replay(s, obs).0.engine ==
        Some(Engine(e.rules, Run(e.tracker, TicksAt(Conditions(e.rules), obs), DefaultCooldownMs, DefaultMinConditionDuration).0))
    decreases |obs|
  {
    if obs != [] {
      var e := s.engine.value;
      var o := Apply(s, obs[0].position, obs[0].direction, obs[0].now);
      ReplayFeedback(o.next, obs[1..]);
      assert TicksAt(Conditions(e.rules), obs)[1..] == TicksAt(Conditions(e.rules), obs[1..]);
    }
  }

  /** Two sessions whose debouncers agree give the same feedback on every
      frame as long as the clock readings agree, whatever the frames. */
  lemma {:induction false} FeedbackIgnoresFrames(s1: Session, s2: Session, obs1: seq<Observation>, obs2: seq<Observation>)
    requires s1.engine.Some? && s1.engine == s2.engine
    requires |obs1| == |obs2|
    requires forall i :: 0 <= i < |obs1| ==> obs1[i].now == obs2[i].now
    ensures forall i :: 0 <= i < |obs1| ==> Replay(s1, obs1).1[i].feedback == Replay(s2, obs2).1[i].feedback
    decreases |obs1|
  {
    if obs1 != [] {
      var o1 := Apply(s1, obs1[0].position, obs1[0].direction, obs1[0].now);
      var o2 := Apply(s2, obs2[0].position, obs2[0].direction, obs2[0].now);
      FeedbackIgnoresFrames(o1.next, o2.next, obs1[1..], obs2[1..]);
      forall i | 0 < i < |obs1|
        ensures Replay(s1, obs1).1[i].feedback == Replay(s2, obs2).1[i].feedback
      {
        assert Replay(s1, obs1).1[i] == Replay(o1.next, obs1[1..]).1[i - 1];
        assert Replay(s2, obs2).1[i] == Replay(o2.next, obs2[1..]).1[i - 1];
      }
    }
  }

  /** From a new session, the feedback of every frame is decided by the first
      frame's rules and the clock: two sessions whose first frames yield the
      same rules speak the same messages at the same frames. */
  lemma FeedbackFollowsFirstFrame(obs1: seq<Observation>, obs2: seq<Observation>)
    requires |obs1| == |obs2| > 0
    requires obs1[0].position.feedbackRules == obs2[0].position.feedbackRules
    requires forall i :: 0 <= i < |obs1| ==> obs1[i].now == obs2[i].now
    ensures forall i :: 0 <= i < |obs1| ==> Replay(NewSession, obs1).1[i].feedback == Replay(NewSession, obs2).1[i].feedback
  {
    var o1 := Apply(NewSession, obs1[0].position, obs1[0].direction, obs1[0].now);
    var o2 := Apply(NewSession, obs2[0].position, obs2[0].direction, obs2[0].now);
    assert o1.next.engine == o2.next.engine;
    FeedbackIgnoresFrames(o1.next, o2.next, obs1[1..], obs2[1..]);
    forall i | 0 < i < |obs1|
      ensures Replay(NewSession, obs1).1[i].feedback == Replay(NewSession, obs2).1[i].feedback
    {
      assert Replay(NewSession, obs1).1[i] == Replay(o1.next, obs1[1..]).1[i - 1];
      assert Replay(NewSession, obs2).1[i] == Replay(o2.next, obs2[1..]).1[i - 1];
    }
  }

  /** An empty frame (nobody in view) raises both signals for the jumping
      jack and only the up signal for the squat. */
  lemma UnseenSignals(m: RealMath)
    ensures EvaluatePosition(m, JumpingJack, []).isDown && EvaluatePosition(m, JumpingJack, []).isUp
    ensures !EvaluatePosition(m, Squat, []).isDown && EvaluatePosition(m, Squat, []).isUp
  {
  }

  /** With nobody in view a jumping-jack session counts one repetition per
      frame. */
  lemma {:induction false} UnseenJumpingJacksCount(m: RealMath, s: Session, samples: seq<Sample>)
    requires s.machine.phase != StateMachine.Up
    requires forall i :: 0 <= i < |samples| ==> samples[i].frame == []
    ensures Replay(s, Observations(m, JumpingJack, samples)).0.machine.reps == s.machine.reps + |samples|
    decreases |samples|
  {
    if samples != [] {
      var obs := Observations(m, JumpingJack, samples);
      UnseenSignals(m);
      var o := Apply(s, obs[0].position, obs[0].direction, obs[0].now);
      assert o.next.machine == StateMachine.RepState(StateMachine.Down, s.machine.reps + 1);
      assert obs[1..] == Observations(m, JumpingJack, samples[1..]);
      UnseenJumpingJacksCount(m, o.next, samples[1..]);
    }
  }

  /** With nobody in view a squat session that has not started never starts. */
  lemma {:induction false} UnseenSquatsDoNotCount(m: RealMath, s: Session, samples: seq<Sample>)
    requires s.machine.phase == StateMachine.Idle
    requires forall i :: 0 <= i < |samples| ==> samples[i].frame == []
    ensures Replay(s, Observations(m, Squat, samples)).0.machine == s.machine
    decreases |samples|
  {
    if samples != [] {
      var obs := Observations(m, Squat, samples);
      UnseenSignals(m);
      var o := Apply(s, obs[0].position, obs[0].direction, obs[0].now);
      assert o.next.machine == s.machine;
      assert obs[1..] == Observations(m, Squat, samples[1..]);
      UnseenSquatsDoNotCount(m, o.next, samples[1..]);
    }
  }

  /** The facade object (`BaseExerciseLogic` with its evaluator). */
  class ExerciseLogic {
    const exercise: Exercise
    const math: RealMath
    const stateMachine: StateMachine.ExerciseStateMachine
    var feedbackEngine: FeedbackEngine?
    var lastPosition: Option<PositionResult>
    var lastDirection: HeadRotationLogic.Direction

    /** The debouncer, once built, uses the default timings. */
    predicate Valid()
      reads this, feedbackEngine
    {
      feedbackEngine != null ==>
        feedbackEngine.cooldownMs == DefaultCooldownMs &&
        feedbackEngine.minConditionDuration == DefaultMinConditionDuration
    }

    function Snapshot(): Session
      reads this, stateMachine, feedbackEngine
    {
      Session(stateMachine.Current(),
              if feedbackEngine == null then None else Some(Engine(feedbackEngine.rules, feedbackEngine.State())),
              lastPosition, lastDirection)
    }

    constructor (exercise: Exercise, math: RealMath)
      ensures this.exercise == exercise && this.math == math
      ensures fresh(stateMachine)
      ensures Valid() && Snapshot() == NewSession
      // before the first frame both predicates read false
      ensures !DownSignal() && !UpSignal()
    {
      this.exercise := exercise;
      this.math := math;
      stateMachine := new StateMachine.ExerciseStateMachine();
      feedbackEngine := null;
      lastPosition := None;
      lastDirection := HeadRotationLogic.Center;
    }

    /** `this.lastPosition?.isDown ?? false`. */
    predicate DownSignal()
      reads this
    {
      lastPosition.Some? && lastPosition.value.isDown
    }

    /** `this.lastPosition?.isUp ?? false`. */
    predicate UpSignal()
      reads this
    {
      lastPosition.Some? && lastPosition.value.isUp
    }

    /** `update(sample)`, with the clock reading the debouncer takes passed in. */
    method Update(frame: Frame, now: int) returns (result: ExerciseResult)
      requires Valid()
      modifies this, stateMachine, feedbackEngine
      ensures Valid()
      ensures old(feedbackEngine) != null ==> feedbackEngine == old(feedbackEngine)
      ensures old(feedbackEngine) == null ==> fresh(feedbackEngine)
      ensures var o := Apply(old(Snapshot()), EvaluatePosition(math, exercise, frame),
                             ObservedDirection(math, exercise, frame), now);
        Snapshot() == o.next && result == o.result
    {
      var position := EvaluatePosition(math, exercise, frame);
      var direction := ObservedDirection(math, exercise, frame);
      if direction.Some? {
        lastDirection := direction.value;
      }
      lastPosition := Some(position);
      if feedbackEngine == null {
        feedbackEngine := new FeedbackEngine(position.feedbackRules);
      }
      var phase, reps := stateMachine.Update(DownSignal(), UpSignal());
      var feedback := feedbackEngine.Evaluate(now);
      result := ExerciseResult(reps, phase, position.accuracy, feedback);
    }
  }
}
