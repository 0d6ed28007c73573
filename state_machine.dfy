/** The repetition counter: idle until the first "down", then alternating
    down and up, counting one repetition on each down-to-up transition. */
module StateMachine {

  datatype Phase = Idle | Down | Up

  datatype RepState = RepState(phase: Phase, reps: nat)

  const Initial: RepState := RepState(Idle, 0)

  /** One `update`: the three checks run in this order within the same call,
      each seeing the phase the previous one left. */
  function Step(s: RepState, down: bool, up: bool): (r: RepState)
    // at most one repetition per call, counted exactly when the call passes
    // from down to up
    ensures r.reps == s.reps || r.reps == s.reps + 1
    ensures r.reps == s.reps + 1 <==> up && (s.phase == Down || (s.phase == Idle && down))
    // idle is never re-entered, and up is never reached directly from idle
    ensures s.phase != Idle ==> r.phase != Idle
    ensures s.phase == Idle ==> r.phase != Up
    // a call that ends in up has just counted (or stayed) and saw no down signal
    ensures r.phase == Up ==> !down && (s.phase == Up || r.reps == s.reps + 1)
  {
    var afterIdle := if s.phase == Idle && down then Down else s.phase;
    var afterDown := if afterIdle == Down && up then RepState(Up, s.reps + 1) else RepState(afterIdle, s.reps);
    if afterDown.phase == Up && down then RepState(Down, afterDown.reps) else afterDown
  }

  /** With no signal a call changes nothing. */
  lemma StepQuiet(s: RepState)
    ensures Step(s, false, false) == s
  {
  }

  /** Both signals at once take an idle machine through down and up back to
      down in one call, counting one repetition. */
  lemma StepBothSignalsFromIdle(reps: nat)
    ensures Step(RepState(Idle, reps), true, true) == RepState(Down, reps + 1)
  {
  }

  /** A session of calls from a given state. */
  function Run(s: RepState, signals: seq<(bool, bool)>): (r: RepState)
    decreases |signals|
  {
    if signals == [] then s else Run(Step(s, signals[0].0, signals[0].1), signals[1..])
  }

  /** Over any session the count never falls and grows by at most one per call,
      and a machine that has left idle never returns to it. */
  lemma {:induction false} RunMonotone(s: RepState, signals: seq<(bool, bool)>)
    ensures s.reps <= Run(s, signals).reps <= s.reps + |signals|
    ensures s.phase != Idle ==> Run(s, signals).phase != Idle
    decreases |signals|
  {
    if signals != [] {
      RunMonotone(Step(s, signals[0].0, signals[0].1), signals[1..]);
    }
  }

  /** Without a down signal the machine never leaves idle, whatever the up signals. */
  lemma {:induction false} IdleNeedsDown(signals: seq<(bool, bool)>, reps: nat)
    requires forall k :: 0 <= k < |signals| ==> !signals[k].0
    ensures Run(RepState(Idle, reps), signals) == RepState(Idle, reps)
    decreases |signals|
  {
    if signals != [] {
      IdleNeedsDown(signals[1..], reps);
    }
  }

  /** The machine object: `state` and `repCount` change only through `Update`
      and `Reset`. */
  class ExerciseStateMachine {
    var state: Phase
    var repCount: nat

    function Current(): RepState
      reads this
    {
      RepState(state, repCount)
    }

    constructor ()
      ensures Current() == Initial
    {
      state := Idle;
      repCount := 0;
    }

    /** `update()`, given what the down and up predicates return during this
        call (they read state that does not change while the call runs). */
    method Update(down: bool, up: bool) returns (phase: Phase, reps: nat)
      modifies this
      ensures Current() == Step(old(Current()), down, up)
      ensures phase == state && reps == repCount
    {
      if state == Idle && down {
        state := Down;
      }
      if state == Down && up {
        state := Up;
        repCount := repCount + 1;
      }
      if state == Up && down {
        state := Down;
      }
      return state, repCount;
    }

    method Reset()
      modifies this
      ensures Current() == Initial
    {
      state := Idle;
      repCount := 0;
    }
  }
}
