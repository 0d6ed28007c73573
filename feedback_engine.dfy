/** The feedback debouncer: picks the first rule whose condition holds and
    speaks its message only after the same rule has stayed first for a sustain
    period and a cooldown has passed since the last message. */
module Feedback {
  import opened Wrappers

  /** A candidate message. In every evaluator the condition closes over values
      fixed when the rule is built, so it is modelled by the value it returns. */
  datatype FeedbackRule = FeedbackRule(message: string, condition: bool)

  const DefaultCooldownMs: int := 5000
  const DefaultMinConditionDuration: int := 2000

  /** The debouncer's mutable state: the rule (by its index in the fixed rule
      list) that was first-true on the previous call, when it became so, and
      when a message was last spoken. */
  datatype Tracker = Tracker(lastActiveRule: Option<nat>, conditionStartTime: int, lastSpoken: int)

  const InitialTracker: Tracker := Tracker(None, 0, 0)

  /** What one call decides: the next state and the index of the rule whose
      message is spoken, if any. */
  datatype Verdict = Verdict(next: Tracker, spoken: Option<nat>)

  function Conditions(rules: seq<FeedbackRule>): (conds: seq<bool>)
    ensures |conds| == |rules|
    ensures forall i :: 0 <= i < |rules| ==> conds[i] == rules[i].condition
  {
    seq(|rules|, i requires 0 <= i < |rules| => rules[i].condition)
  }

  /** `rules.find(r => r.condition())`, as an index. */
  function FirstTrue(conds: seq<bool>): (r: Option<nat>)
    ensures r.Some? ==> r.value < |conds| && conds[r.value]
    ensures r.Some? ==> forall j :: 0 <= j < r.value ==> !conds[j]
    ensures r.None? <==> forall j :: 0 <= j < |conds| ==> !conds[j]
  {
    if conds == [] then None
    else if conds[0] then Some(0)
    else
      match FirstTrue(conds[1..])
      case None => None
      case Some(k) => Some(k + 1)
  }

  /** One call of `evaluate` at clock reading `now`, given the current values
      of the rules' conditions. */
  function Step(t: Tracker, conds: seq<bool>, now: int, cooldownMs: int, minDuration: int): (v: Verdict)
    // the rule tracked afterwards is always the current first-true rule
    ensures v.next.lastActiveRule == FirstTrue(conds)
    // a message is spoken only for the rule that was already first-true, after
    // the sustain period and the cooldown
    ensures v.spoken.Some? ==>
      && v.spoken == FirstTrue(conds) == t.lastActiveRule
      && now - t.conditionStartTime >= minDuration
      && now - t.lastSpoken >= cooldownMs
    // the time of the last message moves only when a message is spoken
    ensures v.next.lastSpoken == if v.spoken.Some? then now else t.lastSpoken
  {
    match FirstTrue(conds)
    case None => Verdict(Tracker(None, 0, t.lastSpoken), None)
    case Some(i) =>
      if Some(i) != t.lastActiveRule then Verdict(Tracker(Some(i), now, t.lastSpoken), None)
      else if now - t.conditionStartTime < minDuration then Verdict(t, None)
      else if now - t.lastSpoken < cooldownMs then Verdict(t, None)
      else Verdict(Tracker(t.lastActiveRule, 0, now), Some(i))
  }

  /** The three ways a call stays silent, and what each does to the state. */
  lemma StepSilent(t: Tracker, conds: seq<bool>, now: int, cooldownMs: int, minDuration: int)
    ensures var v := Step(t, conds, now, cooldownMs, minDuration);
      && (FirstTrue(conds).None? ==> v == Verdict(Tracker(None, 0, t.lastSpoken), None))
      && (FirstTrue(conds).Some? && FirstTrue(conds) != t.lastActiveRule ==>
            v == Verdict(Tracker(FirstTrue(conds), now, t.lastSpoken), None))
      && (FirstTrue(conds) == t.lastActiveRule && FirstTrue(conds).Some? &&
          (now - t.conditionStartTime < minDuration || now - t.lastSpoken < cooldownMs) ==>
            v == Verdict(t, None))
  {
  }

  /** A call that speaks keeps the rule, records the time and sets the sustain
      start to 0 (not to `now`). */
  lemma StepSpeaks(t: Tracker, conds: seq<bool>, now: int, cooldownMs: int, minDuration: int)
    requires FirstTrue(conds).Some? && FirstTrue(conds) == t.lastActiveRule
    requires now - t.conditionStartTime >= minDuration && now - t.lastSpoken >= cooldownMs
    ensures Step(t, conds, now, cooldownMs, minDuration) ==
      Verdict(Tracker(t.lastActiveRule, 0, now), t.lastActiveRule)
  {
  }

  /** Because the sustain start is reset to 0, a rule that stays first-true is
      spoken again at the first call after the cooldown, without waiting for a
      new sustain period (for any clock reading of at least `minDuration`). */
  lemma ReEmitAfterCooldown(i: nat, lastSpoken: int, conds: seq<bool>, now: int,
                            cooldownMs: int, minDuration: int)
    requires FirstTrue(conds) == Some(i)
    requires now >= minDuration && now - lastSpoken >= cooldownMs
    ensures Step(Tracker(Some(i), 0, lastSpoken), conds, now, cooldownMs, minDuration).spoken == Some(i)
  {
  }

  /** One clock reading with the condition values seen at that call. */
  datatype Tick = Tick(now: int, conds: seq<bool>)

  /** A sequence of calls: the final state and the times at which a message was spoken. */
  function Run(t: Tracker, ticks: seq<Tick>, cooldownMs: int, minDuration: int): (r: (Tracker, seq<int>))
    ensures |r.1| <= |ticks|
    decreases |ticks|
  {
    if ticks == [] then (t, [])
    else
      var v := Step(t, ticks[0].conds, ticks[0].now, cooldownMs, minDuration);
      var rest := Run(v.next, ticks[1..], cooldownMs, minDuration);
      (rest.0, (if v.spoken.Some? then [ticks[0].now] else []) + rest.1)
  }

  /** Any two messages are at least `cooldownMs` apart, and the first is at
      least `cooldownMs` after the last one spoken before the run. This needs
      no assumption about the clock. */
  lemma {:induction false} EmissionsSpaced(t: Tracker, ticks: seq<Tick>, cooldownMs: int, minDuration: int)
    ensures var es := Run(t, ticks, cooldownMs, minDuration).1;
      && (|es| > 0 ==> es[0] - t.lastSpoken >= cooldownMs)
      && forall k :: 0 <= k < |es| - 1 ==> es[k + 1] - es[k] >= cooldownMs
    decreases |ticks|
  {
    if ticks != [] {
      var v := Step(t, ticks[0].conds, ticks[0].now, cooldownMs, minDuration);
      EmissionsSpaced(v.next, ticks[1..], cooldownMs, minDuration);
      var rest := Run(v.next, ticks[1..], cooldownMs, minDuration).1;
      var es := Run(t, ticks, cooldownMs, minDuration).1;
      if v.spoken.Some? {
        assert es == [ticks[0].now] + rest;
        forall k | 0 <= k < |es| - 1 ensures es[k + 1] - es[k] >= cooldownMs {
          if k > 0 {
            assert es[k] == rest[k - 1] && es[k + 1] == rest[k];
          }
        }
      } else {
        assert es == rest;
      }
    }
  }

  /** While the same rule stays first-true, the first message comes at least
      `minDuration` after the sustain start the run began with. */
  lemma {:induction false} SustainedBeforeSpeaking(t: Tracker, ticks: seq<Tick>, cooldownMs: int, minDuration: int)
    requires t.lastActiveRule.Some?
    requires forall k :: 0 <= k < |ticks| ==> FirstTrue(ticks[k].conds) == t.lastActiveRule
    ensures var es := Run(t, ticks, cooldownMs, minDuration).1;
      |es| > 0 ==> es[0] - t.conditionStartTime >= minDuration
    decreases |ticks|
  {
    if ticks != [] {
      var v := Step(t, ticks[0].conds, ticks[0].now, cooldownMs, minDuration);
      if v.spoken.None? {
        assert v.next == t;
        SustainedBeforeSpeaking(t, ticks[1..], cooldownMs, minDuration);
      }
    }
  }

  /** When a rule becomes first-true at the first call and stays first-true,
      nothing is spoken before `minDuration` has passed since that call. */
  lemma RuleMustBeSustained(t: Tracker, ticks: seq<Tick>, cooldownMs: int, minDuration: int)
    requires |ticks| > 0 && FirstTrue(ticks[0].conds).Some?
    requires FirstTrue(ticks[0].conds) != t.lastActiveRule
    requires forall k :: 0 <= k < |ticks| ==> FirstTrue(ticks[k].conds) == FirstTrue(ticks[0].conds)
    ensures var es := Run(t, ticks, cooldownMs, minDuration).1;
      |es| > 0 ==> es[0] - ticks[0].now >= minDuration
  {
    var v := Step(t, ticks[0].conds, ticks[0].now, cooldownMs, minDuration);
    assert v.spoken.None? && v.next.conditionStartTime == ticks[0].now;
    SustainedBeforeSpeaking(v.next, ticks[1..], cooldownMs, minDuration);
  }

  /** When the first-true rule differs on every pair of consecutive calls (and
      from the rule tracked before the first), nothing is ever spoken. */
  lemma {:induction false} OscillationIsSilent(t: Tracker, ticks: seq<Tick>, cooldownMs: int, minDuration: int)
    requires |ticks| > 0 ==> FirstTrue(ticks[0].conds) != t.lastActiveRule
    requires forall k :: 0 <= k < |ticks| - 1 ==> FirstTrue(ticks[k].conds) != FirstTrue(ticks[k + 1].conds)
    ensures Run(t, ticks, cooldownMs, minDuration).1 == []
    decreases |ticks|
  {
    if ticks != [] {
      var v := Step(t, ticks[0].conds, ticks[0].now, cooldownMs, minDuration);
      OscillationIsSilent(v.next, ticks[1..], cooldownMs, minDuration);
    }
  }

  /** With the default timings, a rule true at T, false at T+1000 and true again
      from T+1100 is first spoken at T+3100, not at T+2000: the false reading
      restarts the sustain period. */
  lemma SustainRestartScenario(T: int)
    requires T >= 1900
    ensures Run(InitialTracker,
                [Tick(T, [true]), Tick(T + 1000, [false]), Tick(T + 1100, [true]),
                 Tick(T + 2000, [true]), Tick(T + 3099, [true])],
                DefaultCooldownMs, DefaultMinConditionDuration).1 == []
    ensures Run(InitialTracker,
                [Tick(T, [true]), Tick(T + 1000, [false]), Tick(T + 1100, [true]),
                 Tick(T + 2000, [true]), Tick(T + 3100, [true])],
                DefaultCooldownMs, DefaultMinConditionDuration).1 == [T + 3100]
  {
    var cd, md := DefaultCooldownMs, DefaultMinConditionDuration;
    assert FirstTrue([true]) == Some(0) && FirstTrue([false]) == None;
    var t1 := Tracker(Some(0), T, 0);
    var t2 := Tracker(None, 0, 0);
    var t3 := Tracker(Some(0), T + 1100, 0);
    var spoken := Tracker(Some(0), 0, T + 3100);
    assert Step(InitialTracker, [true], T, cd, md) == Verdict(t1, None);
    assert Step(t1, [false], T + 1000, cd, md) == Verdict(t2, None);
    assert Step(t2, [true], T + 1100, cd, md) == Verdict(t3, None);
    assert Step(t3, [true], T + 2000, cd, md) == Verdict(t3, None);
    assert Step(t3, [true], T + 3099, cd, md) == Verdict(t3, None);
    assert Step(t3, [true], T + 3100, cd, md) == Verdict(spoken, Some(0));
    // the last call, early and on time
    assert [Tick(T + 3099, [true])][1..] == [] && [Tick(T + 3100, [true])][1..] == [];
    assert Run(t3, [Tick(T + 3099, [true])], cd, md) == (t3, []);
    assert Run(spoken, [], cd, md) == (spoken, []);
    assert Run(t3, [Tick(T + 3100, [true])], cd, md).0 == spoken;
    assert Run(t3, [Tick(T + 3100, [true])], cd, md).1 == [T + 3100] + [] == [T + 3100];
    assert Run(t3, [Tick(T + 3100, [true])], cd, md) == (spoken, [T + 3100]);
    // the four calls before it, from the back
    var prefix := [Tick(T, [true]), Tick(T + 1000, [false]), Tick(T + 1100, [true]), Tick(T + 2000, [true])];
    forall time | time == T + 3099 || time == T + 3100
      ensures Run(InitialTracker, prefix + [Tick(time, [true])], cd, md) == Run(t3, [Tick(time, [true])], cd, md)
    {
      var last := Tick(time, [true]);
      var ticks := prefix + [last];
      assert ticks[1..] == prefix[1..] + [last];
      assert ticks[2..] == prefix[2..] + [last];
      assert ticks[3..] == [prefix[3], last];
      assert Run(t3, [prefix[3], last], cd, md) == Run(t3, [last], cd, md) by {
        assert [prefix[3], last][1..] == [last];
        var rest := Run(t3, [last], cd, md);
        assert Run(t3, [prefix[3], last], cd, md) == (rest.0, [] + rest.1);
        assert [] + rest.1 == rest.1;
      }
      assert Run(t2, ticks[2..], cd, md) == Run(t3, ticks[3..], cd, md);
      assert Run(t1, ticks[1..], cd, md) == Run(t2, ticks[2..], cd, md);
    }
    assert prefix + [Tick(T + 3099, [true])] ==
      [Tick(T, [true]), Tick(T + 1000, [false]), Tick(T + 1100, [true]), Tick(T + 2000, [true]), Tick(T + 3099, [true])];
    assert prefix + [Tick(T + 3100, [true])] ==
      [Tick(T, [true]), Tick(T + 1000, [false]), Tick(T + 1100, [true]), Tick(T + 2000, [true]), Tick(T + 3100, [true])];
  }

  /** The debouncer object: a fixed rule list, fixed timings and the tracker fields. */
  class FeedbackEngine {
    const rules: seq<FeedbackRule>
    const cooldownMs: int
    const minConditionDuration: int
    var lastActiveRule: Option<nat>
    var conditionStartTime: int
    var lastSpoken: int

    function State(): Tracker
      reads this
    {
      Tracker(lastActiveRule, conditionStartTime, lastSpoken)
    }

    constructor (rules: seq<FeedbackRule>, cooldownMs: int := DefaultCooldownMs,
                 minConditionDuration: int := DefaultMinConditionDuration)
      ensures this.rules == rules
      ensures this.cooldownMs == cooldownMs && this.minConditionDuration == minConditionDuration
      ensures State() == InitialTracker
    {
      this.rules := rules;
      this.cooldownMs := cooldownMs;
      this.minConditionDuration := minConditionDuration;
      lastActiveRule := None;
      conditionStartTime := 0;
      lastSpoken := 0;
    }

    /** `evaluate()`, with the clock reading passed in. */
    method Evaluate(now: int) returns (feedback: Option<string>)
      modifies this
      ensures var v := Step(old(State()), Conditions(rules), now, cooldownMs, minConditionDuration);
        && State() == v.next
        && feedback == (if v.spoken.Some? then Some(rules[v.spoken.value].message) else None)
    {
      var i := 0;
      while i < |rules| && !rules[i].condition
        invariant 0 <= i <= |rules|
        invariant forall j :: 0 <= j < i ==> !rules[j].condition
      {
        i := i + 1;
      }
      if i == |rules| {
        lastActiveRule := None;
        conditionStartTime := 0;
        return None;
      }
      if Some(i) != lastActiveRule {
        lastActiveRule := Some(i);
        conditionStartTime := now;
        return None;
      }
      var conditionDuration := now - conditionStartTime;
      if conditionDuration < minConditionDuration {
        return None;
      }
      if now - lastSpoken < cooldownMs {
        return None;
      }
      lastSpoken := now;
      conditionStartTime := 0;
      return Some(rules[i].message);
    }
  }
}
