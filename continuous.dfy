/** The continuous gesture detector with direction debounce
    (LeapMedia/Gestures/ContinuousGestureDetector.cs): fires repeatedly as a scalar
    feature of the hand moves a threshold away from the value recorded at the last
    trigger, and suppresses a reversal of direction until a debounce time has passed
    since the last trigger in the other direction. */
module ContinuousGestures {
  import opened Actions
  import opened Hands

  /** The detector's mutable fields; `None` stands for the NaN "nothing recorded yet". */
  datatype ContinuousState = ContinuousState(
    lastTriggerValue: Option<real>,
    lastPositiveTriggerTime: int,
    lastNegativeTriggerTime: int)

  const INITIAL := ContinuousState(None, 0, 0)

  /** The fixed configuration: the trigger interval and the direction debounce (microseconds). */
  datatype ContinuousConfig = ContinuousConfig(triggerThreshold: real, directionDebounceTime: int)

  /** `fired` carries the flag passed to the callback. */
  datatype Outcome = Outcome(next: ContinuousState, fired: Option<bool>)

  /** The callback flag: the value did NOT increase since the last trigger. (The
      source's doc-comment says "true if the value has increased"; the code tests
      `last - current >= 0`, and the model follows the code.) */
  predicate Flag(last: real, current: real)
  {
    last - current >= 0.0
  }

  /** A crossing in direction `flag` is suppressed by the debounce. */
  predicate Suppressed(s: ContinuousState, cfg: ContinuousConfig, flag: bool, timestamp: int)
  {
    if flag then s.lastNegativeTriggerTime + cfg.directionDebounceTime >= timestamp
    else s.lastPositiveTriggerTime + cfg.directionDebounceTime >= timestamp
  }

  /** The effect of one sample: whether the hand may gesture, the monitored value, the frame time. */
  function Step(s: ContinuousState, cfg: ContinuousConfig, canGesture: bool, value: real, timestamp: int): (r: Outcome)
    // an ineligible sample changes nothing
    ensures !canGesture ==> r == Outcome(s, None)
    // the first eligible sample only records its value
    ensures canGesture && s.lastTriggerValue.None? ==> r == Outcome(s.(lastTriggerValue := Some(value)), None)
    // fires iff the value moved at least the threshold and that direction is not debounced
    ensures r.fired.Some? <==>
              canGesture && s.lastTriggerValue.Some?
              && Abs(s.lastTriggerValue.value - value) >= cfg.triggerThreshold
              && !Suppressed(s, cfg, Flag(s.lastTriggerValue.value, value), timestamp)
    // a sub-threshold or suppressed crossing changes nothing
    ensures r.fired.None? && s.lastTriggerValue.Some? ==> r.next == s
    // a trigger records the value and stamps only its own direction's time
    ensures r.fired.Some? ==>
              r.fired.value == Flag(s.lastTriggerValue.value, value)
              && r.next == if r.fired.value then s.(lastTriggerValue := Some(value), lastPositiveTriggerTime := timestamp)
                           else s.(lastTriggerValue := Some(value), lastNegativeTriggerTime := timestamp)
  {
    if !canGesture then Outcome(s, None)
    else if s.lastTriggerValue.None? then Outcome(s.(lastTriggerValue := Some(value)), None)
    else
      var diff := s.lastTriggerValue.value - value;
      if Abs(diff) < cfg.triggerThreshold then Outcome(s, None)
      else
        var isPositiveChange := diff >= 0.0;
        if isPositiveChange then
          if s.lastNegativeTriggerTime + cfg.directionDebounceTime >= timestamp then Outcome(s, None)
          else Outcome(s.(lastTriggerValue := Some(value), lastPositiveTriggerTime := timestamp), Some(true))
        else
          if s.lastPositiveTriggerTime + cfg.directionDebounceTime >= timestamp then Outcome(s, None)
          else Outcome(s.(lastTriggerValue := Some(value), lastNegativeTriggerTime := timestamp), Some(false))
  }

  /** One call of `OnHand`, as the detector sees it. */
  datatype Sample = Sample(canGesture: bool, value: real, timestamp: int)

  /** A trigger: the value recorded, the callback flag and the frame time. */
  datatype Trigger = Trigger(value: real, flag: bool, timestamp: int)

  datatype Trace = Trace(final: ContinuousState, triggers: seq<Trigger>)

  /** The effect of a sequence of samples, in order. */
  function Run(s: ContinuousState, cfg: ContinuousConfig, samples: seq<Sample>): (r: Trace)
    ensures |r.triggers| <= |samples|
    decreases |samples|
  {
    if samples == [] then Trace(s, [])
    else
      var x := samples[0];
      var o := Step(s, cfg, x.canGesture, x.value, x.timestamp);
      var rest := Run(o.next, cfg, samples[1..]);
      Trace(rest.final, (if o.fired.Some? then [Trigger(x.value, o.fired.value, x.timestamp)] else []) + rest.triggers)
  }

  /** Trigger i is at least the threshold away from trigger i - 1, and its flag says
      whether the value did not increase from it. */
  ghost predicate ThresholdApart(ts: seq<Trigger>, i: int, threshold: real)
    requires 0 < i < |ts|
  {
    Abs(ts[i - 1].value - ts[i].value) >= threshold && ts[i].flag == Flag(ts[i - 1].value, ts[i].value)
  }

  ghost predicate AllThresholdApart(ts: seq<Trigger>, threshold: real)
  {
    forall i :: 0 < i < |ts| ==> ThresholdApart(ts, i, threshold)
  }

  /** If trigger i reverses the direction of trigger i - 1, it comes more than the
      debounce time after it. */
  ghost predicate ReversalDebounced(ts: seq<Trigger>, i: int, debounce: int)
    requires 0 < i < |ts|
  {
    ts[i].flag != ts[i - 1].flag ==> ts[i].timestamp > ts[i - 1].timestamp + debounce
  }

  ghost predicate AllReversalsDebounced(ts: seq<Trigger>, debounce: int)
  {
    forall i :: 0 < i < |ts| ==> ReversalDebounced(ts, i, debounce)
  }

  /** The first trigger of a run is at least the threshold away from the value
      recorded before the run. */
  lemma {:induction false} RunFirstTriggerValue(s: ContinuousState, cfg: ContinuousConfig, samples: seq<Sample>)
    requires s.lastTriggerValue.Some?
    ensures var r := Run(s, cfg, samples);
            r.triggers != [] ==>
              Abs(s.lastTriggerValue.value - r.triggers[0].value) >= cfg.triggerThreshold
              && r.triggers[0].flag == Flag(s.lastTriggerValue.value, r.triggers[0].value)
    decreases |samples|
  {
    if samples != [] {
      var x := samples[0];
      var o := Step(s, cfg, x.canGesture, x.value, x.timestamp);
      if o.fired.None? {
        RunFirstTriggerValue(o.next, cfg, samples[1..]);
      }
    }
  }

  lemma ConsThresholdApart(t: Trigger, rest: seq<Trigger>, threshold: real)
    requires rest != [] ==> Abs(t.value - rest[0].value) >= threshold && rest[0].flag == Flag(t.value, rest[0].value)
    requires AllThresholdApart(rest, threshold)
    ensures AllThresholdApart([t] + rest, threshold)
  {
    var ts := [t] + rest;
    forall i | 0 < i < |ts| ensures ThresholdApart(ts, i, threshold) {
      if i > 1 {
        assert ThresholdApart(rest, i - 1, threshold);
        assert ts[i] == rest[i - 1] && ts[i - 1] == rest[i - 2];
      }
    }
  }

  /** Successive recorded trigger values are at least the threshold apart. */
  lemma {:induction false} RunTriggersThresholdApart(s: ContinuousState, cfg: ContinuousConfig, samples: seq<Sample>)
    ensures AllThresholdApart(Run(s, cfg, samples).triggers, cfg.triggerThreshold)
    decreases |samples|
  {
    if samples != [] {
      var x := samples[0];
      var o := Step(s, cfg, x.canGesture, x.value, x.timestamp);
      var rest := Run(o.next, cfg, samples[1..]);
      RunTriggersThresholdApart(o.next, cfg, samples[1..]);
      var r := Run(s, cfg, samples);
      if o.fired.Some? {
        var t := Trigger(x.value, o.fired.value, x.timestamp);
        assert r.triggers == [t] + rest.triggers;
        RunFirstTriggerValue(o.next, cfg, samples[1..]);
        ConsThresholdApart(t, rest.triggers, cfg.triggerThreshold);
      } else {
        assert r.triggers == rest.triggers;
      }
    }
  }

  /** The final state records the value of the run's last trigger, and keeps the
      recorded value when nothing fired. */
  lemma {:induction false} RunRecordsLastTrigger(s: ContinuousState, cfg: ContinuousConfig, samples: seq<Sample>)
    ensures var r := Run(s, cfg, samples);
            r.triggers == [] && s.lastTriggerValue.Some? ==> r.final.lastTriggerValue == s.lastTriggerValue
    ensures var r := Run(s, cfg, samples);
            r.triggers != [] ==> r.final.lastTriggerValue == Some(r.triggers[|r.triggers| - 1].value)
    decreases |samples|
  {
    if samples != [] {
      var x := samples[0];
      var o := Step(s, cfg, x.canGesture, x.value, x.timestamp);
      var rest := Run(o.next, cfg, samples[1..]);
      RunRecordsLastTrigger(o.next, cfg, samples[1..]);
      var r := Run(s, cfg, samples);
      if o.fired.Some? {
        assert r.triggers == [Trigger(x.value, o.fired.value, x.timestamp)] + rest.triggers;
      } else {
        assert r.triggers == rest.triggers;
      }
    }
  }

  /** Each direction's time in the final state is that of the run's last trigger in
      that direction, or the initial one if the run never triggered. */
  lemma {:induction false} RunRecordsTriggerTimes(s: ContinuousState, cfg: ContinuousConfig, samples: seq<Sample>)
    ensures var r := Run(s, cfg, samples);
            r.triggers == [] ==>
              r.final.lastPositiveTriggerTime == s.lastPositiveTriggerTime
              && r.final.lastNegativeTriggerTime == s.lastNegativeTriggerTime
    ensures var r := Run(s, cfg, samples);
            r.triggers != [] ==>
              var last := r.triggers[|r.triggers| - 1];
              (if last.flag then r.final.lastPositiveTriggerTime else r.final.lastNegativeTriggerTime) == last.timestamp
    decreases |samples|
  {
    if samples != [] {
      var x := samples[0];
      var o := Step(s, cfg, x.canGesture, x.value, x.timestamp);
      var rest := Run(o.next, cfg, samples[1..]);
      RunRecordsTriggerTimes(o.next, cfg, samples[1..]);
      var r := Run(s, cfg, samples);
      if o.fired.Some? {
        assert r.triggers == [Trigger(x.value, o.fired.value, x.timestamp)] + rest.triggers;
      } else {
        assert r.triggers == rest.triggers;
      }
    }
  }

  /** The first trigger in a direction comes more than the debounce time after the
      last trigger in the other direction before the run. */
  lemma {:induction false} RunFirstTriggerDebounced(s: ContinuousState, cfg: ContinuousConfig, samples: seq<Sample>)
    ensures var r := Run(s, cfg, samples);
            r.triggers != [] ==>
              r.triggers[0].timestamp > cfg.directionDebounceTime +
                (if r.triggers[0].flag then s.lastNegativeTriggerTime else s.lastPositiveTriggerTime)
    decreases |samples|
  {
    if samples != [] {
      var x := samples[0];
      var o := Step(s, cfg, x.canGesture, x.value, x.timestamp);
      if o.fired.None? {
        RunFirstTriggerDebounced(o.next, cfg, samples[1..]);
      }
    }
  }

  lemma ConsReversalsDebounced(t: Trigger, rest: seq<Trigger>, debounce: int)
    requires rest != [] && rest[0].flag != t.flag ==> rest[0].timestamp > t.timestamp + debounce
    requires AllReversalsDebounced(rest, debounce)
    ensures AllReversalsDebounced([t] + rest, debounce)
  {
    var ts := [t] + rest;
    forall i | 0 < i < |ts| ensures ReversalDebounced(ts, i, debounce) {
      if i > 1 {
        assert ReversalDebounced(rest, i - 1, debounce);
        assert ts[i] == rest[i - 1] && ts[i - 1] == rest[i - 2];
      }
    }
  }

  /** The direction debounce over a whole run: a trigger that reverses the direction
      of the one before it comes more than the debounce time after it. */
  lemma {:induction false} RunReversalsDebounced(s: ContinuousState, cfg: ContinuousConfig, samples: seq<Sample>)
    ensures AllReversalsDebounced(Run(s, cfg, samples).triggers, cfg.directionDebounceTime)
    decreases |samples|
  {
    if samples != [] {
      var x := samples[0];
      var o := Step(s, cfg, x.canGesture, x.value, x.timestamp);
      var rest := Run(o.next, cfg, samples[1..]);
      RunReversalsDebounced(o.next, cfg, samples[1..]);
      var r := Run(s, cfg, samples);
      if o.fired.Some? {
        var t := Trigger(x.value, o.fired.value, x.timestamp);
        assert r.triggers == [t] + rest.triggers;
        RunFirstTriggerDebounced(o.next, cfg, samples[1..]);
        ConsReversalsDebounced(t, rest.triggers, cfg.directionDebounceTime);
      } else {
        assert r.triggers == rest.triggers;
      }
    }
  }

  /** A crossing that reverses the direction of a trigger at time t is suppressed up
      to and including t plus the debounce time, and fires after it. */
  lemma ReversalSuppressedThenAllowed(cfg: ContinuousConfig, v: real, t: int, later: int)
    requires cfg.triggerThreshold > 0.0
    requires later > t + cfg.directionDebounceTime
    ensures var s := ContinuousState(Some(v), t, 0);
            Step(s, cfg, true, v + cfg.triggerThreshold, t + cfg.directionDebounceTime).fired == None
            && Step(s, cfg, true, v + cfg.triggerThreshold, later).fired == Some(false)
  {
    var s := ContinuousState(Some(v), t, 0);
    var th := cfg.triggerThreshold;
    assert Abs(v - (v + th)) >= th;
    assert !Flag(v, v + th);
    assert Suppressed(s, cfg, false, t + cfg.directionDebounceTime);
    assert !Suppressed(s, cfg, false, later);
  }

  /** Roll, in (-PI, PI], folded into [0, 2 PI): the jump at the ±PI wrap point goes
      away, but a new one appears at 0, where a flat, palm-down hand sits.
      `Math.PI` as a double. */
  const PI: real := 3.141592653589793

  function RollAngle(roll: real): (r: real)
    ensures r == roll || r == roll + 2.0 * PI
    ensures -PI < roll <= PI ==> 0.0 <= r < 2.0 * PI
    ensures 0.0 <= roll ==> r == roll
    ensures roll < 0.0 ==> r == roll + 2.0 * PI
  {
    if roll >= 0.0 then roll else PI * 2.0 + roll
  }

  /** Across the wrap point the folded angle moves by as much as the hand turned. */
  lemma RollAngleContinuousAtWrap(e: real, f: real)
    requires 0.0 <= e < PI && 0.0 < f < PI
    ensures RollAngle(-PI + f) - RollAngle(PI - e) == e + f
  {
  }

  /** The fold's own discontinuity is at 0: a turn from e to -e radians moves the
      folded angle by almost a full circle. */
  lemma RollAngleJumpsAtZero(e: real)
    requires 0.0 < e < PI
    ensures RollAngle(e) - RollAngle(-e) == 2.0 * e - 2.0 * PI
  {
  }

  /** So with the roll volume configuration a small turn of a flat closed hand
      across 0 (by 2e, up to 2 radians) lowers the volume once the debounce allows a
      negative change. */
  lemma PalmDownTurnAcrossZeroTriggers(e: real, lastPositive: int, lastNegative: int, t: int)
    requires 0.0 < e <= 1.0
    requires t > lastPositive + 500 * 1000
    ensures var s := ContinuousState(Some(RollAngle(e)), lastPositive, lastNegative);
            Step(s, ContinuousConfig(0.35, 500 * 1000), true, RollAngle(-e), t).fired == Some(false)
  {
    var s := ContinuousState(Some(RollAngle(e)), lastPositive, lastNegative);
    assert RollAngle(e) - RollAngle(-e) == 2.0 * e - 2.0 * PI;
    assert Abs(RollAngle(e) - RollAngle(-e)) >= 0.35;
    assert !Flag(RollAngle(e), RollAngle(-e));
  }

  predicate IsClosedHand(h: HandStats) { !h.isOpen }
  predicate IsVisibleLongEnough(h: HandStats) { h.timeVisible >= 500000.0 }
  function FoldedRoll(h: HandStats): real { RollAngle(h.roll) }
  function PalmX(h: HandStats): real { h.palmX }

  /** Both factories' callback: a true flag raises the volume, a false one lowers it. */
  function VolumeFor(flag: bool): (a: MediaAction)
    ensures a == VolumeUp || a == VolumeDown
    ensures flag <==> a == VolumeUp
  {
    if flag then VolumeUp else VolumeDown
  }

  class ContinuousGestureDetector {
    const canGesture: HandStats -> bool
    const discreteValue: HandStats -> real
    const triggerThreshold: real
    const onGesture: bool -> MediaAction
    const directionDebounceTime: int

    var lastTriggerValue: Option<real>
    var lastPositiveTriggerTime: int
    var lastNegativeTriggerTime: int

    function Config(): ContinuousConfig
    {
      ContinuousConfig(triggerThreshold, directionDebounceTime)
    }

    function State(): ContinuousState
      reads this
    {
      ContinuousState(lastTriggerValue, lastPositiveTriggerTime, lastNegativeTriggerTime)
    }

    constructor (canGesture: HandStats -> bool, discreteValue: HandStats -> real, triggerThreshold: real,
                 onGesture: bool -> MediaAction, directionDebounceTime: int)
      ensures State() == INITIAL
      ensures this.canGesture == canGesture && this.discreteValue == discreteValue && this.onGesture == onGesture
      ensures Config() == ContinuousConfig(triggerThreshold, directionDebounceTime)
    {
      this.canGesture := canGesture;
      this.discreteValue := discreteValue;
      this.triggerThreshold := triggerThreshold;
      this.onGesture := onGesture;
      this.directionDebounceTime := directionDebounceTime;
      lastTriggerValue := None;
      lastPositiveTriggerTime, lastNegativeTriggerTime := 0, 0;
    }

    /** Feed one eligible hand; returns the action if a trigger fired. */
    method OnHand(hand: HandStats, timestamp: int) returns (fired: Option<MediaAction>)
      modifies this
      ensures State() == Step(old(State()), Config(), canGesture(hand), discreteValue(hand), timestamp).next
      ensures var o := Step(old(State()), Config(), canGesture(hand), discreteValue(hand), timestamp);
              fired == if o.fired.Some? then Some(onGesture(o.fired.value)) else None
    {
      if !canGesture(hand) {
        return None;
      }

      var currentValue := discreteValue(hand);
      if lastTriggerValue.None? {
        lastTriggerValue := Some(currentValue);
        return None;
      }

      var diff := lastTriggerValue.value - currentValue;
      if Abs(diff) < triggerThreshold {
        return None;
      }

      var isPositiveChange := diff >= 0.0;
      if isPositiveChange {
        if lastNegativeTriggerTime + directionDebounceTime >= timestamp {
          return None;
        }
        lastPositiveTriggerTime := timestamp;
      } else {
        if lastPositiveTriggerTime + directionDebounceTime >= timestamp {
          return None;
        }
        lastNegativeTriggerTime := timestamp;
      }

      lastTriggerValue := Some(currentValue);
      fired := Some(onGesture(isPositiveChange));
    }
  }

  /** Closed-hand roll changes the volume every 0.35 rad, reversals debounced by 500 ms. */
  method RotateHandChangeVolumeGesture() returns (d: ContinuousGestureDetector)
    ensures fresh(d) && d.State() == INITIAL
    ensures d.Config() == ContinuousConfig(0.35, 500 * 1000)
    ensures forall h :: d.canGesture(h) == !h.isOpen
    ensures forall h :: d.discreteValue(h) == RollAngle(h.roll)
    ensures forall b :: d.onGesture(b) == VolumeFor(b)
  {
    d := new ContinuousGestureDetector(IsClosedHand, FoldedRoll, 0.35, VolumeFor, 500 * 1000);
  }

  /** Lateral movement of a hand visible for half a second changes the volume every
      30 mm; the debounce keeps its default of zero. */
  method MoveHandXChangeVolumeGesture() returns (d: ContinuousGestureDetector)
    ensures fresh(d) && d.State() == INITIAL
    ensures d.Config() == ContinuousConfig(30.0, 0)
    ensures forall h :: d.canGesture(h) == (h.timeVisible >= 500000.0)
    ensures forall h :: d.discreteValue(h) == h.palmX
    ensures forall b :: d.onGesture(b) == VolumeFor(b)
  {
    d := new ContinuousGestureDetector(IsVisibleLongEnough, PalmX, 30.0, VolumeFor, 0);
  }
}
