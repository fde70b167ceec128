/** The earlier continuous gesture detector (LeapMedia/ContinuousGestureDetector.cs):
    fires each time a scalar feature of the hand moves a threshold away from the
    value recorded at the last trigger, with no direction debounce. */
module LegacyContinuousGestures {
  import opened Actions
  import opened Hands
  import CG = ContinuousGestures

  /** `next` is the recorded value (`None` for NaN); `fired` carries the callback flag. */
  datatype Outcome = Outcome(next: Option<real>, fired: Option<bool>)

  /** The effect of one sample: whether the hand may gesture and the monitored value. */
  function Step(last: Option<real>, threshold: real, canGesture: bool, value: real): (r: Outcome)
    // an ineligible sample changes nothing
    ensures !canGesture ==> r == Outcome(last, None)
    // the first eligible sample only records its value
    ensures canGesture && last.None? ==> r == Outcome(Some(value), None)
    // every crossing of the threshold fires: nothing is suppressed
    ensures r.fired.Some? <==> canGesture && last.Some? && Abs(last.value - value) >= threshold
    ensures r.fired.None? && last.Some? ==> r.next == last
    // a trigger records the new value and reports whether the value did not increase
    ensures r.fired.Some? ==> r.next == Some(value) && r.fired.value == CG.Flag(last.value, value)
  {
    if !canGesture then Outcome(last, None)
    else if last.None? then Outcome(Some(value), None)
    else
      var diff := last.value - value;
      if Abs(diff) < threshold then Outcome(last, None)
      else Outcome(Some(value), Some(diff >= 0.0))
  }

  /** The effect of a sequence of samples (timestamps are ignored by this detector). */
  function Run(last: Option<real>, threshold: real, samples: seq<CG.Sample>): (r: (Option<real>, seq<CG.Trigger>))
    ensures |r.1| <= |samples|
    decreases |samples|
  {
    if samples == [] then (last, [])
    else
      var x := samples[0];
      var o := Step(last, threshold, x.canGesture, x.value);
      var rest := Run(o.next, threshold, samples[1..]);
      (rest.0, (if o.fired.Some? then [CG.Trigger(x.value, o.fired.value, x.timestamp)] else []) + rest.1)
  }

  /** With the direction debounce out of the way (both directions' last triggers
      more than the debounce time ago), the debounced detector behaves exactly
      like this one. */
  lemma DebouncedAgreesWhenNotSuppressed(s: CG.ContinuousState, cfg: CG.ContinuousConfig, canGesture: bool, value: real, t: int)
    requires s.lastPositiveTriggerTime + cfg.directionDebounceTime < t
    requires s.lastNegativeTriggerTime + cfg.directionDebounceTime < t
    ensures var o := CG.Step(s, cfg, canGesture, value, t);
            var l := Step(s.lastTriggerValue, cfg.triggerThreshold, canGesture, value);
            o.fired == l.fired && o.next.lastTriggerValue == l.next
  {
  }

  /** The first trigger of a run is at least the threshold away from the value
      recorded before it. */
  lemma {:induction false} RunFirstTriggerValue(last: real, threshold: real, samples: seq<CG.Sample>)
    ensures var ts := Run(Some(last), threshold, samples).1;
            ts != [] ==> Abs(last - ts[0].value) >= threshold && ts[0].flag == CG.Flag(last, ts[0].value)
    decreases |samples|
  {
    if samples != [] {
      var x := samples[0];
      var o := Step(Some(last), threshold, x.canGesture, x.value);
      if o.fired.None? {
        RunFirstTriggerValue(last, threshold, samples[1..]);
      }
    }
  }

  /** Every trigger is at least the threshold away from the one before it, and its
      flag says whether the value did not increase from it. */
  lemma {:induction false} RunTriggersThresholdApart(last: Option<real>, threshold: real, samples: seq<CG.Sample>)
    ensures CG.AllThresholdApart(Run(last, threshold, samples).1, threshold)
    decreases |samples|
  {
    if samples != [] {
      var x := samples[0];
      var o := Step(last, threshold, x.canGesture, x.value);
      var rest := Run(o.next, threshold, samples[1..]);
      RunTriggersThresholdApart(o.next, threshold, samples[1..]);
      var r := Run(last, threshold, samples);
      if o.fired.Some? {
        var t := CG.Trigger(x.value, o.fired.value, x.timestamp);
        assert r.1 == [t] + rest.1;
        RunFirstTriggerValue(x.value, threshold, samples[1..]);
        CG.ConsThresholdApart(t, rest.1, threshold);
      } else {
        assert r.1 == rest.1;
      }
    }
  }

  class LegacyContinuousGestureDetector {
    const canGesture: HandStats -> bool
    const discreteValue: HandStats -> real
    const onGesture: bool -> MediaAction
    const triggerThreshold: real

    var lastTriggerValue: Option<real>

    constructor (canGesture: HandStats -> bool, discreteValue: HandStats -> real, triggerThreshold: real,
                 onGesture: bool -> MediaAction)
      ensures lastTriggerValue == None && this.triggerThreshold == triggerThreshold
      ensures this.canGesture == canGesture && this.discreteValue == discreteValue && this.onGesture == onGesture
    {
      this.canGesture := canGesture;
      this.discreteValue := discreteValue;
      this.triggerThreshold := triggerThreshold;
      this.onGesture := onGesture;
      lastTriggerValue := None;
    }

    /** Feed one hand; returns the action if a trigger fired. */
    method OnHand(hand: HandStats, timestamp: int) returns (fired: Option<MediaAction>)
      modifies this
      ensures lastTriggerValue == Step(old(lastTriggerValue), triggerThreshold, canGesture(hand), discreteValue(hand)).next
      ensures var o := Step(old(lastTriggerValue), triggerThreshold, canGesture(hand), discreteValue(hand));
              fired == if o.fired.Some? then Some(onGesture(o.fired.value)) else None
    {
      if !canGesture(hand) {
        return None;
      }

      var currentValue := discreteValue(hand);
      if lastTriggerValue.None? {
        lastTriggerValue := Some(currentValue);
        return None;
      }

      var diff := lastTriggerValue.value - currentValue;
      if Abs(diff) < triggerThreshold {
        return None;
      }

      lastTriggerValue := Some(currentValue);

      fired := Some(onGesture(diff >= 0.0));
    }
  }
}
