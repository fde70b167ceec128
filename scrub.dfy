/** The scrub detector (LeapMedia/ScrubDetector.cs): once a hand has been visible
    for half a second, each lateral movement of 30 mm from the last recorded
    position changes the volume, with no direction debounce. */
module Scrub {
  import opened Actions
  import opened Hands
  import CG = ContinuousGestures
  import Legacy = LegacyContinuousGestures

  const MIN_TRIGGER_DISTANCE: real := 30.0
  const MIN_TIME_VISIBLE: real := 500.0 * 1000.0

  /** `next` is the recorded position (`None` for NaN). */
  datatype Outcome = Outcome(next: Option<real>, fired: Option<MediaAction>)

  /** The effect of one hand: how long it has been visible and its palm's x position. */
  function Step(lastX: Option<real>, timeVisible: real, x: real): (r: Outcome)
    // a hand visible for no more than half a second changes nothing
    ensures timeVisible <= MIN_TIME_VISIBLE ==> r == Outcome(lastX, None)
    // the first qualifying hand only records its position
    ensures timeVisible > MIN_TIME_VISIBLE && lastX.None? ==> r == Outcome(Some(x), None)
    // fires iff the hand moved at least 30 mm from the recorded position
    ensures r.fired.Some? <==> timeVisible > MIN_TIME_VISIBLE && lastX.Some? && Abs(lastX.value - x) >= MIN_TRIGGER_DISTANCE
    ensures r.fired.None? && lastX.Some? ==> r.next == lastX
    // a crossing records the position; moving right lowers the volume, moving left raises it
    ensures r.fired.Some? ==>
              r.next == Some(x)
              && (r.fired.value == VolumeDown <==> x > lastX.value)
              && (r.fired.value == VolumeUp <==> x <= lastX.value)
  {
    if timeVisible <= MIN_TIME_VISIBLE then Outcome(lastX, None)
    else if lastX.None? then Outcome(Some(x), None)
    else
      var diff := lastX.value - x;
      if Abs(diff) < MIN_TRIGGER_DISTANCE then Outcome(lastX, None)
      else Outcome(Some(x), Some(if diff < 0.0 then VolumeDown else VolumeUp))
  }

  /** The scrub detector is the earlier continuous detector with a 30 mm threshold,
      a strict half-second visibility test and the volume callback. */
  lemma ScrubIsLegacyContinuous(lastX: Option<real>, timeVisible: real, x: real)
    ensures var l := Legacy.Step(lastX, MIN_TRIGGER_DISTANCE, timeVisible > MIN_TIME_VISIBLE, x);
            Step(lastX, timeVisible, x)
              == Outcome(l.next, if l.fired.Some? then Some(CG.VolumeFor(l.fired.value)) else None)
  {
  }

  /** One call of `OnHand`, as the detector sees it. */
  datatype Sample = Sample(timeVisible: real, x: real)

  function Run(lastX: Option<real>, samples: seq<Sample>): (r: (Option<real>, seq<MediaAction>))
    ensures |r.1| <= |samples|
    decreases |samples|
  {
    if samples == [] then (lastX, [])
    else
      var o := Step(lastX, samples[0].timeVisible, samples[0].x);
      var rest := Run(o.next, samples[1..]);
      (rest.0, (if o.fired.Some? then [o.fired.value] else []) + rest.1)
  }

  /** A visible hand moving back and forth between x and x + d, starting at x + d. */
  function Zigzag(x: real, d: real, n: nat): (samples: seq<Sample>)
    ensures |samples| == n
    ensures forall i :: 0 <= i < n ==> samples[i].timeVisible == 2.0 * MIN_TIME_VISIBLE
    decreases n
  {
    if n == 0 then []
    else [Sample(2.0 * MIN_TIME_VISIBLE, x + d)] + Zigzag(x + d, -d, n - 1)
  }

  /** The volume changes that a zigzag of n moves by d, started rightwards when d > 0, produces. */
  function Alternating(rightwards: bool, n: nat): (actions: seq<MediaAction>)
    ensures |actions| == n
    ensures forall i :: 0 <= i < n ==> actions[i] == (if (i % 2 == 0) == rightwards then VolumeDown else VolumeUp)
    decreases n
  {
    if n == 0 then []
    else [if rightwards then VolumeDown else VolumeUp] + Alternating(!rightwards, n - 1)
  }

  /** With no direction debounce, a hand swinging back and forth by at least 30 mm
      changes the volume on every single move, alternating down and up. */
  lemma {:induction false} ZigzagFiresEveryMove(x: real, d: real, n: nat)
    requires d >= MIN_TRIGGER_DISTANCE || d <= -MIN_TRIGGER_DISTANCE
    ensures Run(Some(x), Zigzag(x, d, n)).1 == Alternating(d > 0.0, n)
    ensures Run(Some(x), Zigzag(x, d, n)).0 == Some(if n % 2 == 0 then x else x + d)
    decreases n
  {
    if n > 0 {
      var samples := Zigzag(x, d, n);
      assert samples[0] == Sample(2.0 * MIN_TIME_VISIBLE, x + d);
      assert samples[1..] == Zigzag(x + d, -d, n - 1);
      var o := Step(Some(x), 2.0 * MIN_TIME_VISIBLE, x + d);
      assert o.fired == Some(if d > 0.0 then VolumeDown else VolumeUp);
      ZigzagFiresEveryMove(x + d, -d, n - 1);
    }
  }

  class ScrubDetector {
    var lastXTriggered: Option<real>

    constructor ()
      ensures lastXTriggered == None
    {
      lastXTriggered := None;
    }

    /** Feed one hand; returns the volume action if one fired. */
    method OnHand(hand: HandStats, timestamp: int) returns (fired: Option<MediaAction>)
      modifies this
      ensures lastXTriggered == Step(old(lastXTriggered), hand.timeVisible, hand.palmX).next
      ensures fired == Step(old(lastXTriggered), hand.timeVisible, hand.palmX).fired
    {
      if hand.timeVisible <= MIN_TIME_VISIBLE {
        return None;
      }

      var currentX := hand.palmX;
      if lastXTriggered.None? {
        lastXTriggered := Some(currentX);
        return None;
      }

      var diff := lastXTriggered.value - currentX;
      if Abs(diff) < MIN_TRIGGER_DISTANCE {
        return None;
      }

      lastXTriggered := Some(currentX);

      if diff < 0.0 {
        fired := Some(VolumeDown);
      } else {
        fired := Some(VolumeUp);
      }
    }
  }
}
