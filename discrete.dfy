/** The discrete gesture detector: fires its action once per sustained gesture,
    with hold-time confirmation, a one-shot lock per hand, re-arming after a
    release and a global minimum spacing between actions.

    LeapMedia/Gestures/DiscreteGestureDetector.cs, LeapMedia/DiscreteGestureDetector.cs
    and LeapMedia/GestureDetector.cs hold the same `OnHand` with the same
    constants; this one class models all three. Timestamps are microseconds. */
module DiscreteGestures {
  import opened Actions
  import opened Hands
  import Timeline

  const MIN_TRIGGER_DEBOUNCE: int := 500 * 1000
  const MIN_DETECTION_TIME: int := 100 * 1000
  const MIN_COOLDOWN_TIME: int := 100 * 1000

  /** The detector's mutable fields. */
  datatype DiscreteState = DiscreteState(
    isMakingGesture: bool,
    lastActionTime: int,
    lastGestureTime: int,
    lastHandId: int,
    lastTriggerHandId: int)

  /** A new detector: every field is zero, so hand 0 starts out locked. */
  const INITIAL := DiscreteState(false, 0, 0, 0, 0)

  datatype Outcome = Outcome(next: DiscreteState, fired: bool)

  /** The previous sample made the gesture with this same hand. */
  predicate WasMaking(s: DiscreteState, handId: int)
  {
    s.isMakingGesture && s.lastHandId == handId
  }

  /** The effect of one sample: the hand's id, the frame time and whether the
      gesture predicate holds for it. */
  function Step(s: DiscreteState, handId: int, timestamp: int, making: bool): (r: Outcome)
    // the current sample always replaces the gesture flag and the hand id
    ensures r.next.isMakingGesture == making && r.next.lastHandId == handId
    // a rising edge (including a change of hand mid-gesture) restarts the hold timer
    ensures r.next.lastGestureTime == if making && !WasMaking(s, handId) then timestamp else s.lastGestureTime
    // fires iff held for more than 100 ms, by an unlocked hand, more than 500 ms after the last action
    ensures r.fired <==> making && timestamp > r.next.lastGestureTime + MIN_DETECTION_TIME
                         && s.lastTriggerHandId != handId && timestamp > s.lastActionTime + MIN_TRIGGER_DEBOUNCE
    ensures r.next.lastActionTime == if r.fired then timestamp else s.lastActionTime
    // the lock goes to the firing hand, and is released only by a release at least
    // 100 ms after the hold started
    ensures r.next.lastTriggerHandId ==
              if r.fired then handId
              else if !making && WasMaking(s, handId) && timestamp >= s.lastGestureTime + MIN_COOLDOWN_TIME then -1
              else s.lastTriggerHandId
  {
    var was := WasMaking(s, handId);
    var s1 := s.(isMakingGesture := making, lastHandId := handId);
    if !making then
      var released := was && timestamp >= s.lastGestureTime + MIN_COOLDOWN_TIME;
      Outcome(if released then s1.(lastTriggerHandId := -1) else s1, false)
    else
      var s2 := if was then s1 else s1.(lastGestureTime := timestamp);
      if timestamp <= s2.lastGestureTime + MIN_DETECTION_TIME then Outcome(s2, false)
      else if s2.lastTriggerHandId == handId then Outcome(s2, false)
      else if timestamp <= s2.lastActionTime + MIN_TRIGGER_DEBOUNCE then Outcome(s2, false)
      else Outcome(s2.(lastActionTime := timestamp, lastTriggerHandId := handId), true)
  }

  /** One call of `OnHand`, as the detector sees it. */
  datatype Sample = Sample(handId: int, timestamp: int, making: bool)

  /** A fired action: the hand that made the gesture and the frame time. */
  datatype Fire = Fire(handId: int, timestamp: int)

  datatype Trace = Trace(final: DiscreteState, fires: seq<Fire>)

  /** The effect of a sequence of samples, in order. */
  function Run(s: DiscreteState, samples: seq<Sample>): (r: Trace)
    ensures |r.fires| <= |samples|
    ensures r.fires != [] ==> r.fires[0].timestamp > s.lastActionTime + MIN_TRIGGER_DEBOUNCE
    ensures forall i :: 0 < i < |r.fires| ==> r.fires[i].timestamp > r.fires[i - 1].timestamp + MIN_TRIGGER_DEBOUNCE
    ensures r.final.lastActionTime == if r.fires == [] then s.lastActionTime else r.fires[|r.fires| - 1].timestamp
    decreases |samples|
  {
    if samples == [] then Trace(s, [])
    else
      var x := samples[0];
      var o := Step(s, x.handId, x.timestamp, x.making);
      var rest := Run(o.next, samples[1..]);
      Trace(rest.final, (if o.fired then [Fire(x.handId, x.timestamp)] else []) + rest.fires)
  }

  /** Any two actions of one detector are more than 500 ms apart, whatever hands made them. */
  lemma FiresPairwiseSpaced(s: DiscreteState, samples: seq<Sample>)
    ensures var fires := Run(s, samples).fires;
            forall i, j :: 0 <= i < j < |fires| ==> fires[j].timestamp > fires[i].timestamp + MIN_TRIGGER_DEBOUNCE
  {
    var fires := Run(s, samples).fires;
    var times := Timeline.TimesOf(fires, (f: Fire) => f.timestamp);
    Timeline.SpacedPairwise(times, MIN_TRIGGER_DEBOUNCE);
  }

  /** While a locked hand keeps making the gesture, nothing fires and it stays locked. */
  lemma {:induction false} LockHeldWhileHeld(s: DiscreteState, samples: seq<Sample>, h: int)
    requires s.lastTriggerHandId == h
    requires forall i :: 0 <= i < |samples| ==> samples[i] == Sample(h, samples[i].timestamp, true)
    ensures Run(s, samples).fires == [] && Run(s, samples).final.lastTriggerHandId == h
    decreases |samples|
  {
    if samples != [] {
      var x := samples[0];
      LockHeldWhileHeld(Step(s, x.handId, x.timestamp, x.making).next, samples[1..], h);
    }
  }

  /** During an unbroken run of gesture samples by one hand the detector fires at most once. */
  lemma {:induction false} UnbrokenHoldFiresAtMostOnce(s: DiscreteState, samples: seq<Sample>, h: int)
    requires forall i :: 0 <= i < |samples| ==> samples[i] == Sample(h, samples[i].timestamp, true)
    ensures |Run(s, samples).fires| <= 1
    decreases |samples|
  {
    if samples != [] {
      var x := samples[0];
      var o := Step(s, x.handId, x.timestamp, x.making);
      if o.fired {
        LockHeldWhileHeld(o.next, samples[1..], h);
      } else {
        UnbrokenHoldFiresAtMostOnce(o.next, samples[1..], h);
      }
    }
  }

  /** Samples no later than 500 ms after the last action fire nothing. */
  lemma {:induction false} NoFireWithinSpacing(s: DiscreteState, samples: seq<Sample>)
    requires forall i :: 0 <= i < |samples| ==> samples[i].timestamp <= s.lastActionTime + MIN_TRIGGER_DEBOUNCE
    ensures Run(s, samples).fires == []
    decreases |samples|
  {
    if samples != [] {
      var x := samples[0];
      NoFireWithinSpacing(Step(s, x.handId, x.timestamp, x.making).next, samples[1..]);
    }
  }

  /** A new detector fires nothing at timestamps up to 500000, and never for hand 0
      while that hand holds the gesture. */
  lemma FreshDetectorQuirks(samples: seq<Sample>)
    ensures (forall i :: 0 <= i < |samples| ==> samples[i].timestamp <= 500000) ==> Run(INITIAL, samples).fires == []
    ensures (forall i :: 0 <= i < |samples| ==> samples[i] == Sample(0, samples[i].timestamp, true)) ==> Run(INITIAL, samples).fires == []
  {
    if forall i :: 0 <= i < |samples| ==> samples[i].timestamp <= 500000 {
      NoFireWithinSpacing(INITIAL, samples);
    }
    if forall i :: 0 <= i < |samples| ==> samples[i] == Sample(0, samples[i].timestamp, true) {
      LockHeldWhileHeld(INITIAL, samples, 0);
    }
  }

  /** Hold, fire once, release, re-arm and fire again once the spacing allows, for
      hand 7 starting one second into a new detector's life. */
  lemma ReleaseRearmsScenario()
    ensures Run(INITIAL, [Sample(7, 1000000, false), Sample(7, 1050000, true), Sample(7, 1160000, true),
                          Sample(7, 1161000, true), Sample(7, 1300000, false), Sample(7, 1420000, true),
                          Sample(7, 1520000, true), Sample(7, 1700000, true)]).fires
            == [Fire(7, 1160000), Fire(7, 1700000)]
  {
    var s1 := Step(INITIAL, 7, 1000000, false).next;
    var s2 := Step(s1, 7, 1050000, true).next;
    var o3 := Step(s2, 7, 1160000, true);
    assert o3.fired;
    var s4 := Step(o3.next, 7, 1161000, true).next;
    var s5 := Step(s4, 7, 1300000, false).next;
    assert s5.lastTriggerHandId == -1;
    var s6 := Step(s5, 7, 1420000, true).next;
    var s7 := Step(s6, 7, 1520000, true).next;
    assert Step(s7, 7, 1700000, true).fired;
  }

  // --- the four gesture predicates used by the factories

  predicate IsOpenHand(h: HandStats) { h.isOpen }
  predicate IsPointingLeft(h: HandStats) { h.pointing == Left }
  predicate IsPointingRight(h: HandStats) { h.pointing == Right }
  predicate IsHandDown(h: HandStats) { h.palmY >= 200.0 }

  class DiscreteGestureDetector {
    const isGesture: HandStats -> bool
    const onGesture: MediaAction

    var isMakingGesture: bool
    var lastActionTime: int
    var lastGestureTime: int
    var lastHandId: int
    var lastTriggerHandId: int

    function State(): DiscreteState
      reads this
    {
      DiscreteState(isMakingGesture, lastActionTime, lastGestureTime, lastHandId, lastTriggerHandId)
    }

    constructor (isGesture: HandStats -> bool, onGesture: MediaAction)
      ensures State() == INITIAL
      ensures this.isGesture == isGesture && this.onGesture == onGesture
    {
      this.isGesture := isGesture;
      this.onGesture := onGesture;
      isMakingGesture, lastActionTime, lastGestureTime, lastHandId, lastTriggerHandId := false, 0, 0, 0, 0;
    }

    /** Feed one eligible hand; returns the action if the gesture fired. */
    method OnHand(hand: HandStats, timestamp: int) returns (fired: Option<MediaAction>)
      modifies this
      ensures State() == Step(old(State()), hand.id, timestamp, isGesture(hand)).next
      ensures fired == if Step(old(State()), hand.id, timestamp, isGesture(hand)).fired then Some(onGesture) else None
    {
      var wasMakingGesture := isMakingGesture && lastHandId == hand.id;
      isMakingGesture := isGesture(hand);

      lastHandId := hand.id;

      if !wasMakingGesture && isMakingGesture {
        lastGestureTime := timestamp;
      } else if !isMakingGesture {
        if wasMakingGesture && timestamp >= lastGestureTime + MIN_COOLDOWN_TIME {
          lastTriggerHandId := -1;
        }
        return None;
      }

      // held long enough to be more than noise
      if timestamp <= lastGestureTime + MIN_DETECTION_TIME {
        return None;
      }
      // this hand already fired for this hold
      if lastTriggerHandId == hand.id {
        return None;
      }
      // global spacing between actions
      if timestamp <= lastActionTime + MIN_TRIGGER_DEBOUNCE {
        return None;
      }

      lastActionTime := timestamp;
      lastTriggerHandId := hand.id;
      fired := Some(onGesture);
    }
  }

  /** Open hand toggles play/pause. */
  method OpenHandToggleMusicGesture() returns (d: DiscreteGestureDetector)
    ensures fresh(d) && d.State() == INITIAL && d.onGesture == ToggleMusic
    ensures forall h :: d.isGesture(h) == h.isOpen
  {
    d := new DiscreteGestureDetector(IsOpenHand, ToggleMusic);
  }

  /** Hand pointing left skips to the previous track. */
  method HandLeftPrevTrackGesture() returns (d: DiscreteGestureDetector)
    ensures fresh(d) && d.State() == INITIAL && d.onGesture == PreviousTrack
    ensures forall h :: d.isGesture(h) == (h.pointing == Left)
  {
    d := new DiscreteGestureDetector(IsPointingLeft, PreviousTrack);
  }

  /** Hand pointing right skips to the next track. */
  method HandRightNextTrackGesture() returns (d: DiscreteGestureDetector)
    ensures fresh(d) && d.State() == INITIAL && d.onGesture == NextTrack
    ensures forall h :: d.isGesture(h) == (h.pointing == Right)
  {
    d := new DiscreteGestureDetector(IsPointingRight, NextTrack);
  }

  /** A hand 200 mm or more above the device (moved far away from it) mutes. */
  method HandDownMuteMusicGesture() returns (d: DiscreteGestureDetector)
    ensures fresh(d) && d.State() == INITIAL && d.onGesture == Mute
    ensures forall h :: d.isGesture(h) == (h.palmY >= 200.0)
  {
    d := new DiscreteGestureDetector(IsHandDown, Mute);
  }
}
