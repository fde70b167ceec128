/** LeapMedia's frame handler (LeapMedia/MainWindow.xaml.cs): keeps one-handed
    frames of a right hand that is inside the bounds and not on the mouse, beeps
    when the hand is new, then hands it to every gesture detector in list order. */
module LeapMediaWindow {
  import opened Actions
  import opened Hands
  import opened Detectors
  import DG = DiscreteGestures
  import CG = ContinuousGestures

  /** The window's reaction to one frame: the new current hand, the detectors' new
      states and the events emitted, in order. */
  datatype Reaction = Reaction(currentHand: int, states: seq<DetectorState>, events: seq<Event>)

  /** A right hand inside the bounds and not on the mouse. */
  predicate Tracked(h: HandStats)
  {
    !h.isLeft && h.isInBounds && !h.isUsingMouse
  }

  /** The handler's reaction to the one hand of a frame, at the frame's time. */
  function HandStep(ds: seq<Detector>, currentHand: int, states: seq<DetectorState>, h: HandStats, t: int): (r: Reaction)
    requires |states| == |ds|
    ensures |r.states| == |ds|
    // a left hand changes nothing
    ensures h.isLeft ==> r == Reaction(currentHand, states, [])
    // a right hand out of bounds or on the mouse forgets the current hand; no detector is called
    ensures !h.isLeft && !Tracked(h) ==> r == Reaction(0, states, [])
    // a tracked hand: the beep for a new hand comes first, then every detector steps
    // once with this hand and timestamp and their actions follow in list order; the
    // hand becomes the current one
    ensures Tracked(h) ==>
              r.currentHand == h.id
              && (forall k :: 0 <= k < |ds| ==> r.states[k] == StepOf(ds[k], states[k], h, t).0)
              && r.events == (if h.id != currentHand then [Beep] else []) + DispatchEvents(ds, states, h, t)
    // the beep sounds exactly for a tracked hand whose id is not the current hand
    ensures Beep in r.events <==> Tracked(h) && h.id != currentHand
  {
    if h.isLeft then Reaction(currentHand, states, [])
    else if !h.isInBounds || h.isUsingMouse then Reaction(0, states, [])
    else
      var beep := if h.id != currentHand then [Beep] else [];
      Reaction(h.id, SteppedStates(ds, states, h, t), beep + DispatchEvents(ds, states, h, t))
  }

  /** The frame handler as a function of the current hand and the detectors' states. */
  function FrameStep(ds: seq<Detector>, currentHand: int, states: seq<DetectorState>, frame: Frame): (r: Reaction)
    requires |states| == |ds|
    ensures |r.states| == |ds|
    // only one-handed frames are looked at
    ensures |frame.hands| != 1 ==> r == Reaction(currentHand, states, [])
    // the beep sounds exactly for a lone tracked hand whose id is not the current hand
    ensures Beep in r.events <==>
              |frame.hands| == 1 && Tracked(HandStatsOf(frame.hands[0], MEDIA_MOUSE)) && frame.hands[0].id != currentHand
  {
    if |frame.hands| != 1 then Reaction(currentHand, states, [])
    else HandStep(ds, currentHand, states, HandStatsOf(frame.hands[0], MEDIA_MOUSE), frame.timestamp)
  }

  /** After a frame that drops the hand for leaving the bounds or using the mouse,
      the next tracked hand beeps, whatever its id, unless that id is 0. */
  lemma GatedFrameMakesNextHandNew(ds: seq<Detector>, currentHand: int, states: seq<DetectorState>, gated: Frame, next: Frame)
    requires |states| == |ds|
    requires |gated.hands| == 1 && !gated.hands[0].isLeft && !Tracked(HandStatsOf(gated.hands[0], MEDIA_MOUSE))
    requires |next.hands| == 1 && Tracked(HandStatsOf(next.hands[0], MEDIA_MOUSE))
    ensures var r1 := FrameStep(ds, currentHand, states, gated);
            var r2 := FrameStep(ds, r1.currentHand, r1.states, next);
            r1.events == [] && (Beep in r2.events <==> next.hands[0].id != 0)
  {
  }

  /** The same tracked hand in two frames in a row beeps at most on the first. */
  lemma SameHandBeepsOnce(ds: seq<Detector>, currentHand: int, states: seq<DetectorState>, f1: Frame, f2: Frame)
    requires |states| == |ds|
    requires |f1.hands| == 1 && Tracked(HandStatsOf(f1.hands[0], MEDIA_MOUSE))
    requires |f2.hands| == 1 && Tracked(HandStatsOf(f2.hands[0], MEDIA_MOUSE))
    requires f2.hands[0].id == f1.hands[0].id
    ensures var r1 := FrameStep(ds, currentHand, states, f1);
            Beep !in FrameStep(ds, r1.currentHand, r1.states, f2).events
  {
  }

  class MainWindow {
    const gestureDetectors: seq<Detector>
    var currentHand: int
    var events: seq<Event>

    /** The detector objects. */
    ghost const Repr: set<object>

    /** Every detector object is in `Repr`, none appears twice in the list and none
        is the window. */
    ghost predicate Valid()
    {
      (forall k :: 0 <= k < |gestureDetectors| ==> Obj(gestureDetectors[k]) in Repr)
      && Distinct(gestureDetectors) && this !in Repr
    }

    /** The detectors' mutable fields, in list order. */
    ghost function States(): (states: seq<DetectorState>)
      requires Valid()
      reads Repr
      ensures |states| == |gestureDetectors|
      ensures forall k :: 0 <= k < |gestureDetectors| ==> states[k] == StateOf(gestureDetectors[k])
    {
      seq(|gestureDetectors|, k requires 0 <= k < |gestureDetectors| reads Repr => StateOf(gestureDetectors[k]))
    }

    /** The window's detectors: open hand toggles play/pause, pointing left and right
        skip tracks, closed-hand roll changes the volume. */
    constructor ()
      ensures Valid() && fresh(Repr)
      ensures currentHand == 0 && events == []
      ensures |gestureDetectors| == 4
      ensures gestureDetectors[0].Discrete? && gestureDetectors[0].discrete.onGesture == ToggleMusic
              && forall h :: gestureDetectors[0].discrete.isGesture(h) == h.isOpen
      ensures gestureDetectors[1].Discrete? && gestureDetectors[1].discrete.onGesture == PreviousTrack
              && forall h :: gestureDetectors[1].discrete.isGesture(h) == (h.pointing == Left)
      ensures gestureDetectors[2].Discrete? && gestureDetectors[2].discrete.onGesture == NextTrack
              && forall h :: gestureDetectors[2].discrete.isGesture(h) == (h.pointing == Right)
      ensures gestureDetectors[3].Continuous? && gestureDetectors[3].continuous.Config() == CG.ContinuousConfig(0.35, 500 * 1000)
              && (forall h :: gestureDetectors[3].continuous.canGesture(h) == !h.isOpen)
              && (forall h :: gestureDetectors[3].continuous.discreteValue(h) == CG.RollAngle(h.roll))
              && (forall b :: gestureDetectors[3].continuous.onGesture(b) == CG.VolumeFor(b))
      ensures States() == [DiscreteFields(DG.INITIAL), DiscreteFields(DG.INITIAL), DiscreteFields(DG.INITIAL),
                           ContinuousFields(CG.INITIAL)]
    {
      var toggle := DG.OpenHandToggleMusicGesture();
      var previous := DG.HandLeftPrevTrackGesture();
      var next := DG.HandRightNextTrackGesture();
      var volume := CG.RotateHandChangeVolumeGesture();
      gestureDetectors := [Discrete(toggle), Discrete(previous), Discrete(next), Continuous(volume)];
      Repr := {toggle, previous, next, volume};
      currentHand := 0;
      events := [];
    }

    /** The `foreach` over the detectors with one hand. */
    method DispatchHand(hand: HandStats, t: int) returns (es: seq<Event>)
      requires Valid()
      modifies Repr
      ensures States() == SteppedStates(gestureDetectors, old(States()), hand, t)
      ensures es == DispatchEvents(gestureDetectors, old(States()), hand, t)
    {
      ghost var pre := States();
      ghost var post := SteppedStates(gestureDetectors, pre, hand, t);
      ghost var fired := Fired(gestureDetectors, pre, hand, t);
      es := DispatchEach(gestureDetectors, hand, t, pre, post, fired, Repr);
      assert States() == post;
    }

    /** Handle the one hand of a frame. */
    method HandleHand(hand: HandStats, t: int)
      requires Valid()
      modifies this, Repr
      ensures var r := HandStep(gestureDetectors, old(currentHand), old(States()), hand, t);
              currentHand == r.currentHand && States() == r.states && events == old(events) + r.events
    {
      // right hand only
      if hand.isLeft {
        return;
      }
      if !hand.isInBounds || hand.isUsingMouse {
        currentHand := 0;
        return;
      }

      if hand.id != currentHand {
        // a new hand was detected
        events := events + [Beep];
      }

      var es := DispatchHand(hand, t);
      events := events + es;

      currentHand := hand.id;
    }

    /** Handle one tracking frame. */
    method FrameHandler(frame: Frame)
      requires Valid()
      modifies this, Repr
      ensures var r := FrameStep(gestureDetectors, old(currentHand), old(States()), frame);
              currentHand == r.currentHand && States() == r.states && events == old(events) + r.events
    {
      // one-handed gestures only
      if |frame.hands| != 1 {
        return;
      }

      var hand := NewHandStats(frame.hands[0], MEDIA_MOUSE);
      HandleHand(hand, frame.timestamp);
    }
  }
}
