/** LeapMagic's frame handler (LeapMagic/MainWindow.xaml.cs): keeps one-handed
    frames of a right hand that is inside the bounds and not on the mouse, hands it
    to every controller, then either beeps for a new hand or, for the hand it
    already follows, skips a track itself when the closed hand is turned far
    enough, at most once a second. */
module LeapMagicWindow {
  import opened Actions
  import opened Hands
  import opened Detectors
  import PP = PlayPause
  import Timeline

  const MIN_ACTION_DEBOUNCE: int := 1000 * 1000
  /** Yaw at or above which a continuing closed hand skips back. */
  const PREV_YAW: real := 0.6
  /** Yaw at or below which a continuing closed hand skips forward. */
  const NEXT_YAW: real := -0.4

  /** The window's reaction to one frame: its new fields, the controllers' new states,
      the events emitted in order, and the skip the window itself made. */
  datatype Reaction = Reaction(currentHand: int, lastActionTime: int, states: seq<DetectorState>,
                               events: seq<Event>, windowSkip: Option<MediaAction>)

  /** A right hand inside the bounds and not on the mouse. */
  predicate Tracked(h: HandStats)
  {
    !h.isLeft && h.isInBounds && !h.isUsingMouse
  }

  /** The window's own skip for the hand it already follows. */
  function InlineSkip(lastActionTime: int, h: HandStats, t: int): (r: Option<MediaAction>)
    // an open hand never skips; a closed one needs a strong yaw and a second since the last skip
    ensures r.Some? <==> !h.isOpen && (h.yaw >= PREV_YAW || h.yaw <= NEXT_YAW) && t > lastActionTime + MIN_ACTION_DEBOUNCE
    // turned left goes back a track, turned right forward
    ensures r == Some(PreviousTrack) <==> r.Some? && h.yaw >= PREV_YAW
    ensures r == Some(NextTrack) <==> r.Some? && h.yaw <= NEXT_YAW
  {
    if h.isOpen then None
    else if h.yaw >= PREV_YAW then
      (if t <= lastActionTime + MIN_ACTION_DEBOUNCE then None else Some(PreviousTrack))
    else if h.yaw <= NEXT_YAW then
      (if t <= lastActionTime + MIN_ACTION_DEBOUNCE then None else Some(NextTrack))
    else None
  }

  /** The handler's reaction to the one hand of a frame, at the frame's time. */
  function HandStep(ds: seq<Detector>, currentHand: int, lastActionTime: int, states: seq<DetectorState>,
                    h: HandStats, t: int): (r: Reaction)
    requires |states| == |ds|
    ensures |r.states| == |ds|
    // a left hand, one out of bounds and one on the mouse change nothing at all
    ensures !Tracked(h) ==> r == Reaction(currentHand, lastActionTime, states, [], None)
    // a tracked hand: every controller steps once and their actions come first, in
    // list order; then a new hand beeps and a continuing one may skip; the hand
    // becomes the current one
    ensures Tracked(h) ==>
              r.currentHand == h.id
              && (forall k :: 0 <= k < |ds| ==> r.states[k] == StepOf(ds[k], states[k], h, t).0)
              && r.windowSkip == (if h.id == currentHand then InlineSkip(lastActionTime, h, t) else None)
              && r.events == DispatchEvents(ds, states, h, t) + (if h.id == currentHand then EventsOf(r.windowSkip) else [Beep])
    // the beep sounds exactly for a tracked hand whose id is not the current hand
    ensures Beep in r.events <==> Tracked(h) && h.id != currentHand
    // a window skip is more than a second after the previous one and becomes the last action
    ensures r.windowSkip.Some? ==> t > lastActionTime + MIN_ACTION_DEBOUNCE && r.lastActionTime == t
    ensures r.windowSkip.None? ==> r.lastActionTime == lastActionTime
  {
    if !Tracked(h) then Reaction(currentHand, lastActionTime, states, [], None)
    else
      var stepped := SteppedStates(ds, states, h, t);
      var dispatched := DispatchEvents(ds, states, h, t);
      if h.id == currentHand then
        var skip := InlineSkip(lastActionTime, h, t);
        Reaction(h.id, if skip.Some? then t else lastActionTime, stepped, dispatched + EventsOf(skip), skip)
      else
        Reaction(h.id, lastActionTime, stepped, dispatched + [Beep], None)
  }

  /** The frame handler as a function of the window's fields and the controllers' states. */
  function FrameStep(ds: seq<Detector>, currentHand: int, lastActionTime: int, states: seq<DetectorState>,
                     frame: Frame): (r: Reaction)
    requires |states| == |ds|
    ensures |r.states| == |ds|
    // only one-handed frames are looked at
    ensures |frame.hands| != 1 ==> r == Reaction(currentHand, lastActionTime, states, [], None)
    // the beep sounds exactly for a lone tracked hand whose id is not the current hand
    ensures Beep in r.events <==>
              |frame.hands| == 1 && Tracked(HandStatsOf(frame.hands[0], MAGIC_MOUSE)) && frame.hands[0].id != currentHand
    ensures r.windowSkip.Some? ==> frame.timestamp > lastActionTime + MIN_ACTION_DEBOUNCE && r.lastActionTime == frame.timestamp
    ensures r.windowSkip.None? ==> r.lastActionTime == lastActionTime
  {
    if |frame.hands| != 1 then Reaction(currentHand, lastActionTime, states, [], None)
    else HandStep(ds, currentHand, lastActionTime, states, HandStatsOf(frame.hands[0], MAGIC_MOUSE), frame.timestamp)
  }

  /** The window after a sequence of frames, with the times of the skips it made itself. */
  datatype Trace = Trace(final: Reaction, skipTimes: seq<int>)

  function Run(ds: seq<Detector>, currentHand: int, lastActionTime: int, states: seq<DetectorState>,
               frames: seq<Frame>): (r: Trace)
    requires |states| == |ds|
    ensures |r.final.states| == |ds|
    ensures |r.skipTimes| <= |frames|
    // the window's skips are each more than a second after the previous one
    ensures r.skipTimes != [] ==> r.skipTimes[0] > lastActionTime + MIN_ACTION_DEBOUNCE
    ensures Timeline.Spaced(r.skipTimes, MIN_ACTION_DEBOUNCE)
    ensures r.final.lastActionTime == if r.skipTimes == [] then lastActionTime else r.skipTimes[|r.skipTimes| - 1]
    decreases |frames|
  {
    if frames == [] then Trace(Reaction(currentHand, lastActionTime, states, [], None), [])
    else
      var o := FrameStep(ds, currentHand, lastActionTime, states, frames[0]);
      var rest := Run(ds, o.currentHand, o.lastActionTime, o.states, frames[1..]);
      Trace(rest.final, (if o.windowSkip.Some? then [frames[0].timestamp] else []) + rest.skipTimes)
  }

  /** Any two skips the window makes itself are more than a second apart. */
  lemma WindowSkipsPairwiseSpaced(ds: seq<Detector>, currentHand: int, lastActionTime: int,
                                  states: seq<DetectorState>, frames: seq<Frame>)
    requires |states| == |ds|
    ensures var ts := Run(ds, currentHand, lastActionTime, states, frames).skipTimes;
            forall i, j :: 0 <= i < j < |ts| ==> ts[j] > ts[i] + MIN_ACTION_DEBOUNCE
  {
    Timeline.SpacedPairwise(Run(ds, currentHand, lastActionTime, states, frames).skipTimes, MIN_ACTION_DEBOUNCE);
  }

  /** A newly seen hand never skips in its first frame: it only beeps, after the
      controllers' actions; a continuing hand never beeps. */
  lemma NewHandBeepsInsteadOfSkipping(ds: seq<Detector>, currentHand: int, lastActionTime: int,
                                      states: seq<DetectorState>, h: HandStats, t: int)
    requires |states| == |ds| && Tracked(h)
    ensures var r := HandStep(ds, currentHand, lastActionTime, states, h, t);
            (h.id != currentHand ==> r.windowSkip.None? && r.events[|r.events| - 1] == Beep)
            && (h.id == currentHand ==> Beep !in r.events)
  {
  }

  class MainWindow {
    const controllers: seq<Detector>
    var currentHand: int
    var lastActionTime: int
    var events: seq<Event>

    /** The controller objects. */
    ghost const Repr: set<object>

    /** Every controller object is in `Repr`, none appears twice in the list and
        none is the window. */
    ghost predicate Valid()
    {
      (forall k :: 0 <= k < |controllers| ==> Obj(controllers[k]) in Repr)
      && Distinct(controllers) && this !in Repr
    }

    /** The controllers' mutable fields, in list order. */
    ghost function States(): (states: seq<DetectorState>)
      requires Valid()
      reads Repr
      ensures |states| == |controllers|
      ensures forall k :: 0 <= k < |controllers| ==> states[k] == StateOf(controllers[k])
    {
      seq(|controllers|, k requires 0 <= k < |controllers| reads Repr => StateOf(controllers[k]))
    }

    /** The window's only controller is play/pause. */
    constructor ()
      ensures Valid() && fresh(Repr)
      ensures currentHand == 0 && lastActionTime == 0 && events == []
      ensures |controllers| == 1 && controllers[0].PlayPauseToggle?
      ensures States() == [PlayPauseFields(PP.INITIAL)]
    {
      var playPause := new PP.PlayPauseController();
      controllers := [PlayPauseToggle(playPause)];
      Repr := {playPause};
      currentHand, lastActionTime := 0, 0;
      events := [];
    }

    /** The `foreach` over the controllers with one hand. */
    method DispatchHand(hand: HandStats, t: int) returns (es: seq<Event>)
      requires Valid()
      modifies Repr
      ensures States() == SteppedStates(controllers, old(States()), hand, t)
      ensures es == DispatchEvents(controllers, old(States()), hand, t)
    {
      ghost var pre := States();
      ghost var post := SteppedStates(controllers, pre, hand, t);
      ghost var fired := Fired(controllers, pre, hand, t);
      es := DispatchEach(controllers, hand, t, pre, post, fired, Repr);
      assert States() == post;
    }

    /** Handle the one hand of a frame. */
    method HandleHand(hand: HandStats, t: int)
      requires Valid()
      modifies this, Repr
      ensures var r := HandStep(controllers, old(currentHand), old(lastActionTime), old(States()), hand, t);
              currentHand == r.currentHand && lastActionTime == r.lastActionTime
              && States() == r.states && events == old(events) + r.events
    {
      // right hand only
      if hand.isLeft {
        return;
      }
      if !hand.isInBounds {
        return;
      }
      if hand.isUsingMouse {
        return;
      }

      var es := DispatchHand(hand, t);
      events := events + es;

      if hand.id == currentHand {
        // only a closed hand skips
        if hand.isOpen {
          return;
        }
        if hand.yaw >= PREV_YAW {
          if t <= lastActionTime + MIN_ACTION_DEBOUNCE {
            return;
          }
          events := events + [Act(PreviousTrack)];
          lastActionTime := t;
        }
        if hand.yaw <= NEXT_YAW {
          if t <= lastActionTime + MIN_ACTION_DEBOUNCE {
            return;
          }
          events := events + [Act(NextTrack)];
          lastActionTime := t;
        }
      } else {
        // a new hand was detected
        events := events + [Beep];
      }

      currentHand := hand.id;
    }

    /** Handle one tracking frame. */
    method FrameHandler(frame: Frame)
      requires Valid()
      modifies this, Repr
      ensures var r := FrameStep(controllers, old(currentHand), old(lastActionTime), old(States()), frame);
              currentHand == r.currentHand && lastActionTime == r.lastActionTime
              && States() == r.states && events == old(events) + r.events
    {
      // one-handed gestures only
      if |frame.hands| != 1 {
        return;
      }

      var hand := NewHandStats(frame.hands[0], MAGIC_MOUSE);
      HandleHand(hand, frame.timestamp);
    }
  }
}
