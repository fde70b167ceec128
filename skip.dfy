/** LeapMagic's skip controller (LeapMagic/SkipController.cs): a hand pointing left
    skips to the previous track and one pointing right to the next, once it has
    pointed that way for 100 ms, once per pointing, at most once every half second.
    It is the discrete gesture machine with a three-valued direction in place of a
    boolean. */
module Skip {
  import opened Actions
  import opened Hands
  import Timeline

  const MIN_ACTION_DEBOUNCE: int := 500 * 1000
  const MIN_UNCENTERED_TIME: int := 100 * 1000
  const MIN_CENTERED_TIME: int := 100 * 1000

  /** The controller's mutable fields. */
  datatype SkipState = SkipState(
    lastTriggeredHandId: int,
    lastHandId: int,
    lastActionTime: int,
    lastUncenteredTime: int,
    direction: Pointing)

  /** A new controller: every number is zero and the direction holds the enumeration's
      first value, Left. */
  const INITIAL := SkipState(0, 0, 0, 0, Left)

  datatype Outcome = Outcome(next: SkipState, skipped: Option<MediaAction>)

  /** The direction the hand pointed at the previous sample; a different hand counts
      as having been centered. */
  function LastDirection(s: SkipState, handId: int): (d: Pointing)
    ensures s.lastHandId != handId ==> d == Center
    ensures s.lastHandId == handId ==> d == s.direction
  {
    if s.lastHandId == handId then s.direction else Center
  }

  /** The effect of one sample: the hand's id, the frame time and where it points. */
  function Step(s: SkipState, handId: int, timestamp: int, pointing: Pointing): (r: Outcome)
    // the current sample always replaces the direction and the hand id
    ensures r.next.direction == pointing && r.next.lastHandId == handId
    // turning to a new off-center direction restarts the timer
    ensures r.next.lastUncenteredTime ==
              if pointing != Center && LastDirection(s, handId) != pointing then timestamp else s.lastUncenteredTime
    // skips iff off center for more than 100 ms, by an unlocked hand, more than 500 ms after the last skip
    ensures r.skipped.Some? <==> pointing != Center && timestamp > r.next.lastUncenteredTime + MIN_UNCENTERED_TIME
                                 && s.lastTriggeredHandId != handId && timestamp > s.lastActionTime + MIN_ACTION_DEBOUNCE
    // left goes back a track, right forward
    ensures r.skipped.Some? ==> (pointing == Left <==> r.skipped.value == PreviousTrack)
                                && (pointing == Right <==> r.skipped.value == NextTrack)
    ensures r.next.lastActionTime == if r.skipped.Some? then timestamp else s.lastActionTime
    // the lock goes to the skipping hand, and is released only by centering at least
    // 100 ms after the hand last turned
    ensures r.next.lastTriggeredHandId ==
              if r.skipped.Some? then handId
              else if pointing == Center && LastDirection(s, handId) != Center
                      && timestamp >= s.lastUncenteredTime + MIN_CENTERED_TIME then -1
              else s.lastTriggeredHandId
  {
    var last := LastDirection(s, handId);
    var s1 := s.(direction := pointing, lastHandId := handId);
    if pointing == Center then
      var released := last != Center && timestamp >= s.lastUncenteredTime + MIN_CENTERED_TIME;
      Outcome(if released then s1.(lastTriggeredHandId := -1) else s1, None)
    else
      var s2 := if last != pointing then s1.(lastUncenteredTime := timestamp) else s1;
      if timestamp <= s2.lastUncenteredTime + MIN_UNCENTERED_TIME then Outcome(s2, None)
      else if s2.lastTriggeredHandId == handId then Outcome(s2, None)
      else if timestamp <= s2.lastActionTime + MIN_ACTION_DEBOUNCE then Outcome(s2, None)
      else
        var s3 := s2.(lastActionTime := timestamp, lastTriggeredHandId := handId);
        Outcome(s3, Some(if pointing == Left then PreviousTrack else NextTrack))
  }

  /** One call of `OnHand`, as the controller sees it. */
  datatype Sample = Sample(handId: int, timestamp: int, pointing: Pointing)

  /** A skip: the action taken and the frame time. */
  datatype SkipEvent = SkipEvent(action: MediaAction, timestamp: int)

  datatype Trace = Trace(final: SkipState, skips: seq<SkipEvent>)

  /** The effect of a sequence of samples, in order. */
  function Run(s: SkipState, samples: seq<Sample>): (r: Trace)
    ensures |r.skips| <= |samples|
    ensures r.skips != [] ==> r.skips[0].timestamp > s.lastActionTime + MIN_ACTION_DEBOUNCE
    ensures forall i :: 0 < i < |r.skips| ==> r.skips[i].timestamp > r.skips[i - 1].timestamp + MIN_ACTION_DEBOUNCE
    ensures r.final.lastActionTime == if r.skips == [] then s.lastActionTime else r.skips[|r.skips| - 1].timestamp
    decreases |samples|
  {
    if samples == [] then Trace(s, [])
    else
      var x := samples[0];
      var o := Step(s, x.handId, x.timestamp, x.pointing);
      var rest := Run(o.next, samples[1..]);
      Trace(rest.final, (if o.skipped.Some? then [SkipEvent(o.skipped.value, x.timestamp)] else []) + rest.skips)
  }

  /** Any two skips are more than half a second apart, whatever hands made them. */
  lemma SkipsPairwiseSpaced(s: SkipState, samples: seq<Sample>)
    ensures var skips := Run(s, samples).skips;
            forall i, j :: 0 <= i < j < |skips| ==> skips[j].timestamp > skips[i].timestamp + MIN_ACTION_DEBOUNCE
  {
    Timeline.SpacedPairwise(Timeline.TimesOf(Run(s, samples).skips, (e: SkipEvent) => e.timestamp), MIN_ACTION_DEBOUNCE);
  }

  /** A hand that already skipped and keeps pointing off center, swinging between
      left and right without passing through the center, never skips again and stays
      locked. */
  lemma {:induction false} LockedHandSwingingNeverSkips(s: SkipState, samples: seq<Sample>, h: int)
    requires s.lastTriggeredHandId == h
    requires forall i :: 0 <= i < |samples| ==> samples[i].handId == h && samples[i].pointing != Center
    ensures Run(s, samples).skips == [] && Run(s, samples).final.lastTriggeredHandId == h
    decreases |samples|
  {
    if samples != [] {
      var x := samples[0];
      LockedHandSwingingNeverSkips(Step(s, x.handId, x.timestamp, x.pointing).next, samples[1..], h);
    }
  }

  /** Point left and skip back, swing right while still locked, center to re-arm,
      then point right and skip forward: hand 5, starting one second into a new
      controller's life. */
  lemma CenterRearmsScenario()
    ensures Run(INITIAL, [Sample(5, 1000000, Left), Sample(5, 1150000, Left), Sample(5, 1200000, Right),
                          Sample(5, 1400000, Center), Sample(5, 1700000, Right), Sample(5, 1850000, Right)]).skips
            == [SkipEvent(PreviousTrack, 1150000), SkipEvent(NextTrack, 1850000)]
  {
    var s1 := Step(INITIAL, 5, 1000000, Left).next;
    var o2 := Step(s1, 5, 1150000, Left);
    assert o2.skipped == Some(PreviousTrack);
    var o3 := Step(o2.next, 5, 1200000, Right);
    assert o3.skipped == None;
    var s4 := Step(o3.next, 5, 1400000, Center).next;
    assert s4.lastTriggeredHandId == -1;
    var s5 := Step(s4, 5, 1700000, Right).next;
    assert Step(s5, 5, 1850000, Right).skipped == Some(NextTrack);
  }

  class SkipController {
    var lastTriggeredHandId: int
    var lastHandId: int
    var lastActionTime: int
    var lastUncenteredTime: int
    var direction: Pointing

    function State(): SkipState
      reads this
    {
      SkipState(lastTriggeredHandId, lastHandId, lastActionTime, lastUncenteredTime, direction)
    }

    constructor ()
      ensures State() == INITIAL
    {
      lastTriggeredHandId, lastHandId, lastActionTime, lastUncenteredTime := 0, 0, 0, 0;
      direction := Left;
    }

    /** Feed one eligible hand; returns the track action if it skipped. */
    method OnHand(hand: HandStats, timestamp: int) returns (fired: Option<MediaAction>)
      modifies this
      ensures State() == Step(old(State()), hand.id, timestamp, hand.pointing).next
      ensures fired == Step(old(State()), hand.id, timestamp, hand.pointing).skipped
    {
      var lastDirection := if lastHandId == hand.id then direction else Center;
      direction := hand.pointing;

      lastHandId := hand.id;

      if direction != Center && lastDirection != direction {
        lastUncenteredTime := timestamp;
      } else if direction == Center {
        if lastDirection != Center && timestamp >= lastUncenteredTime + MIN_CENTERED_TIME {
          lastTriggeredHandId := -1;
        }
        return None;
      }

      // off center for a bit, not just noise
      if timestamp <= lastUncenteredTime + MIN_UNCENTERED_TIME {
        return None;
      }
      // the same off-center hand does not skip again
      if lastTriggeredHandId == hand.id {
        return None;
      }
      // at most one skip every half second
      if timestamp <= lastActionTime + MIN_ACTION_DEBOUNCE {
        return None;
      }

      lastActionTime := timestamp;
      lastTriggeredHandId := hand.id;
      if direction == Left {
        fired := Some(PreviousTrack);
      } else if direction == Right {
        fired := Some(NextTrack);
      }
    }
  }
}
