/** LeapMagic's play/pause controller (LeapMagic/PlayPauseController.cs): an open
    hand toggles the music once, after it has been open for 100 ms, at most once a
    second. Its test of whether the hand is continuing differs from the discrete
    gesture detector's: only a positive recorded id that differs from the current
    one breaks continuity. */
module PlayPause {
  import opened Actions
  import opened Hands
  import Timeline

  const MIN_ACTION_DEBOUNCE: int := 1000 * 1000
  const MIN_OPEN_TIME: int := 100 * 1000
  const MIN_CLOSE_TIME: int := 100 * 1000

  /** The controller's mutable fields. */
  datatype PlayPauseState = PlayPauseState(
    lastOpenHandId: int,
    lastActionTime: int,
    lastHandOpenTime: int,
    isOpen: bool)

  /** A new controller: every field is zero or false. */
  const INITIAL := PlayPauseState(0, 0, 0, false)

  datatype Outcome = Outcome(next: PlayPauseState, toggled: bool)

  /** The hand was already open: the previous sample was open and no other hand
      with a positive id holds the lock. */
  predicate WasOpen(s: PlayPauseState, handId: int)
  {
    s.isOpen && !(s.lastOpenHandId > 0 && s.lastOpenHandId != handId)
  }

  /** The effect of one sample: the hand's id, the frame time and whether it is open. */
  function Step(s: PlayPauseState, handId: int, timestamp: int, open: bool): (r: Outcome)
    // the openness flag always takes the current sample's value
    ensures r.next.isOpen == open
    // opening restarts the open timer
    ensures r.next.lastHandOpenTime == if open && !WasOpen(s, handId) then timestamp else s.lastHandOpenTime
    // toggles iff open for more than 100 ms, not the locked hand, more than a second after the last toggle
    ensures r.toggled <==> open && timestamp > r.next.lastHandOpenTime + MIN_OPEN_TIME
                           && s.lastOpenHandId != handId && timestamp > s.lastActionTime + MIN_ACTION_DEBOUNCE
    ensures r.next.lastActionTime == if r.toggled then timestamp else s.lastActionTime
    // the lock goes to the toggling hand, and is released by closing at least 100 ms
    // after the hand opened
    ensures r.next.lastOpenHandId ==
              if r.toggled then handId
              else if !open && WasOpen(s, handId) && timestamp >= s.lastHandOpenTime + MIN_CLOSE_TIME then -1
              else s.lastOpenHandId
  {
    var was := WasOpen(s, handId);
    var s1 := s.(isOpen := open);
    if !open then
      var released := was && timestamp >= s.lastHandOpenTime + MIN_CLOSE_TIME;
      Outcome(if released then s1.(lastOpenHandId := -1) else s1, false)
    else
      var s2 := if was then s1 else s1.(lastHandOpenTime := timestamp);
      if timestamp <= s2.lastHandOpenTime + MIN_OPEN_TIME then Outcome(s2, false)
      else if s2.lastOpenHandId == handId then Outcome(s2, false)
      else if timestamp <= s2.lastActionTime + MIN_ACTION_DEBOUNCE then Outcome(s2, false)
      else Outcome(s2.(lastActionTime := timestamp, lastOpenHandId := handId), true)
  }

  /** One call of `OnHand`, as the controller sees it. */
  datatype Sample = Sample(handId: int, timestamp: int, open: bool)

  datatype Trace = Trace(final: PlayPauseState, toggles: seq<int>)

  /** The effect of a sequence of samples; `toggles` are the frame times of the toggles. */
  function Run(s: PlayPauseState, samples: seq<Sample>): (r: Trace)
    ensures |r.toggles| <= |samples|
    ensures r.toggles != [] ==> r.toggles[0] > s.lastActionTime + MIN_ACTION_DEBOUNCE
    ensures Timeline.Spaced(r.toggles, MIN_ACTION_DEBOUNCE)
    ensures r.final.lastActionTime == if r.toggles == [] then s.lastActionTime else r.toggles[|r.toggles| - 1]
    decreases |samples|
  {
    if samples == [] then Trace(s, [])
    else
      var x := samples[0];
      var o := Step(s, x.handId, x.timestamp, x.open);
      var rest := Run(o.next, samples[1..]);
      Trace(rest.final, (if o.toggled then [x.timestamp] else []) + rest.toggles)
  }

  /** Any two toggles are more than a second apart. */
  lemma TogglesPairwiseSpaced(s: PlayPauseState, samples: seq<Sample>)
    ensures var ts := Run(s, samples).toggles;
            forall i, j :: 0 <= i < j < |ts| ==> ts[j] > ts[i] + MIN_ACTION_DEBOUNCE
  {
    Timeline.SpacedPairwise(Run(s, samples).toggles, MIN_ACTION_DEBOUNCE);
  }

  /** While the locked hand stays open, nothing toggles and it stays locked. */
  lemma {:induction false} LockHeldWhileOpen(s: PlayPauseState, samples: seq<Sample>, h: int)
    requires s.lastOpenHandId == h
    requires forall i :: 0 <= i < |samples| ==> samples[i] == Sample(h, samples[i].timestamp, true)
    ensures Run(s, samples).toggles == [] && Run(s, samples).final.lastOpenHandId == h
    decreases |samples|
  {
    if samples != [] {
      var x := samples[0];
      LockHeldWhileOpen(Step(s, x.handId, x.timestamp, x.open).next, samples[1..], h);
    }
  }

  /** During an unbroken run of open samples by one hand the music toggles at most once. */
  lemma {:induction false} UnbrokenOpenTogglesAtMostOnce(s: PlayPauseState, samples: seq<Sample>, h: int)
    requires forall i :: 0 <= i < |samples| ==> samples[i] == Sample(h, samples[i].timestamp, true)
    ensures |Run(s, samples).toggles| <= 1
    decreases |samples|
  {
    if samples != [] {
      var x := samples[0];
      var o := Step(s, x.handId, x.timestamp, x.open);
      if o.toggled {
        LockHeldWhileOpen(o.next, samples[1..], h);
      } else {
        UnbrokenOpenTogglesAtMostOnce(o.next, samples[1..], h);
      }
    }
  }

  /** Once the lock has been released (id -1), an open hand that is replaced by a
      different open hand counts as continuing: the open timer is not restarted, so
      the new hand toggles at once. The same succession with a locked positive id
      restarts the timer. */
  lemma ContinuityIgnoresReleasedLock(t0: int, t: int, h: int, g: int)
    requires g > 0 && h > 0 && g != h
    requires t > t0 + MIN_OPEN_TIME && t > MIN_ACTION_DEBOUNCE
    ensures Step(PlayPauseState(-1, 0, t0, true), g, t, true).toggled
    ensures Step(PlayPauseState(h, 0, t0, true), g, t, true).next.lastHandOpenTime == t
    ensures !Step(PlayPauseState(h, 0, t0, true), g, t, true).toggled
  {
  }

  class PlayPauseController {
    var lastOpenHandId: int
    var lastActionTime: int
    var lastHandOpenTime: int
    var isOpen: bool

    function State(): PlayPauseState
      reads this
    {
      PlayPauseState(lastOpenHandId, lastActionTime, lastHandOpenTime, isOpen)
    }

    constructor ()
      ensures State() == INITIAL
    {
      lastOpenHandId, lastActionTime, lastHandOpenTime, isOpen := 0, 0, 0, false;
    }

    /** Feed one eligible hand; returns ToggleMusic if the music was toggled. */
    method OnHand(hand: HandStats, timestamp: int) returns (fired: Option<MediaAction>)
      modifies this
      ensures State() == Step(old(State()), hand.id, timestamp, hand.isOpen).next
      ensures fired == if Step(old(State()), hand.id, timestamp, hand.isOpen).toggled then Some(ToggleMusic) else None
    {
      var wasOpen := isOpen && !(lastOpenHandId > 0 && lastOpenHandId != hand.id);
      isOpen := hand.isOpen;

      if !wasOpen && isOpen {
        lastHandOpenTime := timestamp;
      } else if !isOpen {
        if wasOpen && timestamp >= lastHandOpenTime + MIN_CLOSE_TIME {
          lastOpenHandId := -1;
        }
        return None;
      }

      // open for a bit, not just noise
      if timestamp <= lastHandOpenTime + MIN_OPEN_TIME {
        return None;
      }
      // the same open hand does not toggle again
      if lastOpenHandId == hand.id {
        return None;
      }
      // at most one toggle a second
      if timestamp <= lastActionTime + MIN_ACTION_DEBOUNCE {
        return None;
      }

      lastActionTime := timestamp;
      lastOpenHandId := hand.id;
      fired := Some(ToggleMusic);
    }
  }
}
