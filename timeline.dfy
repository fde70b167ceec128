/** Facts about sequences of action times, shared by every rate-limited detector. */
module Timeline {

  /** Each time is more than `gap` after the one before it. */
  ghost predicate Spaced(times: seq<int>, gap: int)
  {
    forall i :: 0 < i < |times| ==> times[i] > times[i - 1] + gap
  }

  /** The time of each event, in order. */
  function TimesOf<T>(events: seq<T>, timeOf: T -> int): (times: seq<int>)
    ensures |times| == |events|
    ensures forall i :: 0 <= i < |events| ==> times[i] == timeOf(events[i])
  {
    seq(|events|, i requires 0 <= i < |events| => timeOf(events[i]))
  }

  /** Consecutive spacing gives spacing between any two entries. */
  lemma {:induction false} SpacedPairwise(times: seq<int>, gap: int)
    requires gap >= 0 && Spaced(times, gap)
    ensures forall i, j :: 0 <= i < j < |times| ==> times[j] > times[i] + gap
  {
    if |times| > 1 {
      var init := times[..|times| - 1];
      assert Spaced(init, gap) by {
        forall i | 0 < i < |init| ensures init[i] > init[i - 1] + gap {
          assert init[i] == times[i] && init[i - 1] == times[i - 1];
        }
      }
      SpacedPairwise(init, gap);
      forall i, j | 0 <= i < j < |times| ensures times[j] > times[i] + gap {
        if j < |times| - 1 {
          assert init[i] == times[i] && init[j] == times[j];
        } else if i < j - 1 {
          assert init[i] == times[i] && init[j - 1] == times[j - 1];
        }
      }
    }
  }
}
