/** The detectors that a window fans a hand out to. LeapMedia calls them through its
    gesture detector interface and LeapMagic through its controller interface; both
    interfaces have the single operation `OnHand(hand, timestamp)`. Here one
    datatype holds a reference to any of the detector objects, and `Dispatch` is
    that operation. */
module Detectors {
  import opened Actions
  import opened Hands
  import DG = DiscreteGestures
  import CG = ContinuousGestures
  import LG = LegacyContinuousGestures
  import Scrub
  import PlayPause
  import Skip

  datatype Detector =
    | Discrete(discrete: DG.DiscreteGestureDetector)
    | Continuous(continuous: CG.ContinuousGestureDetector)
    | LegacyContinuous(legacy: LG.LegacyContinuousGestureDetector)
    | Scrubber(scrubber: Scrub.ScrubDetector)
    | PlayPauseToggle(playPause: PlayPause.PlayPauseController)
    | TrackSkip(skip: Skip.SkipController)

  /** The mutable fields of one detector, whatever its kind. */
  datatype DetectorState =
    | DiscreteFields(discreteFields: DG.DiscreteState)
    | ContinuousFields(continuousFields: CG.ContinuousState)
    | RecordedValue(recorded: Option<real>)
    | PlayPauseFields(playPauseFields: PlayPause.PlayPauseState)
    | SkipFields(skipFields: Skip.SkipState)

  /** The object behind a detector. */
  function Obj(d: Detector): object
  {
    match d
    case Discrete(g) => g
    case Continuous(g) => g
    case LegacyContinuous(g) => g
    case Scrubber(g) => g
    case PlayPauseToggle(g) => g
    case TrackSkip(g) => g
  }

  function StateOf(d: Detector): (st: DetectorState)
    reads Obj(d)
  {
    match d
    case Discrete(g) => DiscreteFields(g.State())
    case Continuous(g) => ContinuousFields(g.State())
    case LegacyContinuous(g) => RecordedValue(g.lastTriggerValue)
    case Scrubber(g) => RecordedValue(g.lastXTriggered)
    case PlayPauseToggle(g) => PlayPauseFields(g.State())
    case TrackSkip(g) => SkipFields(g.State())
  }

  /** One `OnHand` call on a detector in state `st`, by its own step function:
      the new state and the action it takes. Each detector's configuration is
      immutable, so it is read without a heap. A state of another kind of detector
      (never the case for a detector's own state) is left alone. */
  function StepOf(d: Detector, st: DetectorState, hand: HandStats, t: int): (r: (DetectorState, Option<MediaAction>))
  {
    match d
    case Discrete(g) =>
      if !st.DiscreteFields? then (st, None)
      else
        var o := DG.Step(st.discreteFields, hand.id, t, g.isGesture(hand));
        (DiscreteFields(o.next), if o.fired then Some(g.onGesture) else None)
    case Continuous(g) =>
      if !st.ContinuousFields? then (st, None)
      else
        var o := CG.Step(st.continuousFields, g.Config(), g.canGesture(hand), g.discreteValue(hand), t);
        (ContinuousFields(o.next), if o.fired.Some? then Some(g.onGesture(o.fired.value)) else None)
    case LegacyContinuous(g) =>
      if !st.RecordedValue? then (st, None)
      else
        var o := LG.Step(st.recorded, g.triggerThreshold, g.canGesture(hand), g.discreteValue(hand));
        (RecordedValue(o.next), if o.fired.Some? then Some(g.onGesture(o.fired.value)) else None)
    case Scrubber(_) =>
      if !st.RecordedValue? then (st, None)
      else
        var o := Scrub.Step(st.recorded, hand.timeVisible, hand.palmX);
        (RecordedValue(o.next), o.fired)
    case PlayPauseToggle(_) =>
      if !st.PlayPauseFields? then (st, None)
      else
        var o := PlayPause.Step(st.playPauseFields, hand.id, t, hand.isOpen);
        (PlayPauseFields(o.next), if o.toggled then Some(ToggleMusic) else None)
    case TrackSkip(_) =>
      if !st.SkipFields? then (st, None)
      else
        var o := Skip.Step(st.skipFields, hand.id, t, hand.pointing);
        (SkipFields(o.next), o.skipped)
  }

  /** The interface's `OnHand`: calls the detector's own method. */
  method Dispatch(d: Detector, hand: HandStats, t: int) returns (fired: Option<MediaAction>)
    modifies Obj(d)
    ensures StateOf(d) == StepOf(d, old(StateOf(d)), hand, t).0
    ensures fired == StepOf(d, old(StateOf(d)), hand, t).1
  {
    match d
    case Discrete(g) => fired := g.OnHand(hand, t);
    case Continuous(g) => fired := g.OnHand(hand, t);
    case LegacyContinuous(g) => fired := g.OnHand(hand, t);
    case Scrubber(g) => fired := g.OnHand(hand, t);
    case PlayPauseToggle(g) => fired := g.OnHand(hand, t);
    case TrackSkip(g) => fired := g.OnHand(hand, t);
  }

  /** The detectors' states after each has taken one step from its own state with
      the same hand and timestamp. */
  function SteppedStates(ds: seq<Detector>, states: seq<DetectorState>, hand: HandStats, t: int): (r: seq<DetectorState>)
    requires |states| == |ds|
    ensures |r| == |ds|
    ensures forall k :: 0 <= k < |ds| ==> r[k] == StepOf(ds[k], states[k], hand, t).0
  {
    seq(|ds|, k requires 0 <= k < |ds| => StepOf(ds[k], states[k], hand, t).0)
  }

  /** The action each detector takes when it steps from its own state with the hand. */
  function Fired(ds: seq<Detector>, states: seq<DetectorState>, hand: HandStats, t: int): (fired: seq<Option<MediaAction>>)
    requires |states| == |ds|
    ensures |fired| == |ds|
    ensures forall k :: 0 <= k < |ds| ==> fired[k] == StepOf(ds[k], states[k], hand, t).1
  {
    seq(|ds|, k requires 0 <= k < |ds| => StepOf(ds[k], states[k], hand, t).1)
  }

  /** The events of a list of detector outcomes, one after another. */
  function Flatten(fired: seq<Option<MediaAction>>): (es: seq<Event>)
    ensures |es| <= |fired|
    ensures Beep !in es
    decreases |fired|
  {
    if fired == [] then [] else Flatten(fired[..|fired| - 1]) + EventsOf(fired[|fired| - 1])
  }

  /** Flattening is compatible with concatenation: the events of a list split in two
      are the events of the first part followed by those of the second. */
  lemma {:induction false} FlattenAppend(a: seq<Option<MediaAction>>, b: seq<Option<MediaAction>>)
    ensures Flatten(a + b) == Flatten(a) + Flatten(b)
    decreases |b|
  {
    if b == [] {
      assert a + b == a;
    } else {
      var n := |b| - 1;
      assert (a + b)[..|a + b| - 1] == a + b[..n];
      FlattenAppend(a, b[..n]);
    }
  }

  /** The actions of one hand fanned out to every detector, in list order. */
  function DispatchEvents(ds: seq<Detector>, states: seq<DetectorState>, hand: HandStats, t: int): (es: seq<Event>)
    requires |states| == |ds|
    ensures |es| <= |ds|
    ensures Beep !in es
  {
    Flatten(Fired(ds, states, hand, t))
  }

  /** The detectors act in list order: dispatching over a list split in two gives the
      first part's actions, then the second part's. */
  lemma DispatchEventsSplit(ds1: seq<Detector>, states1: seq<DetectorState>, ds2: seq<Detector>,
                            states2: seq<DetectorState>, hand: HandStats, t: int)
    requires |states1| == |ds1| && |states2| == |ds2|
    ensures DispatchEvents(ds1 + ds2, states1 + states2, hand, t)
            == DispatchEvents(ds1, states1, hand, t) + DispatchEvents(ds2, states2, hand, t)
  {
    var f1, f2 := Fired(ds1, states1, hand, t), Fired(ds2, states2, hand, t);
    var f := Fired(ds1 + ds2, states1 + states2, hand, t);
    assert f == f1 + f2 by {
      forall k | 0 <= k < |f| ensures f[k] == (f1 + f2)[k] {
        if k < |ds1| {
          assert (ds1 + ds2)[k] == ds1[k] && (states1 + states2)[k] == states1[k];
        } else {
          assert (ds1 + ds2)[k] == ds2[k - |ds1|] && (states1 + states2)[k] == states2[k - |ds1|];
        }
      }
    }
    FlattenAppend(f1, f2);
  }

  /** No detector object appears twice in the list. */
  ghost predicate Distinct(ds: seq<Detector>)
  {
    forall j, k :: 0 <= j < k < |ds| ==> Obj(ds[j]) != Obj(ds[k])
  }

  /** The `foreach` over a window's detector list: every detector's `OnHand`, in
      list order, with the same hand and timestamp. `pre` holds the detectors' states
      on entry, `post` their states after one step and `fired` what each step does;
      `objs` is a frame holding every detector object. */
  method DispatchEach(ds: seq<Detector>, hand: HandStats, t: int, ghost pre: seq<DetectorState>,
                      ghost post: seq<DetectorState>, ghost fired: seq<Option<MediaAction>>,
                      ghost objs: set<object>) returns (es: seq<Event>)
    requires Distinct(ds)
    requires forall k :: 0 <= k < |ds| ==> Obj(ds[k]) in objs
    requires |pre| == |ds| && forall k :: 0 <= k < |ds| ==> StateOf(ds[k]) == pre[k]
    requires |post| == |ds| && |fired| == |ds|
    requires forall k {:trigger StepOf(ds[k], pre[k], hand, t)} :: 0 <= k < |ds| ==>
               post[k] == StepOf(ds[k], pre[k], hand, t).0 && fired[k] == StepOf(ds[k], pre[k], hand, t).1
    modifies objs
    ensures forall k :: 0 <= k < |ds| ==> StateOf(ds[k]) == post[k]
    ensures es == Flatten(fired)
  {
    es := [];
    var i := 0;
    while i < |ds|
      invariant 0 <= i <= |ds|
      invariant es == Flatten(fired[..i])
      invariant forall k :: 0 <= k < i ==> StateOf(ds[k]) == post[k]
      invariant forall k :: i <= k < |ds| ==> StateOf(ds[k]) == pre[k]
    {
      var f := Dispatch(ds[i], hand, t);
      es := es + EventsOf(f);
      assert fired[..i + 1][..i] == fired[..i];
      i := i + 1;
    }
    assert fired[..i] == fired;
  }
}
