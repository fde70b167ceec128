# Gesture debounce engine of LeapMedia / LeapMagic

LeapMedia and LeapMagic are two small desktop applications. They watch a Leap Motion
hand-tracking device and turn hand gestures into media keys: play/pause, previous and
next track, volume up and down, and mute. Every tracking frame carries a microsecond
timestamp and a list of hands. A frame handler keeps only frames with one right hand
that is inside the tracked square and not resting on a mouse. It beeps when that hand
is new, and it hands the hand to a list of gesture detectors.

Each detector is a small state machine over hand ids and timestamps:

- The **discrete** detector fires once per sustained gesture. This covers open hand,
  pointing left or right, and hand raised. The gesture must be held for 100 ms. A
  per-hand lock stops it firing twice, and that lock is re-armed by a release. Two
  actions are always more than 500 ms apart.
- The **continuous** detector fires each time a scalar moves a threshold away from the
  value recorded at the last trigger. The scalar is the folded roll or the palm's x
  position. A direction debounce suppresses reversals. An earlier variant has no
  debounce, and the **scrub** detector is that variant specialised to lateral motion.
- LeapMagic's **play/pause** and **skip** controllers are older variants of the
  discrete machine.
  - Play/pause has a different hand-continuity test.
  - Skip has a three-valued direction.
  - LeapMagic's frame handler also skips tracks itself when the closed hand it already
    follows turns far enough, at most once a second.

The model has one module per source component:

- **Hands**: the per-frame classifier.
- **DiscreteGestures**, **ContinuousGestures**, **LegacyContinuousGestures**, **Scrub**,
  **PlayPause**, **Skip**: the detectors.
- **Detectors**: the common `OnHand` interface and the dispatch loop.
- **LeapMediaWindow**, **LeapMagicWindow**: the two frame handlers.

Every detector is a class with the source's fields. Its `OnHand` method mirrors the
source branch for branch. It is proved against a pure `Step` function over a datatype
of those fields. Properties over many samples are stated about `Run`, which folds
`Step` over a sequence of samples. Callbacks become values:
- `OnHand` returns the `MediaAction` it fired;
- the windows append `Act(action)` and `Beep` events to an `events` sequence.

Where the repository's documentation and its code disagree, the model follows the code:

- The "unset" value of the continuous and scrub detectors is tested with
  `float.IsNaN`, so the first eligible sample only records its value. The model uses
  `Option<real>`; there is no `== NaN` comparison in the code.
- The discrete detector's cooldown is not a minimum release time. A release clears the
  lock when it comes at least 100 ms after the *start* of the hold
  (LeapMedia/Gestures/DiscreteGestureDetector.cs:45).
- Every field starts at zero, including `lastActionTime` and the lock id. So a new
  detector fires nothing at timestamps up to 500000, and hand id 0 starts out locked.
  An open hand held from 50 ms does not fire at 160 ms on a new detector.
  `DiscreteGestures.ReleaseRearmsScenario` runs the hold–release–re-arm sequence one
  second later instead.
- The continuous detectors pass `last - current >= 0` to their callback. That is true
  when the value did *not* increase, although the doc comment says "true if the value
  has increased". A move from 100 to 135 therefore reports `false`.
- The roll fold maps (−π, 0) to (π, 2π). That removes the jump at ±π but puts one at 0,
  where a flat, palm-down hand sits. A closed hand turned from 0.01 to −0.01 rad moves
  the folded angle by nearly 2π, which lowers the volume
  (`ContinuousGestures.PalmDownTurnAcrossZeroTriggers`).
- A direction debounce of zero is accepted. It is the default, and
  `MoveHandXChangeVolumeGesture` uses it.
- LeapMagic calls its controllers *before* the beep; only LeapMedia beeps first.
  LeapMagic's gate also leaves `currentHand` alone; only LeapMedia resets it to 0.

## Model

| member | source | states |
|---|---|---|
| Hands.PointingOf | LeapMedia/HandStats.cs:70-76 | Left iff yaw ≥ 0.5, Right iff yaw ≤ −0.4, Center iff strictly between; exactly one holds |
| Hands.InBounds | LeapMedia/HandStats.cs:64 | in bounds iff −100 ≤ x ≤ 100 and −100 ≤ z ≤ 100 |
| Hands.HandStatsOf | LeapMedia/HandStats.cs:16-76 | copies id, side, position, yaw, roll and visibility time; open iff the signed angle sum ≥ 2; bounds, mouse use and pointing by the thresholds |
| Hands.ComputeAngleSum | LeapMedia/HandStats.cs:40-60 | the accumulating loop computes the signed angle sum: finger 2 skipped, the signs set by the side and by the finger's position relative to finger 2 |
| Hands.NewHandStats | LeapMedia/HandStats.cs:16-76 | the constructor yields exactly the classified hand of the raw hand |
| Hands.LeftHandNegatesAngleSum | LeapMedia/HandStats.cs:47-59 | for the same finger angles a left hand's sum is the right hand's negated |
| Hands.RightHandAngleSumSplit | LeapMedia/HandStats.cs:43-60 | a right hand's sum is angle 0 + angle 1 minus the sum of the angles after the middle finger |
| Hands.MagicMouseTestIsMoreSensitive | LeapMagic/MainWindow.xaml.cs:170-172 | every hand LeapMedia's thresholds (35 / 0.5 / 0) call mouse use, LeapMagic's (45 / 0 / 0) do too |
| DiscreteGestures.Step | LeapMedia/Gestures/DiscreteGestureDetector.cs:36-64 | the flag and hand id take the sample's values; a rising edge (or a hand change) restarts the hold timer; fires iff held > 100 ms, the hand is not locked and > 500 ms since the last action; firing stamps the time and locks the hand; a release ≥ 100 ms after the hold started unlocks |
| DiscreteGestures.Run | LeapMedia/Gestures/DiscreteGestureDetector.cs:58-62 | over any sample sequence, the first fire is > 500 ms after the last action before the run, consecutive fires are > 500 ms apart, and the final action time is the last fire's |
| DiscreteGestures.FiresPairwiseSpaced | LeapMedia/Gestures/DiscreteGestureDetector.cs:58-61 | any two fires of one detector are more than 500 ms apart, whatever hands made them |
| DiscreteGestures.LockHeldWhileHeld | LeapMedia/Gestures/DiscreteGestureDetector.cs:44-55 | while the locked hand keeps making the gesture nothing fires and the lock stays |
| DiscreteGestures.UnbrokenHoldFiresAtMostOnce | LeapMedia/Gestures/DiscreteGestureDetector.cs:42-62 | during an unbroken hold by one hand the detector fires at most once |
| DiscreteGestures.NoFireWithinSpacing | LeapMedia/Gestures/DiscreteGestureDetector.cs:57-58 | samples no later than 500 ms after the last action never fire |
| DiscreteGestures.FreshDetectorQuirks | LeapMedia/Gestures/DiscreteGestureDetector.cs:20-24 | a new detector fires nothing at timestamps ≤ 500000, and nothing for hand 0 holding the gesture |
| DiscreteGestures.ReleaseRearmsScenario | LeapMedia/Gestures/DiscreteGestureDetector.cs:36-64 | hold, fire once, release, re-arm, and fire again only once the 500 ms spacing allows |
| DiscreteGestures.DiscreteGestureDetector.constructor | LeapMedia/Gestures/DiscreteGestureDetector.cs:31-34 | keeps the predicate and action; every field zero |
| DiscreteGestures.DiscreteGestureDetector.OnHand | LeapMedia/Gestures/DiscreteGestureDetector.cs:36-64 | the fields become `Step`'s next state; returns the action exactly when `Step` fires (LeapMedia/DiscreteGestureDetector.cs:35-63 and LeapMedia/GestureDetector.cs:37-65 are line-for-line the same method with the same constants) |
| DiscreteGestures.OpenHandToggleMusicGesture | LeapMedia/Gestures/DiscreteGestureDetector.cs:70-73 | a new detector whose predicate is "hand open" and whose action is ToggleMusic |
| DiscreteGestures.HandLeftPrevTrackGesture | LeapMedia/Gestures/DiscreteGestureDetector.cs:78-81 | predicate "pointing Left", action PreviousTrack |
| DiscreteGestures.HandRightNextTrackGesture | LeapMedia/Gestures/DiscreteGestureDetector.cs:86-89 | predicate "pointing Right", action NextTrack |
| DiscreteGestures.HandDownMuteMusicGesture | LeapMedia/Gestures/DiscreteGestureDetector.cs:94-97 | predicate exactly palm y ≥ 200, action Mute |
| ContinuousGestures.Step | LeapMedia/Gestures/ContinuousGestureDetector.cs:44-72 | ineligible: nothing changes; first eligible sample only records; fires iff the move is ≥ the threshold and its direction is not debounced; a sub-threshold or suppressed move changes nothing; a trigger records the value, stamps only its own direction's time and reports `last − current ≥ 0` |
| ContinuousGestures.RunFirstTriggerValue | LeapMedia/Gestures/ContinuousGestureDetector.cs:53-70 | a run's first trigger is at least the threshold from the value recorded before it |
| ContinuousGestures.RunTriggersThresholdApart | LeapMedia/Gestures/ContinuousGestureDetector.cs:53-70 | successive triggers of a run are at least the threshold apart in value, each flagged by the direction of that move |
| ContinuousGestures.RunRecordsLastTrigger | LeapMedia/Gestures/ContinuousGestureDetector.cs:48-70 | after a run the recorded value is the last trigger's, or unchanged if nothing fired |
| ContinuousGestures.RunRecordsTriggerTimes | LeapMedia/Gestures/ContinuousGestureDetector.cs:58-68 | after a run each direction's time is that of its last trigger, or unchanged if nothing fired |
| ContinuousGestures.RunFirstTriggerDebounced | LeapMedia/Gestures/ContinuousGestureDetector.cs:58-68 | a run's first trigger comes after the other direction's last trigger time plus the debounce |
| ContinuousGestures.RunReversalsDebounced | LeapMedia/Gestures/ContinuousGestureDetector.cs:58-68 | within a run, a trigger that reverses the previous one's direction comes more than the debounce time after it |
| ContinuousGestures.ReversalSuppressedThenAllowed | LeapMedia/Gestures/ContinuousGestureDetector.cs:58-68 | a reversal is suppressed up to and including the trigger time plus the debounce, and fires after it |
| ContinuousGestures.RollAngle | LeapMedia/Gestures/ContinuousGestureDetector.cs:82-88 | the roll is kept when ≥ 0 and shifted by 2π otherwise; roll in (−π, π] maps into [0, 2π) |
| ContinuousGestures.RollAngleContinuousAtWrap | LeapMedia/Gestures/ContinuousGestureDetector.cs:81-88 | across the ±π wrap the folded angle moves by exactly as much as the hand turned |
| ContinuousGestures.RollAngleJumpsAtZero | LeapMedia/Gestures/ContinuousGestureDetector.cs:82-88 | the fold moves the discontinuity to 0: a turn from e to −e changes the folded angle by 2e − 2π |
| ContinuousGestures.PalmDownTurnAcrossZeroTriggers | LeapMedia/Gestures/ContinuousGestureDetector.cs:45-99 | with the roll configuration (0.35, 500 ms) a turn of at most 2 rad across 0 fires a negative change (volume down) once the debounce allows it |
| ContinuousGestures.VolumeFor | LeapMedia/Gestures/ContinuousGestureDetector.cs:92-98 | a true flag raises the volume, a false one lowers it |
| ContinuousGestures.ContinuousGestureDetector.constructor | LeapMedia/Gestures/ContinuousGestureDetector.cs:24-42 | keeps the gate, scalar, threshold, callback and debounce; nothing recorded, both times zero |
| ContinuousGestures.ContinuousGestureDetector.OnHand | LeapMedia/Gestures/ContinuousGestureDetector.cs:44-72 | the fields become `Step`'s next state; returns the callback's action exactly when `Step` fires |
| ContinuousGestures.RotateHandChangeVolumeGesture | LeapMedia/Gestures/ContinuousGestureDetector.cs:77-101 | closed hand only, folded roll, every 0.35 rad, 500 ms reversal debounce, volume callback |
| ContinuousGestures.MoveHandXChangeVolumeGesture | LeapMedia/Gestures/ContinuousGestureDetector.cs:106-122 | visible ≥ 500 ms only, palm x, every 30 mm, no debounce, volume callback |
| LegacyContinuousGestures.Step | LeapMedia/ContinuousGestureDetector.cs:33-48 | ineligible: nothing; first eligible sample only records; fires iff the move is ≥ the threshold, never suppressed; a trigger records the value and reports `last − current ≥ 0` |
| LegacyContinuousGestures.DebouncedAgreesWhenNotSuppressed | LeapMedia/ContinuousGestureDetector.cs:33-48 | when both directions' last triggers are older than the debounce, the debounced detector fires and records exactly like this one |
| LegacyContinuousGestures.RunFirstTriggerValue | LeapMedia/ContinuousGestureDetector.cs:42-45 | a run's first trigger is at least the threshold from the value recorded before it |
| LegacyContinuousGestures.RunTriggersThresholdApart | LeapMedia/ContinuousGestureDetector.cs:42-47 | every trigger is at least the threshold from the previous one, flagged by the direction of that move |
| LegacyContinuousGestures.LegacyContinuousGestureDetector.constructor | LeapMedia/ContinuousGestureDetector.cs:25-31 | keeps its configuration; nothing recorded |
| LegacyContinuousGestures.LegacyContinuousGestureDetector.OnHand | LeapMedia/ContinuousGestureDetector.cs:33-48 | the recorded value becomes `Step`'s; returns the callback's action exactly when `Step` fires |
| Scrub.Step | LeapMedia/ScrubDetector.cs:13-32 | visible ≤ 500 ms: nothing; first qualifying hand only records x; fires iff x moved ≥ 30 mm; a crossing records x, VolumeDown iff x increased, VolumeUp otherwise |
| Scrub.ScrubIsLegacyContinuous | LeapMedia/ScrubDetector.cs:13-32 | the scrub detector is the undebounced continuous detector with threshold 30, gate "visible > 500 ms" and the volume callback |
| Scrub.ZigzagFiresEveryMove | LeapMedia/ScrubDetector.cs:22-31 | a hand swinging back and forth by ≥ 30 mm changes the volume on every move, alternating down and up |
| Scrub.ScrubDetector.constructor | LeapMedia/ScrubDetector.cs:11 | nothing recorded |
| Scrub.ScrubDetector.OnHand | LeapMedia/ScrubDetector.cs:13-32 | the recorded x becomes `Step`'s; returns exactly `Step`'s action |
| PlayPause.Step | LeapMagic/PlayPauseController.cs:12-37 | the open flag takes the sample's value; opening restarts the timer unless the hand continues (only a positive other locked id breaks continuity); toggles iff open > 100 ms, not locked, > 1 s since the last toggle; a close ≥ 100 ms after opening unlocks |
| PlayPause.Run | LeapMagic/PlayPauseController.cs:32-34 | over any sample sequence the toggles are each more than a second after the previous one and the final action time is the last toggle's |
| PlayPause.TogglesPairwiseSpaced | LeapMagic/PlayPauseController.cs:32-35 | any two toggles are more than a second apart |
| PlayPause.LockHeldWhileOpen | LeapMagic/PlayPauseController.cs:13-29 | while the locked hand stays open nothing toggles and it stays locked |
| PlayPause.UnbrokenOpenTogglesAtMostOnce | LeapMagic/PlayPauseController.cs:16-35 | during an unbroken open run by one hand the music toggles at most once |
| PlayPause.ContinuityIgnoresReleasedLock | LeapMagic/PlayPauseController.cs:13-17 | after the lock is released (−1) a different open hand continues and toggles at once; with a positive lock it restarts the timer and does not toggle |
| PlayPause.PlayPauseController.constructor | LeapMagic/PlayPauseController.cs:7-10 | every field zero or false |
| PlayPause.PlayPauseController.OnHand | LeapMagic/PlayPauseController.cs:12-37 | the fields become `Step`'s; returns ToggleMusic exactly when `Step` toggles |
| Skip.LastDirection | LeapMagic/SkipController.cs:16 | the stored direction for the same hand, Center for a different one |
| Skip.Step | LeapMagic/SkipController.cs:15-46 | direction and hand id take the sample's values; turning to a new off-center direction restarts the timer; skips iff off center > 100 ms, not locked, > 500 ms since the last skip; Left gives PreviousTrack, Right NextTrack; centering ≥ 100 ms after turning unlocks |
| Skip.Run | LeapMagic/SkipController.cs:37-40 | over any sample sequence the skips are each more than 500 ms after the previous one and the final action time is the last skip's |
| Skip.SkipsPairwiseSpaced | LeapMagic/SkipController.cs:37-40 | any two skips are more than 500 ms apart |
| Skip.LockedHandSwingingNeverSkips | LeapMagic/SkipController.cs:21-34 | a locked hand swinging Left and Right without passing Center never skips and stays locked |
| Skip.CenterRearmsScenario | LeapMagic/SkipController.cs:15-46 | skip back, swing right while locked, center to re-arm, then skip forward |
| Skip.SkipController.constructor | LeapMagic/SkipController.cs:9-13 | every number zero and the direction Left, the enumeration's first value |
| Skip.SkipController.OnHand | LeapMagic/SkipController.cs:15-46 | the fields become `Step`'s; returns exactly `Step`'s skip |
| Detectors.Dispatch | LeapMedia/MainWindow.xaml.cs:124-126 | one `OnHand` call on any detector changes its fields as its own step function does and returns its action |
| Detectors.SteppedStates | LeapMedia/MainWindow.xaml.cs:124-126 | every detector's state after one step with the same hand and timestamp |
| Detectors.DispatchEvents | LeapMedia/MainWindow.xaml.cs:124-126 | the detectors' actions in list order: at most one per detector and never a beep |
| Detectors.FlattenAppend | LeapMedia/MainWindow.xaml.cs:124-126 | the events of a split list are the first part's followed by the second's |
| Detectors.DispatchEventsSplit | LeapMedia/MainWindow.xaml.cs:124-126 | the detectors act in list order: a list split in two yields the first part's actions followed by the second's |
| Detectors.DispatchEach | LeapMedia/MainWindow.xaml.cs:124-126 | the `foreach` leaves every detector in its stepped state and returns their actions in list order |
| LeapMediaWindow.HandStep | LeapMedia/MainWindow.xaml.cs:112-128 | left hand: nothing; out of bounds or on the mouse: current hand 0, no call; tracked: beep iff the id is new, then every detector steps once in list order, and the hand becomes current |
| LeapMediaWindow.FrameStep | LeapMedia/MainWindow.xaml.cs:84-129 | frames without exactly one hand change nothing; the beep sounds iff the lone hand is tracked and new |
| LeapMediaWindow.GatedFrameMakesNextHandNew | LeapMedia/MainWindow.xaml.cs:114-128 | after a gated-out frame the next tracked hand beeps iff its id is not 0 |
| LeapMediaWindow.SameHandBeepsOnce | LeapMedia/MainWindow.xaml.cs:119-128 | the same tracked hand in two frames in a row does not beep on the second |
| LeapMediaWindow.MainWindow.constructor | LeapMedia/MainWindow.xaml.cs:31-36 | the four detectors in order (open-hand toggle, left previous, right next, roll volume), all new; the fourth is gated on a closed hand, reads the folded roll, maps its flag to volume up or down and uses 0.35 rad and a 500 ms debounce; no current hand |
| LeapMediaWindow.MainWindow.DispatchHand | LeapMedia/MainWindow.xaml.cs:124-126 | every detector takes its stepped state; returns their actions in list order |
| LeapMediaWindow.MainWindow.HandleHand | LeapMedia/MainWindow.xaml.cs:112-128 | the window's fields, the detectors' states and the emitted events are those of `HandStep` |
| LeapMediaWindow.MainWindow.FrameHandler | LeapMedia/MainWindow.xaml.cs:84-129 | the window's fields, the detectors' states and the emitted events are those of `FrameStep` |
| LeapMagicWindow.InlineSkip | LeapMagic/MainWindow.xaml.cs:88-102 | an open hand never skips; a closed one skips iff yaw ≥ 0.6 or ≤ −0.4 and > 1 s since the last skip; ≥ 0.6 gives PreviousTrack, ≤ −0.4 NextTrack |
| LeapMagicWindow.HandStep | LeapMagic/MainWindow.xaml.cs:78-108 | an untracked hand changes nothing at all; a tracked one steps every controller first, then beeps if new or else may skip; the hand becomes current; a skip is > 1 s after the last and becomes the last action time |
| LeapMagicWindow.FrameStep | LeapMagic/MainWindow.xaml.cs:51-109 | frames without exactly one hand change nothing; the beep sounds iff the lone hand is tracked and new; the window's skip timing |
| LeapMagicWindow.Run | LeapMagic/MainWindow.xaml.cs:91-102 | over any frame sequence the window's own skips are each more than a second after the previous one |
| LeapMagicWindow.WindowSkipsPairwiseSpaced | LeapMagic/MainWindow.xaml.cs:91-102 | any two of the window's own skips are more than a second apart |
| LeapMagicWindow.NewHandBeepsInsteadOfSkipping | LeapMagic/MainWindow.xaml.cs:88-106 | a new hand does not skip and its beep is the frame's last event; a continuing hand never beeps |
| LeapMagicWindow.MainWindow.constructor | LeapMagic/MainWindow.xaml.cs:30 | one new play/pause controller; no current hand, no last action |
| LeapMagicWindow.MainWindow.DispatchHand | LeapMagic/MainWindow.xaml.cs:84-86 | every controller takes its stepped state; returns their actions in list order |
| LeapMagicWindow.MainWindow.HandleHand | LeapMagic/MainWindow.xaml.cs:78-108 | the window's fields, the controllers' states and the emitted events are those of `HandStep` |
| LeapMagicWindow.MainWindow.FrameHandler | LeapMagic/MainWindow.xaml.cs:51-109 | the window's fields, the controllers' states and the emitted events are those of `FrameStep` |

## Left out

- Key injection: LeapMedia/PlaybackUtil.cs, LeapMedia/Util/PlaybackUtil.cs and
  LeapMagic/PlaybackUtil.cs only send operating-system key events. The model emits
  `MediaAction` values instead.
- Volume control: LeapMedia/VolumeController.cs, LeapMagic/VolumeController.cs,
  LeapMedia/Util/VolumeUtil.cs and LeapMagic/VolumeUtil.cs are foreign calls with no
  logic. The model emits `MediaAction` values instead.
- Audio playback: LeapMedia/AudioController.cs and LeapMagic's `WaveOut` play the beep.
  It is the `Beep` event here.
- The user interface: the window, its notification-area icon, the text fields updated on every
  frame, and pausing and resuming tracking (`StartTracking`, `StopTracking`,
  `ToggleTracking`). None of these affects the engine's state.
- The tracking device: connecting to the Leap controller, setting its policies and
  subscribing to its frame events. Frames are method arguments. Calls are taken to be
  serialised, so threading is not modelled.
- The `IGestureDetector` and `IController` interfaces: the `Detector` datatype and
  `Detectors.Dispatch` stand in for them. LeapMedia/App.xaml.cs has no engine
  behaviour.
- Trigonometry: `Math.Atan2` in the angle sum is not computed. Each finger's angle
  difference to the middle finger is an input.
- Floating point: values are exact reals. The `float` rounding of the sum, the roll
  fold and the `0.35f` threshold are not modelled. `Math.PI` is its double value.
- Integer width: timestamps and ids are unbounded integers, so `long` overflow of
  `lastActionTime + …` is not modelled.
- Hands.HandStatsOf: LeapMagic's `HandStats` (LeapMagic/MainWindow.xaml.cs:112-174)
  has no `Pointing` property, yet LeapMagic's skip controller reads one. The model
  gives both applications LeapMedia's pointing thresholds (0.5 and −0.4). Only the
  mouse thresholds differ between the two.
- Hands.HandStatsOf: the source reads `hand.Fingers[2]` without a check
  (LeapMedia/HandStats.cs:42, LeapMagic/MainWindow.xaml.cs:146), so a hand with fewer
  than three fingers would throw. The tracking device always reports five fingers per
  hand, so that exception is not modelled; the model sums whatever angles it is given.
- ContinuousGestures.ContinuousGestureDetector.constructor: `DirectionDebounceTime` is a
  settable property (LeapMedia/Gestures/ContinuousGestureDetector.cs:24) that the factory
  sets in an object initializer straight after construction (:99). The model takes it
  as a constructor argument and never changes it afterwards, as no code does.
- Unwired detectors are modelled but not used by any window:
  - the skip controller is not in LeapMagic's controller list;
  - the scrub detector, the mute gesture and the lateral volume gesture are not in
    LeapMedia's detector list;
  - the earlier continuous detector has no factory.
- Detectors.StepOf: given a state of another kind of detector it leaves that state
  unchanged and fires nothing. No window ever does this, because each detector is
  always stepped from its own fields.
