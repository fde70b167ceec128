/** Values shared by every detector and by both frame handlers. */
module Actions {

  /** An optional value; stands for the `float.NaN` "not yet recorded" sentinel. */
  datatype Option<+T> = None | Some(value: T)

  /** The media actions a gesture can trigger; the operating-system key injection
      behind each one is outside the model. */
  datatype MediaAction = ToggleMusic | PreviousTrack | NextTrack | VolumeUp | VolumeDown | Mute

  /** What a frame handler emits: the "new hand" beep or a media action. */
  datatype Event = Beep | Act(action: MediaAction)

  /** The events of an optional fired action. */
  function EventsOf(fired: Option<MediaAction>): (es: seq<Event>)
    ensures |es| <= 1
    ensures es == [] <==> fired.None?
    ensures fired.Some? ==> es == [Act(fired.value)]
  {
    if fired.Some? then [Act(fired.value)] else []
  }

  /** Absolute value on reals, as `Math.Abs`. */
  function Abs(x: real): (r: real)
    ensures r >= 0.0
    ensures r == x || r == -x
  {
    if x < 0.0 then -x else x
  }
}
