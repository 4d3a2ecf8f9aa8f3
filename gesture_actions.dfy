/**
  The media actions a gesture can be bound to (the `GestureAction` enum of
  PodPals/ConnectionCalibrationView.swift) and the lookup from a configured binding
  string to an action, Swift's `GestureAction(rawValue:)`. Carrying out an action
  (the AppleScript bodies of `execute()`) is outside the model: a recognised gesture
  yields the action value to dispatch.
*/
module GestureActions {
  import opened Wrappers

  datatype GestureAction = PlayPause | NextTrack | PreviousTrack | VolumeUp | VolumeDown

  /** The string each case is declared with. */
  function RawValue(a: GestureAction): string
  {
    match a
    case PlayPause => "Play/Pause"
    case NextTrack => "Next Track"
    case PreviousTrack => "Previous Track"
    case VolumeUp => "Volume Up"
    case VolumeDown => "Volume Down"
  }

  /**
    The failable initialiser `GestureAction(rawValue:)`: the case whose raw value is
    `s`, or nothing for any other string (for instance the menu's "Disabled").
  */
  function FromRawValue(s: string): (r: Option<GestureAction>)
    ensures r.Some? ==> RawValue(r.value) == s
  {
    if s == "Play/Pause" then Some(PlayPause)
    else if s == "Next Track" then Some(NextTrack)
    else if s == "Previous Track" then Some(PreviousTrack)
    else if s == "Volume Up" then Some(VolumeUp)
    else if s == "Volume Down" then Some(VolumeDown)
    else None
  }

  /** Looking up a case's own raw value gives that case back. */
  lemma RawValueRoundTrip(a: GestureAction)
    ensures FromRawValue(RawValue(a)) == Some(a)
  {
  }

  /** A string maps to no action exactly when it is the raw value of no case. */
  lemma {:induction false} FromRawValueNone(s: string)
    ensures FromRawValue(s).None? <==> forall a :: RawValue(a) != s
  {
    if FromRawValue(s).None? {
      forall a ensures RawValue(a) != s {
        RawValueRoundTrip(a);
      }
    }
  }

  /** The menu's "Disabled" choice, and the empty string, dispatch nothing. */
  lemma DisabledDispatchesNothing()
    ensures FromRawValue("Disabled") == None
    ensures FromRawValue("") == None
  {
  }

  /** Distinct cases have distinct raw values. */
  lemma RawValueInjective(a: GestureAction, b: GestureAction)
    ensures RawValue(a) == RawValue(b) ==> a == b
  {
    if RawValue(a) == RawValue(b) {
      RawValueRoundTrip(a);
      RawValueRoundTrip(b);
    }
  }
}
