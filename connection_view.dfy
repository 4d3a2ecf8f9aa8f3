/**
  `ConnectionView` (PodPals/ConnectionCalibrationView.swift): the view state that
  shows the current head orientation and runs the gesture recognisers on every
  orientation sample, updating its fields in place. Each method is tied to the
  pure step it performs in module Recognition.
*/
module ConnectionViews {
  import opened Wrappers
  import opened GestureActions
  import opened Recognition

  class ConnectionView {
    /** The last displayed orientation, in degrees. */
    var yawInDegrees: real
    var pitchInDegrees: real
    var rollInDegrees: real

    /** The recognisers' filter state and the time of the last recognised gesture. */
    var previousYaw: real
    var previousPitch: real
    var lastGestureActivationTime: real

    function State(): FilterState
      reads this
    {
      FilterState(previousYaw, previousPitch, lastGestureActivationTime)
    }

    /** A fresh view: every angle, the filter and the timestamp are 0. */
    constructor()
      ensures State() == InitialState
      ensures yawInDegrees == 0.0 && pitchInDegrees == 0.0 && rollInDegrees == 0.0
    {
      yawInDegrees, pitchInDegrees, rollInDegrees := 0.0, 0.0, 0.0;
      previousYaw, previousPitch := 0.0, 0.0;
      lastGestureActivationTime := 0.0;
    }

    /**
      `recognizeFlick`: smooths the yaw into `previousYaw` and, on a change above the
      threshold outside the debounce window, records the time and returns the flick
      with the action its binding names.
    */
    method RecognizeFlick(yaw: real, threshold: real, currentTime: real, bindings: Bindings)
      returns (event: Option<GestureEvent>)
      modifies this
      ensures Step(State(), event) == FlickStep(old(State()), yaw, threshold, currentTime, bindings)
      ensures previousYaw == 0.2 * yaw + 0.8 * old(previousYaw)
      ensures previousPitch == old(previousPitch)
      ensures lastGestureActivationTime == if event.Some? then currentTime else old(lastGestureActivationTime)
      ensures yawInDegrees == old(yawInDegrees) && pitchInDegrees == old(pitchInDegrees)
      ensures rollInDegrees == old(rollInDegrees)
    {
      var filteredYaw := Alpha * yaw + (1.0 - Alpha) * previousYaw;
      var yawChange := filteredYaw - previousYaw;
      previousYaw := filteredYaw;
      event := None;
      if Abs(yawChange) > threshold {
        if currentTime - lastGestureActivationTime >= DebounceTime {
          if yawChange > 0.0 {
            lastGestureActivationTime := currentTime;
            event := Some(GestureEvent(LeftFlick, currentTime, FromRawValue(bindings.leftFlick)));
          } else {
            lastGestureActivationTime := currentTime;
            event := Some(GestureEvent(RightFlick, currentTime, FromRawValue(bindings.rightFlick)));
          }
        }
      }
    }

    /**
      `recognizeNod`: smooths the pitch into `previousPitch` and, on a downward change
      above the threshold outside the debounce window, records the time and returns
      the nod with the action its binding names.
    */
    method RecognizeNod(pitch: real, threshold: real, currentTime: real, bindings: Bindings)
      returns (event: Option<GestureEvent>)
      modifies this
      ensures Step(State(), event) == NodStep(old(State()), pitch, threshold, currentTime, bindings)
      ensures previousPitch == 0.2 * pitch + 0.8 * old(previousPitch)
      ensures previousYaw == old(previousYaw)
      ensures lastGestureActivationTime == if event.Some? then currentTime else old(lastGestureActivationTime)
      ensures yawInDegrees == old(yawInDegrees) && pitchInDegrees == old(pitchInDegrees)
      ensures rollInDegrees == old(rollInDegrees)
    {
      var filteredPitch := Alpha * pitch + (1.0 - Alpha) * previousPitch;
      var pitchChange := filteredPitch - previousPitch;
      previousPitch := filteredPitch;
      event := None;
      if Abs(pitchChange) > threshold {
        if currentTime - lastGestureActivationTime >= DebounceTime {
          if pitchChange > 0.0 {
            lastGestureActivationTime := currentTime;
            event := Some(GestureEvent(Nod, currentTime, FromRawValue(bindings.nod)));
          }
        }
      }
    }

    /**
      The handler for one throttled orientation sample, already converted to degrees:
      ignored while tracking is off; otherwise it displays the angles, picks the
      thresholds from the sensitivity setting and runs the flick then the nod
      recogniser with one clock reading. At most one gesture comes out.
    */
    method OnOrientation(trackingEnabled: bool, yaw: real, pitch: real, roll: real, currentTime: real,
                         sensitivity: string, bindings: Bindings)
      returns (flick: Option<GestureEvent>, nod: Option<GestureEvent>)
      modifies this
      ensures trackingEnabled ==>
                && SampleResult(State(), flick, nod) ==
                   ProcessSample(old(State()), Sample(yaw, pitch, currentTime), sensitivity, bindings)
                && yawInDegrees == yaw && pitchInDegrees == pitch && rollInDegrees == roll
      ensures !trackingEnabled ==>
                && flick.None? && nod.None? && State() == old(State())
                && yawInDegrees == old(yawInDegrees) && pitchInDegrees == old(pitchInDegrees)
                && rollInDegrees == old(rollInDegrees)
      ensures !(flick.Some? && nod.Some?)
    {
      flick, nod := None, None;
      if trackingEnabled {
        yawInDegrees := yaw;
        pitchInDegrees := pitch;
        rollInDegrees := roll;

        var threshold := 10.0;
        var nodThreshold := 4.0;
        if sensitivity == "Low" {
          threshold, nodThreshold := 10.0, 4.0;
        } else if sensitivity == "Medium" {
          threshold, nodThreshold := 7.0, 3.0;
        } else {
          threshold, nodThreshold := 4.0, 2.0;
        }

        flick := RecognizeFlick(yawInDegrees, threshold, currentTime, bindings);
        nod := RecognizeNod(pitchInDegrees, nodThreshold, currentTime, bindings);
        assert Thresholds(threshold, nodThreshold) == SensitivityThresholds(sensitivity);
      }
    }
  }
}
