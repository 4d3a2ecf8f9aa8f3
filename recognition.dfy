/**
  The head-gesture recognition engine of `ConnectionView`
  (PodPals/ConnectionCalibrationView.swift), as pure step functions over the three
  pieces of state it keeps. The class in connection_view.dfy runs these steps in
  place; the lemmas here state what one step, one sample and a whole stream of
  samples do.

  Angles are in degrees and times in seconds, all exact reals.
*/
module Recognition {
  import opened Wrappers
  import opened GestureActions

  /** Smoothing coefficient of the exponential filter (`alpha`). */
  const Alpha: real := 0.2

  /** Minimum time between two recognised gestures of any kind (`debounceTime`). */
  const DebounceTime: real := 1.0

  datatype GestureKind = LeftFlick | RightFlick | Nod

  /** A recognised gesture, when it happened, and the action it dispatches (None: nothing). */
  datatype GestureEvent = GestureEvent(kind: GestureKind, time: real, action: Option<GestureAction>)

  /** The configured binding strings `appState.leftFlick`, `rightFlick` and `nod`. */
  datatype Bindings = Bindings(leftFlick: string, rightFlick: string, nod: string)

  /** `previousYaw`, `previousPitch` and `lastGestureActivationTime`. */
  datatype FilterState = FilterState(previousYaw: real, previousPitch: real, lastGestureActivationTime: real)

  /** The state at the start of a tracking session: every field is 0. */
  const InitialState: FilterState := FilterState(0.0, 0.0, 0.0)

  /** The new state after one recogniser and the gesture it recognised, if any. */
  datatype Step = Step(state: FilterState, event: Option<GestureEvent>)

  /** Yaw (flick) and pitch (nod) thresholds in degrees. */
  datatype Thresholds = Thresholds(yaw: real, nod: real)

  /** One orientation sample, already converted to degrees, with the clock reading taken for it. */
  datatype Sample = Sample(yaw: real, pitch: real, time: real)

  /** The state after both recognisers have seen one sample, and what each recognised. */
  datatype SampleResult = SampleResult(state: FilterState, flick: Option<GestureEvent>, nod: Option<GestureEvent>)

  /** The state after a stream of samples and every gesture recognised, in order. */
  datatype Trace = Trace(state: FilterState, events: seq<GestureEvent>)

  function Abs(v: real): real
  {
    if v < 0.0 then -v else v
  }

  /** `recognizeFlick`: filter the yaw, then fire a left or right flick on a large enough change. */
  function FlickStep(s: FilterState, yaw: real, threshold: real, currentTime: real, bindings: Bindings): Step
  {
    var filteredYaw := Alpha * yaw + (1.0 - Alpha) * s.previousYaw;
    var yawChange := filteredYaw - s.previousYaw;
    var filtered := s.(previousYaw := filteredYaw);
    if Abs(yawChange) > threshold && currentTime - s.lastGestureActivationTime >= DebounceTime then
      var fired := filtered.(lastGestureActivationTime := currentTime);
      if yawChange > 0.0 then
        Step(fired, Some(GestureEvent(LeftFlick, currentTime, FromRawValue(bindings.leftFlick))))
      else
        Step(fired, Some(GestureEvent(RightFlick, currentTime, FromRawValue(bindings.rightFlick))))
    else
      Step(filtered, None)
  }

  /** `recognizeNod`: filter the pitch, then fire a nod on a large enough downward change. */
  function NodStep(s: FilterState, pitch: real, threshold: real, currentTime: real, bindings: Bindings): Step
  {
    var filteredPitch := Alpha * pitch + (1.0 - Alpha) * s.previousPitch;
    var pitchChange := filteredPitch - s.previousPitch;
    var filtered := s.(previousPitch := filteredPitch);
    if Abs(pitchChange) > threshold && currentTime - s.lastGestureActivationTime >= DebounceTime
       && pitchChange > 0.0
    then
      Step(filtered.(lastGestureActivationTime := currentTime),
           Some(GestureEvent(Nod, currentTime, FromRawValue(bindings.nod))))
    else
      Step(filtered, None)
  }

  /**
    The thresholds the sensitivity setting selects: "Low" and "Medium" by name,
    every other string (the menu offers "High") the most sensitive profile.
    Every profile is positive and puts the flick threshold above the nod threshold.
  */
  function SensitivityThresholds(sensitivity: string): (t: Thresholds)
    ensures 0.0 < t.nod < t.yaw
  {
    if sensitivity == "Low" then Thresholds(10.0, 4.0)
    else if sensitivity == "Medium" then Thresholds(7.0, 3.0)
    else Thresholds(4.0, 2.0)
  }

  /**
    One sample: the flick recogniser with the yaw threshold, then the nod recogniser
    with the nod threshold on the state the first left, both with the same clock
    reading. At most one of them fires.
  */
  function ProcessSample(s: FilterState, sample: Sample, sensitivity: string, bindings: Bindings): (r: SampleResult)
    ensures !(r.flick.Some? && r.nod.Some?)
  {
    var t := SensitivityThresholds(sensitivity);
    var f := FlickStep(s, sample.yaw, t.yaw, sample.time, bindings);
    var n := NodStep(f.state, sample.pitch, t.nod, sample.time, bindings);
    SampleResult(n.state, f.event, n.event)
  }

  /** The gestures one sample produced, flick before nod. */
  function EventsOf(r: SampleResult): seq<GestureEvent>
  {
    (if r.flick.Some? then [r.flick.value] else []) + (if r.nod.Some? then [r.nod.value] else [])
  }

  /** A stream of samples processed in arrival order, starting from state `s`. */
  function Run(s: FilterState, samples: seq<Sample>, sensitivity: string, bindings: Bindings): Trace
    decreases |samples|
  {
    if |samples| == 0 then Trace(s, [])
    else
      var prior := Run(s, samples[..|samples| - 1], sensitivity, bindings);
      var r := ProcessSample(prior.state, samples[|samples| - 1], sensitivity, bindings);
      Trace(r.state, prior.events + EventsOf(r))
  }

  /** Appending a sample processes it after the others. */
  lemma RunSnoc(s: FilterState, samples: seq<Sample>, next: Sample, sensitivity: string, b: Bindings)
    ensures var prior := Run(s, samples, sensitivity, b);
      var r := ProcessSample(prior.state, next, sensitivity, b);
      Run(s, samples + [next], sensitivity, b) == Trace(r.state, prior.events + EventsOf(r))
  {
    assert (samples + [next])[..|samples|] == samples;
  }

  function Pow(b: real, n: nat): real
  {
    if n == 0 then 1.0 else b * Pow(b, n - 1)
  }

  // ---------------------------------------------------------------------------
  // One recogniser step
  // ---------------------------------------------------------------------------

  /**
    Whether or not a flick fires, the stored yaw becomes 0.2*yaw + 0.8*previousYaw,
    so the change tested is 0.2*(yaw - previousYaw); the pitch is untouched, and a
    sample equal to the stored yaw changes nothing and fires nothing.
  */
  lemma FlickFilter(s: FilterState, yaw: real, threshold: real, now: real, b: Bindings)
    ensures FlickStep(s, yaw, threshold, now, b).state.previousYaw == 0.2 * yaw + 0.8 * s.previousYaw
    ensures FlickStep(s, yaw, threshold, now, b).state.previousYaw - s.previousYaw == 0.2 * (yaw - s.previousYaw)
    ensures FlickStep(s, yaw, threshold, now, b).state.previousPitch == s.previousPitch
    ensures threshold >= 0.0 && yaw == s.previousYaw ==>
              FlickStep(s, yaw, threshold, now, b) == Step(s, None)
  {
  }

  /**
    A flick fires exactly when the change is strictly above the threshold and the
    debounce window since the last gesture has elapsed; the timestamp moves to the
    current time exactly when it fires, and the event carries that time.
  */
  lemma FlickFiresIff(s: FilterState, yaw: real, threshold: real, now: real, b: Bindings)
    ensures FlickStep(s, yaw, threshold, now, b).event.Some? <==>
              Abs(0.2 * (yaw - s.previousYaw)) > threshold && now - s.lastGestureActivationTime >= DebounceTime
    ensures FlickStep(s, yaw, threshold, now, b).state.lastGestureActivationTime ==
              if FlickStep(s, yaw, threshold, now, b).event.Some? then now else s.lastGestureActivationTime
    ensures FlickStep(s, yaw, threshold, now, b).event.Some? ==> FlickStep(s, yaw, threshold, now, b).event.value.time == now
  {
  }

  /**
    A qualifying increase of the yaw is a left flick bound to `leftFlick`, any other
    qualifying change a right flick bound to `rightFlick` (with a nonnegative
    threshold, only a decrease qualifies); the flick recogniser never reports a nod.
  */
  lemma FlickDirection(s: FilterState, yaw: real, threshold: real, now: real, b: Bindings)
    requires FlickStep(s, yaw, threshold, now, b).event.Some?
    ensures var e := FlickStep(s, yaw, threshold, now, b).event.value;
      && (e.kind == LeftFlick <==> yaw > s.previousYaw)
      && (e.kind == RightFlick <==> yaw <= s.previousYaw)
      && (threshold >= 0.0 && e.kind == RightFlick ==> yaw < s.previousYaw)
      && (e.kind == LeftFlick ==> e.action == FromRawValue(b.leftFlick))
      && (e.kind == RightFlick ==> e.action == FromRawValue(b.rightFlick))
  {
  }

  /**
    The stored pitch becomes 0.2*pitch + 0.8*previousPitch whether or not a nod
    fires; the yaw is untouched.
  */
  lemma NodFilter(s: FilterState, pitch: real, threshold: real, now: real, b: Bindings)
    ensures NodStep(s, pitch, threshold, now, b).state.previousPitch == 0.2 * pitch + 0.8 * s.previousPitch
    ensures NodStep(s, pitch, threshold, now, b).state.previousPitch - s.previousPitch == 0.2 * (pitch - s.previousPitch)
    ensures NodStep(s, pitch, threshold, now, b).state.previousYaw == s.previousYaw
  {
  }

  /**
    A nod fires exactly when the pitch change is positive, strictly above the
    threshold in absolute value, and the debounce window has elapsed; it is bound to
    `nod` and moves the timestamp to the current time, which it carries.
  */
  lemma NodFiresIff(s: FilterState, pitch: real, threshold: real, now: real, b: Bindings)
    ensures NodStep(s, pitch, threshold, now, b).event.Some? <==>
              && pitch > s.previousPitch
              && Abs(0.2 * (pitch - s.previousPitch)) > threshold
              && now - s.lastGestureActivationTime >= DebounceTime
    ensures NodStep(s, pitch, threshold, now, b).state.lastGestureActivationTime ==
              if NodStep(s, pitch, threshold, now, b).event.Some? then now else s.lastGestureActivationTime
    ensures NodStep(s, pitch, threshold, now, b).event.Some? ==>
              NodStep(s, pitch, threshold, now, b).event.value == GestureEvent(Nod, now, FromRawValue(b.nod))
  {
  }

  /** A pitch that does not rise never fires and keeps the timestamp, however large the change. */
  lemma NegativePitchNeverFires(s: FilterState, pitch: real, threshold: real, now: real, b: Bindings)
    requires pitch <= s.previousPitch
    ensures NodStep(s, pitch, threshold, now, b).event.None?
    ensures NodStep(s, pitch, threshold, now, b).state.lastGestureActivationTime == s.lastGestureActivationTime
  {
  }

  /** A yaw change of exactly the threshold fires no flick and keeps the timestamp. */
  lemma FlickThresholdIsStrict(s: FilterState, yaw: real, threshold: real, now: real, b: Bindings)
    requires Abs(0.2 * (yaw - s.previousYaw)) == threshold
    ensures FlickStep(s, yaw, threshold, now, b).event.None?
    ensures FlickStep(s, yaw, threshold, now, b).state.lastGestureActivationTime == s.lastGestureActivationTime
  {
  }

  /** A pitch change of exactly the threshold fires no nod and keeps the timestamp. */
  lemma NodThresholdIsStrict(s: FilterState, pitch: real, threshold: real, now: real, b: Bindings)
    requires Abs(0.2 * (pitch - s.previousPitch)) == threshold
    ensures NodStep(s, pitch, threshold, now, b).event.None?
    ensures NodStep(s, pitch, threshold, now, b).state.lastGestureActivationTime == s.lastGestureActivationTime
  {
  }

  /** Within the debounce window neither recogniser fires, whatever the change, and the timestamp stays. */
  lemma DebounceBlocks(s: FilterState, yaw: real, pitch: real, yawThreshold: real, nodThreshold: real,
                       now: real, b: Bindings)
    requires now - s.lastGestureActivationTime < DebounceTime
    ensures FlickStep(s, yaw, yawThreshold, now, b).event.None?
    ensures FlickStep(s, yaw, yawThreshold, now, b).state.lastGestureActivationTime == s.lastGestureActivationTime
    ensures NodStep(s, pitch, nodThreshold, now, b).event.None?
    ensures NodStep(s, pitch, nodThreshold, now, b).state.lastGestureActivationTime == s.lastGestureActivationTime
  {
  }

  // ---------------------------------------------------------------------------
  // Sensitivity profiles and one sample
  // ---------------------------------------------------------------------------

  /** "Low" selects (10, 4), "Medium" (7, 3), and any other setting (4, 2). */
  lemma SensitivityTable(sensitivity: string)
    ensures SensitivityThresholds("Low") == Thresholds(10.0, 4.0)
    ensures SensitivityThresholds("Medium") == Thresholds(7.0, 3.0)
    ensures SensitivityThresholds("High") == Thresholds(4.0, 2.0)
    ensures sensitivity != "Low" && sensitivity != "Medium" ==>
              SensitivityThresholds(sensitivity) == SensitivityThresholds("High")
  {
  }

  /** A lower sensitivity has strictly larger thresholds on both axes. */
  lemma SensitivityOrdering()
    ensures SensitivityThresholds("Low").yaw > SensitivityThresholds("Medium").yaw > SensitivityThresholds("High").yaw
    ensures SensitivityThresholds("Low").nod > SensitivityThresholds("Medium").nod > SensitivityThresholds("High").nod
  {
  }

  /**
    A flick-sized motion between the High and the Low yaw thresholds, once the
    debounce window has elapsed, is a gesture under "High" and none under "Low".
  */
  lemma SensitivityScaling(s: FilterState, sample: Sample, b: Bindings)
    requires sample.time - s.lastGestureActivationTime >= DebounceTime
    requires 4.0 < Abs(0.2 * (sample.yaw - s.previousYaw)) <= 10.0
    requires sample.pitch == s.previousPitch
    ensures ProcessSample(s, sample, "High", b).flick.Some?
    ensures EventsOf(ProcessSample(s, sample, "Low", b)) == []
  {
  }

  /**
    What one sample does to the timestamp: it stays, or it moves to the sample's time
    when that is at least a debounce window later, and then exactly one gesture,
    carrying that time, was recognised.
  */
  lemma ProcessSampleTimestamp(s: FilterState, sample: Sample, sensitivity: string, b: Bindings)
    ensures var r := ProcessSample(s, sample, sensitivity, b);
      && |EventsOf(r)| <= 1
      && (EventsOf(r) == [] <==> r.state.lastGestureActivationTime == s.lastGestureActivationTime)
      && (EventsOf(r) != [] ==>
            && r.state.lastGestureActivationTime == sample.time
            && sample.time - s.lastGestureActivationTime >= DebounceTime
            && EventsOf(r)[0].time == sample.time)
  {
    var t := SensitivityThresholds(sensitivity);
    var f := FlickStep(s, sample.yaw, t.yaw, sample.time, b);
    FlickFiresIff(s, sample.yaw, t.yaw, sample.time, b);
    NodFiresIff(f.state, sample.pitch, t.nod, sample.time, b);
  }

  // ---------------------------------------------------------------------------
  // Streams of samples
  // ---------------------------------------------------------------------------

  /**
    Over any stream of samples: at most one gesture per sample; every gesture comes
    at least a debounce window after the starting timestamp; the final timestamp is
    the time of the last gesture (or the starting one); and any two gestures, of
    whatever kinds, are at least a debounce window apart.
  */
  lemma {:induction false} RunDebounce(s: FilterState, samples: seq<Sample>, sensitivity: string, b: Bindings)
    ensures var t := Run(s, samples, sensitivity, b);
      && |t.events| <= |samples|
      && t.state.lastGestureActivationTime >= s.lastGestureActivationTime
      && (t.events == [] ==> t.state.lastGestureActivationTime == s.lastGestureActivationTime)
      && (t.events != [] ==> t.state.lastGestureActivationTime == t.events[|t.events| - 1].time)
      && (forall i | 0 <= i < |t.events| ::
            t.events[i].time - s.lastGestureActivationTime >= DebounceTime
            && t.events[i].time <= t.state.lastGestureActivationTime)
      && (forall i, j | 0 <= i < j < |t.events| :: t.events[j].time - t.events[i].time >= DebounceTime)
    decreases |samples|
  {
    if |samples| > 0 {
      var init := samples[..|samples| - 1];
      var last := samples[|samples| - 1];
      RunDebounce(s, init, sensitivity, b);
      var prior := Run(s, init, sensitivity, b);
      ProcessSampleTimestamp(prior.state, last, sensitivity, b);
    }
  }

  /** A distance `d` shrunk by the factor 0.8 per step, `n` times. */
  function Decay(d: real, n: nat): real
  {
    if n == 0 then d else 0.8 * Decay(d, n - 1)
  }

  /** Shrinking `n` times by 0.8 is multiplying by 0.8^n. */
  lemma {:induction false} DecayIsPow(d: real, n: nat)
    ensures Decay(d, n) == Pow(0.8, n) * d
  {
    if n > 0 {
      DecayIsPow(d, n - 1);
      assert Decay(d, n) == 0.8 * (Pow(0.8, n - 1) * d);
    }
  }

  /**
    Fed a constant yaw and pitch, each filtered angle's distance to the input shrinks
    by the factor 0.8 per sample: after n samples it is 0.8^n times the initial one.
  */
  lemma ConstantInputConverges(s: FilterState, samples: seq<Sample>, yaw: real, pitch: real,
                               sensitivity: string, b: Bindings)
    requires forall k | 0 <= k < |samples| :: samples[k].yaw == yaw && samples[k].pitch == pitch
    ensures var t := Run(s, samples, sensitivity, b).state;
      var p := Pow(0.8, |samples|);
      t.previousYaw - yaw == p * (s.previousYaw - yaw) && t.previousPitch - pitch == p * (s.previousPitch - pitch)
  {
    ConstantInputDecays(s, samples, yaw, pitch, sensitivity, b);
    DecayIsPow(s.previousYaw - yaw, |samples|);
    DecayIsPow(s.previousPitch - pitch, |samples|);
  }

  /** The same, stated with the step-by-step shrinking. */
  lemma {:induction false} ConstantInputDecays(s: FilterState, samples: seq<Sample>, yaw: real, pitch: real,
                                               sensitivity: string, b: Bindings)
    requires forall k | 0 <= k < |samples| :: samples[k].yaw == yaw && samples[k].pitch == pitch
    ensures Run(s, samples, sensitivity, b).state.previousYaw - yaw == Decay(s.previousYaw - yaw, |samples|)
    ensures Run(s, samples, sensitivity, b).state.previousPitch - pitch == Decay(s.previousPitch - pitch, |samples|)
    decreases |samples|
  {
    if |samples| > 0 {
      var init := samples[..|samples| - 1];
      ConstantInputDecays(s, init, yaw, pitch, sensitivity, b);
      var prior := Run(s, init, sensitivity, b).state;
      var sample := samples[|samples| - 1];
      var t := SensitivityThresholds(sensitivity);
      var f := FlickStep(prior, sample.yaw, t.yaw, sample.time, b);
      FlickFilter(prior, sample.yaw, t.yaw, sample.time, b);
      NodFilter(f.state, sample.pitch, t.nod, sample.time, b);
      assert Run(s, samples, sensitivity, b).state == ProcessSample(prior, sample, sensitivity, b).state;
    }
  }

  /**
    Fed a constant yaw and pitch whose first changes are already within the thresholds,
    the engine stays quiet: the changes only shrink, so no gesture is ever recognised,
    and the timestamp is unchanged.
  */
  lemma {:induction false} ConstantInputStaysQuiet(s: FilterState, samples: seq<Sample>, yaw: real, pitch: real,
                                                   sensitivity: string, b: Bindings)
    requires forall k | 0 <= k < |samples| :: samples[k].yaw == yaw && samples[k].pitch == pitch
    requires Abs(0.2 * (yaw - s.previousYaw)) <= SensitivityThresholds(sensitivity).yaw
    requires Abs(0.2 * (pitch - s.previousPitch)) <= SensitivityThresholds(sensitivity).nod
    ensures Run(s, samples, sensitivity, b).events == []
    ensures Run(s, samples, sensitivity, b).state.lastGestureActivationTime == s.lastGestureActivationTime
    ensures Abs(yaw - Run(s, samples, sensitivity, b).state.previousYaw) <= Abs(yaw - s.previousYaw)
    ensures Abs(pitch - Run(s, samples, sensitivity, b).state.previousPitch) <= Abs(pitch - s.previousPitch)
    decreases |samples|
  {
    if |samples| > 0 {
      var init := samples[..|samples| - 1];
      ConstantInputStaysQuiet(s, init, yaw, pitch, sensitivity, b);
      var prior := Run(s, init, sensitivity, b);
      var t := SensitivityThresholds(sensitivity);
      var now := samples[|samples| - 1].time;
      FlickFiresIff(prior.state, yaw, t.yaw, now, b);
      FlickFilter(prior.state, yaw, t.yaw, now, b);
      var f := FlickStep(prior.state, yaw, t.yaw, now, b);
      NodFiresIff(f.state, pitch, t.nod, now, b);
      NodFilter(f.state, pitch, t.nod, now, b);
    }
  }

  /**
    Because the timestamp starts at 0, no gesture at all is recognised from a fresh
    state at a clock reading below the debounce window, however large the motion.
  */
  lemma StartupWindow(sample: Sample, sensitivity: string, b: Bindings)
    requires sample.time < DebounceTime
    ensures EventsOf(ProcessSample(InitialState, sample, sensitivity, b)) == []
    ensures ProcessSample(InitialState, sample, sensitivity, b).state.lastGestureActivationTime == 0.0
  {
    ProcessSampleTimestamp(InitialState, sample, sensitivity, b);
  }

  /**
    A Medium-sensitivity session whose stored yaw starts at 0, fed the yaw samples
    0, 50, 50, 50 at 100.0 s, 100.1 s, 100.2 s and 101.2 s: the filtered yaw goes
    0, 10, 18, 24.4; the change of 10 at 100.1 s is a left flick; the change of 8 at
    100.2 s falls in the debounce window; the change of 6.4 at 101.2 s is below 7.
  */
  lemma MediumScenario(b: Bindings)
    ensures var samples := [Sample(0.0, 0.0, 100.0), Sample(50.0, 0.0, 100.1),
                            Sample(50.0, 0.0, 100.2), Sample(50.0, 0.0, 101.2)];
      var t := Run(InitialState, samples, "Medium", b);
      && t.events == [GestureEvent(LeftFlick, 100.1, FromRawValue(b.leftFlick))]
      && t.state == FilterState(24.4, 0.0, 100.1)
  {
    var a, c, d, e := Sample(0.0, 0.0, 100.0), Sample(50.0, 0.0, 100.1), Sample(50.0, 0.0, 100.2), Sample(50.0, 0.0, 101.2);
    var s0 := InitialState;
    var r1 := ProcessSample(s0, a, "Medium", b);
    assert r1 == SampleResult(s0, None, None);
    var r2 := ProcessSample(r1.state, c, "Medium", b);
    assert r2 == SampleResult(FilterState(10.0, 0.0, 100.1), Some(GestureEvent(LeftFlick, 100.1, FromRawValue(b.leftFlick))), None);
    var r3 := ProcessSample(r2.state, d, "Medium", b);
    assert r3 == SampleResult(FilterState(18.0, 0.0, 100.1), None, None);
    var r4 := ProcessSample(r3.state, e, "Medium", b);
    assert r4 == SampleResult(FilterState(24.4, 0.0, 100.1), None, None);
    RunSnoc(s0, [], a, "Medium", b);
    RunSnoc(s0, [a], c, "Medium", b);
    RunSnoc(s0, [a, c], d, "Medium", b);
    RunSnoc(s0, [a, c, d], e, "Medium", b);
    assert Run(s0, [], "Medium", b) == Trace(s0, []);
    assert [] + [a] == [a] && [a] + [c] == [a, c] && [a, c] + [d] == [a, c, d] && [a, c, d] + [e] == [a, c, d, e];
    assert Run(s0, [a], "Medium", b) == Trace(s0, []);
    assert Run(s0, [a, c], "Medium", b) == Trace(r2.state, [r2.flick.value]);
    assert Run(s0, [a, c, d], "Medium", b) == Trace(r3.state, [r2.flick.value]);
    assert Run(s0, [a, c, d, e], "Medium", b) == Trace(r4.state, [r2.flick.value]);
    assert [a, c, d, e] == [Sample(0.0, 0.0, 100.0), Sample(50.0, 0.0, 100.1),
                            Sample(50.0, 0.0, 100.2), Sample(50.0, 0.0, 101.2)];
  }
}
