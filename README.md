# PodPals gesture engine and vector algebra in Dafny

PodPals is a macOS menu-bar app. It reads the head orientation of the user's
AirPods and turns head gestures into media-control actions. This project models
the app's two pieces of logic:

- **The head-gesture recogniser of `ConnectionView`** (`recognition.dfy`,
  `connection_view.dfy`, `gesture_actions.dfy`). On every orientation sample, the
  yaw and pitch are smoothed by an exponential filter with α = 0.2. The change in
  each filtered angle is then compared strictly against a threshold. A left flick
  (yaw rises), a right flick (yaw falls) or a downward nod (pitch rises; a falling
  pitch is ignored) is recognised at most once per second, across all gesture
  kinds. The sensitivity setting picks the thresholds. Each gesture is bound by a
  setting string to a `GestureAction`; "Disabled" or any other unknown string
  binds to nothing.
  - `ConnectionViews.ConnectionView` is the view's state as a class. It has the
    three recogniser fields and the displayed angles, and its methods update them
    in place the way the source does.
  - Each method's postcondition ties its effect to a pure step function in
    `Recognition`: `FlickStep`, `NodStep` or `ProcessSample`.
  - The lemmas in `Recognition` are about those functions. They cover one step, one
    sample, and whole streams of samples (`Run`, the samples in arrival order).
- **The vector algebra extension of `CMAcceleration`** (`vector_math.dfy`). It
  provides cross product, dot product, scaling, copy, magnitude and normalisation
  on a 3-component `Vector3` over exact reals.

`wrappers.dfy` holds `Option` and `Result`.

Two notes on the clock and the inputs:
- **Clock readings.** The program's clock is the time since 1970 in seconds, and
  the timestamp of the last gesture starts at 0. So on any real first sample the
  debounce test `currentTime - lastGestureActivationTime >= 1.0` holds, and the
  first qualifying flick of a session fires at once. Only clock readings below 1 s,
  which the program never sees, would fall in the window after the starting
  timestamp (`Recognition.StartupWindow`). `Recognition.MediumScenario` therefore
  puts its samples at 100.0 s, 100.1 s, 100.2 s and 101.2 s. Yaw is 0, 50, 50 and 50,
  so the filtered yaw goes 0, 10, 18, 24.4. The change of 10 at 100.1 s is a left
  flick. The change of 8 at 100.2 s falls in the debounce window. The change of 6.4
  at 101.2 s is below the Medium threshold of 7.
- **Non-finite samples.** The recogniser has no guard against non-finite samples.
  Reals have no NaN, so the model has none either.

## Model

| member | source | states |
|---|---|---|
| GestureActions.FromRawValue | PodPals/ConnectionCalibrationView.swift:3-8 | the raw-value lookup returns an action only for a string that is that action's raw value |
| GestureActions.RawValueRoundTrip | PodPals/ConnectionCalibrationView.swift:3-8 | looking up any action's raw value gives that action back |
| GestureActions.FromRawValueNone | PodPals/ConnectionCalibrationView.swift:3-8 | the lookup gives nothing exactly when the string is none of the five raw values |
| GestureActions.DisabledDispatchesNothing | PodPals/ConnectionCalibrationView.swift:177-185 | the "Disabled" binding and the empty string dispatch no action |
| GestureActions.RawValueInjective | PodPals/ConnectionCalibrationView.swift:3-8 | distinct actions have distinct raw values |
| Recognition.SensitivityThresholds | PodPals/ConnectionCalibrationView.swift:247-259 | every sensitivity profile has positive thresholds, with the flick threshold above the nod threshold |
| Recognition.SensitivityTable | PodPals/ConnectionCalibrationView.swift:247-259 | "Low" selects (10, 4), "Medium" (7, 3), and every other string the same (4, 2) as "High" |
| Recognition.SensitivityOrdering | PodPals/ConnectionCalibrationView.swift:247-259 | going from Low to Medium to High strictly lowers both thresholds |
| Recognition.SensitivityScaling | PodPals/ConnectionCalibrationView.swift:247-263 | a yaw change above 4 and at most 10, outside the debounce window, is a flick under High and no gesture under Low |
| Recognition.FlickFilter | PodPals/ConnectionCalibrationView.swift:167-172 | the stored yaw becomes 0.2·yaw + 0.8·previous whether or not a flick fires; the tested change is 0.2·(yaw − previous); pitch is untouched; a sample equal to the stored yaw changes nothing and fires nothing |
| Recognition.FlickFiresIff | PodPals/ConnectionCalibrationView.swift:172-186 | a flick fires if and only if the change is strictly above the threshold and at least 1 s has passed since the last gesture; the timestamp becomes the current time exactly when it fires, and the event carries that time |
| Recognition.FlickDirection | PodPals/ConnectionCalibrationView.swift:174-186 | a rising yaw is a left flick bound to leftFlick and any other qualifying change a right flick bound to rightFlick (with a nonnegative threshold, only a falling yaw) |
| Recognition.NodFilter | PodPals/ConnectionCalibrationView.swift:192-194 | the stored pitch becomes 0.2·pitch + 0.8·previous whether or not a nod fires; yaw is untouched |
| Recognition.NodFiresIff | PodPals/ConnectionCalibrationView.swift:196-204 | a nod fires if and only if the pitch rises, the change is strictly above the threshold and the debounce window has elapsed; it is bound to nod and sets the timestamp to the current time |
| Recognition.NegativePitchNeverFires | PodPals/ConnectionCalibrationView.swift:198-204 | a pitch that does not rise never fires and never moves the timestamp, whatever the change |
| Recognition.FlickThresholdIsStrict | PodPals/ConnectionCalibrationView.swift:172-186 | a yaw change of exactly the flick threshold fires no flick and leaves the timestamp unchanged |
| Recognition.NodThresholdIsStrict | PodPals/ConnectionCalibrationView.swift:196-204 | a pitch change of exactly the nod threshold fires no nod and leaves the timestamp unchanged |
| Recognition.DebounceBlocks | PodPals/ConnectionCalibrationView.swift:173-203 | less than 1 s after the last gesture neither recogniser fires, and the timestamp is unchanged |
| Recognition.ProcessSample | PodPals/ConnectionCalibrationView.swift:245-263 | running the flick then the nod recogniser on one sample with one clock reading never yields both gestures |
| Recognition.ProcessSampleTimestamp | PodPals/ConnectionCalibrationView.swift:262-263 | one sample yields at most one gesture; it yields none exactly when the timestamp stays; otherwise the timestamp becomes the sample's time, at least 1 s after the previous one, and the gesture carries it |
| Recognition.RunDebounce | PodPals/ConnectionCalibrationView.swift:162-203 | over any stream: at most one gesture per sample; every gesture at least 1 s after the starting timestamp; the final timestamp is the last gesture's time; any two gestures of any kinds at least 1 s apart |
| Recognition.ConstantInputConverges | PodPals/ConnectionCalibrationView.swift:167-194 | under a constant yaw and pitch, after n samples each filtered angle's distance to the input is 0.8^n times its initial distance |
| Recognition.ConstantInputStaysQuiet | PodPals/ConnectionCalibrationView.swift:167-207 | under a constant yaw and pitch whose first changes are within the thresholds, no gesture is ever recognised, the timestamp stays, and the filtered angles never move away from the input |
| Recognition.StartupWindow | PodPals/ConnectionCalibrationView.swift:162-175 | from the initial state, no sample before t = 1 s yields a gesture, because the timestamp starts at 0 |
| Recognition.MediumScenario | PodPals/ConnectionCalibrationView.swift:245-263 | Medium sensitivity, yaw 0, 50, 50, 50 a tenth of a second then a second apart: exactly one left flick, at the second sample, and the filtered yaw ends at 24.4 |
| ConnectionViews.ConnectionView.constructor | PodPals/ConnectionCalibrationView.swift:151-164 | a fresh view has every angle, both filtered angles and the timestamp at 0 |
| ConnectionViews.ConnectionView.RecognizeFlick | PodPals/ConnectionCalibrationView.swift:167-189 | the new fields and the returned gesture are those of FlickStep on the old fields: previousYaw is 0.2·yaw + 0.8·old, the timestamp moves to the current time exactly when a flick is returned, and nothing else changes |
| ConnectionViews.ConnectionView.RecognizeNod | PodPals/ConnectionCalibrationView.swift:191-207 | the new fields and the returned gesture are those of NodStep on the old fields: previousPitch is 0.2·pitch + 0.8·old, the timestamp moves exactly when a nod is returned, and nothing else changes |
| ConnectionViews.ConnectionView.OnOrientation | PodPals/ConnectionCalibrationView.swift:236-263 | with tracking on, the view displays the angles and its state and gestures are those of ProcessSample; with tracking off nothing changes and nothing fires; never two gestures |
| VectorMath.Cross | PodPals/Utilities/AccelerationExtension.swift:12-16 | the cross product is orthogonal to both operands |
| VectorMath.CrossAntiCommutative | PodPals/Utilities/AccelerationExtension.swift:12-16 | b×a is a×b scaled by −1 |
| VectorMath.CrossSelfIsZero | PodPals/Utilities/AccelerationExtension.swift:12-16 | a×a is the zero vector |
| VectorMath.DotCommutative | PodPals/Utilities/AccelerationExtension.swift:18-20 | a·b equals b·a |
| VectorMath.DotScaledLeft | PodPals/Utilities/AccelerationExtension.swift:18-33 | (a scaled by k)·b equals k·(a·b) |
| VectorMath.ScaledCompose | PodPals/Utilities/AccelerationExtension.swift:31-33 | scaling by j then by k is scaling by j·k |
| VectorMath.ScaledByOne | PodPals/Utilities/AccelerationExtension.swift:31-33 | scaling by 1 is the identity |
| VectorMath.Copy | PodPals/Utilities/AccelerationExtension.swift:35-37 | the copy has the same three components as the original |
| VectorMath.MagnitudeLaws | PodPals/Utilities/AccelerationExtension.swift:22-24 | given a square root, the magnitude is non-negative and its square is a·a |
| VectorMath.Normalized | PodPals/Utilities/AccelerationExtension.swift:26-29 | normalising fails exactly when the magnitude is 0; otherwise scaling the result by the magnitude gives the input back |

## Left out

- Action execution: the `execute()` bodies of the actions, the Spotify and Music AppleScript controllers, and the `DispatchQueue.global` hand-off (PodPals/ConnectionCalibrationView.swift:10-145). They are calls into the operating system and concurrency. The model returns the action a gesture dispatches, or None.
- The "… Detected" console messages: they are logging only.
- The Combine `throttle(for: 0.10 …)` on the orientation stream. The samples the model processes are the ones that pass it, in order.
- The clock `Date().timeIntervalSince1970`: it is a parameter, `currentTime` or `Sample.time`.
- The conversion of the quaternion to yaw, pitch and roll in degrees (`toAmbisonicCoordinateSystem`, `toTaitBryan`, `rad2deg`). Those functions are not part of this model, and they are floating-point trigonometry. `OnOrientation` receives the angles in degrees.
- The app settings (`appState.sensitivity`, `trackingEnabled`, `leftFlick`, `rightFlick`, `nod`): they are parameters. `HeadphoneMotionDetector` and calibration start, finish and reset are not part of this model.
- SwiftUI view bodies, the rest of the app shell, and CoreMotion.
- IEEE-754 arithmetic: all arithmetic is over exact reals, so rounding, overflow and NaN/infinity are not modelled.
- VectorMath.Magnitude: the platform `sqrt` is a parameter, and the lemmas that need its law require `IsSqrt`. No square-root function is defined inside the model.
- VectorMath.Normalized: the source returns NaN components for a zero magnitude. The model returns `Failure(DegenerateVector)` instead.
- VectorMath.MagnitudeLaws: does not state that the magnitude is 0 exactly for the zero vector, nor that a normalised vector has magnitude 1. These follow from the square-root law, but the solver's nonlinear real arithmetic cannot prove them.
