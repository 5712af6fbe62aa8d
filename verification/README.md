# Speedometer gauge: needle motion and dial geometry

This project models the core of `SpeedometerView`, an animated circular speedometer, and proves properties of it. The core has three parts:

- **Needle angle.** A speed maps linearly onto an arc running from 135 degrees (speed 0) to 405 degrees (speed `maxSpeed`). Speeds at or below zero are pinned to the 135-degree end. There is no clamp at the top, so a speed above `maxSpeed` swings the needle past the end of the dial.
- **Motion integrator.** The view keeps three fields: `speed`, `acceleration` and `isAccelerating`. Each assignment to `isAccelerating` zeroes `acceleration`. On each display frame:
  - while accelerating, `acceleration` is multiplied by 0.05;
  - otherwise, 0.5 is subtracted from it;
  - then `setSpeed(speed + acceleration)` stores the new speed without clamping and turns the needle to its angle.
- **Dial layout.** The multiples of k from 0 up to `Int(maxSpeed)` get tick marks; `Int(maxSpeed)` itself gets one only when k divides it. With `k = 20` they get major marks and a label; with `k = 5` they get minor marks. Each mark is a stroke from the rim inward along its speed's needle angle.

The project has two modules:

- `Gauge` (`gauge.dfy`) holds the pure parts: the angle map, Swift's `Int(_:)` truncation and `stride(from:to:by:)`, and the speed sets.
- `Speedometer` (`speedometer.dfy`) holds the view. `Motion` is its state as a value, `Tick` is one frame, and `Ticks` is n frames; these are the specification. The `SpeedometerView` class has the source's fields and its mutating methods, each proved against those functions. The two layout loops are methods proved against the speed sets and the angle map.

Angles are in degrees. The source works in radians, i.e. these values times π/180. That factor is positive, so every equality and ordering proved here holds for the radian values too. Speeds are Dafny `real`, an exact-arithmetic idealisation of `CGFloat`.

The acceleration is reset on every assignment to `isAccelerating`, not only when the flag changes value. The `didSet` observer (SpeedometerView.swift:44-46) runs even when the assignment stores the value the flag already has. `WithAccelerating` and `SetIsAccelerating` model it that way.

Accelerating holds the speed steady. Every state the view can reach is *settled*: the acceleration is never positive, and it is zero while accelerating. It starts at zero (SpeedometerView.swift:47), every assignment to the flag zeroes it, scaling by 0.05 keeps zero at zero, and the decelerating step only lowers it. `SpeedometerView.Valid()` includes this invariant and every method keeps it. From a settled accelerating state each frame leaves the speed where it is (`AcceleratingSettledHolds`, and `HandleDisplayUpdate` says so for the view). The demo driver relies on this: it starts accelerating, sets a speed, and releases the needle 0.8 s later.

## Model

| member | source | states |
|---|---|---|
| `Gauge.Angle` | Speedometer/SpeedometerView.swift:203-206 | the needle angle is never below MinAngle; every speed <= 0 gives exactly MinAngle; maxSpeed gives exactly MaxAngle; speeds up to maxSpeed stay within the arc; speeds above maxSpeed land strictly past MaxAngle (no upper clamp) |
| `Gauge.AngleLinear` | Speedometer/SpeedometerView.swift:204-205 | on non-negative speeds the map is affine: the angle difference times maxSpeed equals (MaxAngle - MinAngle) times the speed difference, inside the dial and beyond it |
| `Gauge.AngleStrictlyIncreasing` | Speedometer/SpeedometerView.swift:204-205 | for 0 <= s1 < s2 the angle of s1 is strictly below that of s2 |
| `Gauge.AngleMonotone` | Speedometer/SpeedometerView.swift:204-205 | over all speeds, negative ones included, the angle never decreases as the speed grows |
| `Gauge.AngleAtHalfSpeed` | Speedometer/SpeedometerView.swift:203-206 | half of maxSpeed puts the needle at the middle of the arc, 270 degrees |
| `Gauge.TruncateToInt` | Speedometer/SpeedometerView.swift:56 | Swift's Int(_:) drops the fraction toward zero: for x >= 0 the result n satisfies n <= x < n + 1, and the mirror image for negative x |
| `Gauge.Stride` | Speedometer/SpeedometerView.swift:56 | stride(from:to:by:) yields start + i*step at index i; it is empty when start >= limit; otherwise its last element is below the limit and one more step would reach it |
| `Gauge.StrideLength` | Speedometer/SpeedometerView.swift:56 | a stride from 0 up to and including n >= 0 has n / step + 1 elements |
| `Gauge.StrideMembers` | Speedometer/SpeedometerView.swift:56 | a stride from 0 up to and including n contains exactly the multiples of step in [0, n] |
| `Gauge.StrideIncreasing` | Speedometer/SpeedometerView.swift:141 | stride values are strictly increasing, so the marks are visited in order round the dial |
| `Gauge.DialSpeeds` | Speedometer/SpeedometerView.swift:56 | the speeds `stride(from: 0, to: Int(maxSpeed) + 1, by: step)` visits are exactly the multiples of step in [0, Int(maxSpeed)], strictly increasing, Int(maxSpeed) / step + 1 of them starting at 0 |
| `Gauge.MajorSpeeds` | Speedometer/SpeedometerView.swift:141 | the major-tick speeds are exactly the multiples of 20 in [0, Int(maxSpeed)], Int(maxSpeed) / 20 + 1 of them |
| `Gauge.MinorSpeeds` | Speedometer/SpeedometerView.swift:162 | the minor-tick speeds are exactly the multiples of 5 in [0, Int(maxSpeed)], Int(maxSpeed) / 5 + 1 of them |
| `Speedometer.WithSpeed` | Speedometer/SpeedometerView.swift:83-84 | storing a speed sets it exactly, unclamped, leaves acceleration and flag as they were, and keeps a settled state settled |
| `Speedometer.WithAccelerating` | Speedometer/SpeedometerView.swift:44-46 | assigning the flag stores it, zeroes the acceleration, keeps the speed, and always yields a settled state |
| `Speedometer.Tick` | Speedometer/SpeedometerView.swift:194-201 | one frame keeps the flag; the new speed is the old one plus the new acceleration; a decelerating frame strictly lowers the acceleration; a settled state stays settled; a settled accelerating state is a fixed point |
| `Speedometer.Ticks` | Speedometer/SpeedometerView.swift:194-201 | n frames keep the flag and keep a settled state settled |
| `Speedometer.InitialSettled` | Speedometer/SpeedometerView.swift:44-48 | the initial state (speed 0, acceleration 0, not accelerating) is settled |
| `Speedometer.AcceleratingSettledHolds` | Speedometer/SpeedometerView.swift:195-200 | from any settled accelerating state, any number of frames leave the whole state unchanged |
| `Speedometer.LabelKeys` | Speedometer/SpeedometerView.swift:55-62 | every major speed is a label key, and every key lies in [0, Int(maxSpeed)] |
| `Gauge.MajorSpeedsAreMinor` | Speedometer/SpeedometerView.swift:141-162 | every major-tick speed (step 20) is also a minor-tick speed (step 5), so the minor marks are drawn over the major ones too |
| `Gauge.MajorSpeedsOfDemoDial` | Speedometer/SpeedometerView.swift:56 | for maxSpeed 300 the major speeds are exactly 0, 20, …, 300, i.e. 16 of them |
| `Speedometer.DeceleratingTicks` | Speedometer/SpeedometerView.swift:194-201 | when not accelerating, n frames take the acceleration to a0 - 0.5n and the speed to s0 + n*a0 - 0.25n(n+1), and the flag stays false |
| `Speedometer.EndAcceleratingThenTicks` | Speedometer/SpeedometerView.swift:93-95 | endAccelerating followed by n frames leaves acceleration -0.5n and speed s0 - 0.25n(n+1) |
| `Speedometer.AcceleratingTicks` | Speedometer/SpeedometerView.swift:195-196 | while accelerating, n frames keep the flag set and scale the acceleration to a0 * 0.05^n |
| `Speedometer.StartAcceleratingHolds` | Speedometer/SpeedometerView.swift:89-91 | after startAccelerating, any number of frames leaves speed, acceleration (0) and flag unchanged |
| `Speedometer.DeceleratingSpeedFalls` | Speedometer/SpeedometerView.swift:197-200 | not accelerating with acceleration <= 0, the speed after frame j is strictly below the speed after any earlier frame i, and the acceleration is negative |
| `Speedometer.NeedleComesToRest` | Speedometer/SpeedometerView.swift:194-206 | left decelerating, once 0.25n(n+1) covers the starting speed, the speed after n frames is <= 0 and the needle sits at MinAngle |
| `Speedometer.MarkSegments` | Speedometer/SpeedometerView.swift:140-178 | the tick loop draws one segment per stride speed, from the rim to innerScale times the radius at that speed's angle; the first is at MinAngle, all lie within the arc, and their angles strictly increase |
| `Speedometer.LabelKeysExactly` | Speedometer/SpeedometerView.swift:55-62 | a speed has a label exactly when it is a whole number, a multiple of 20, and between 0 and Int(maxSpeed) |
| `Speedometer.SpeedLabelKeys` | Speedometer/SpeedometerView.swift:55-63 | the initialiser's loop fills the label dictionary with exactly the major speeds as keys |
| `Speedometer.SpeedometerView.constructor` | Speedometer/SpeedometerView.swift:50-63 | a new view is valid (label keys from the major speeds, settled motion), with speed 0, acceleration 0, is not accelerating, and has an unrotated needle |
| `Speedometer.SpeedometerView.SetSpeed` | Speedometer/SpeedometerView.swift:83-87 | the speed becomes the argument exactly, unclamped; the needle turns to its angle; acceleration and flag are unchanged; the view stays valid |
| `Speedometer.SpeedometerView.SetIsAccelerating` | Speedometer/SpeedometerView.swift:44-46 | assigning the flag stores it and zeroes the acceleration; the speed is unchanged |
| `Speedometer.SpeedometerView.StartAccelerating` | Speedometer/SpeedometerView.swift:89-91 | the flag becomes true, the acceleration 0, and the speed is unchanged |
| `Speedometer.SpeedometerView.EndAccelerating` | Speedometer/SpeedometerView.swift:93-95 | the flag becomes false, the acceleration 0, and the speed is unchanged |
| `Speedometer.SpeedometerView.HandleDisplayUpdate` | Speedometer/SpeedometerView.swift:194-201 | one frame moves the fields exactly as `Tick` does, keeps the view valid (settled), leaves the speed unchanged while accelerating, and the needle shows the new speed's angle |
| `Speedometer.SpeedometerView.LayoutSubviews` | Speedometer/SpeedometerView.swift:112-189 | for a given width, the major marks (to 0.88 of the radius) and minor marks (to 0.96) follow their speed sets in order; each label sits at 0.76 of the radius at its speed's angle, within the arc; only the radii depend on the width, never the angles |

## Left out

- UIKit and Core Animation set-up is left out: layer colours, line widths, fonts, the label text and `sizeToFit`, and the view hierarchy (SpeedometerView.swift:6-33, 57-60, 67-74). It is rendering through foreign libraries. Labels are modelled by their dictionary keys only.
- The `CADisplayLink` attach and detach in `didMoveToWindow` (SpeedometerView.swift:99-110) is left out; it is a platform timer lifecycle. Display frames are explicit `HandleDisplayUpdate` calls.
- In `layoutSubviews`, the needle and hub geometry (sizes, the arrow path, corner radii) is left out. Mark and label positions are kept in polar form (angle and distance from the centre). The cos/sin conversion to pixel coordinates is floating-point trigonometry and is left out.
- `init?(coder:)` only traps, and the `frame` argument of the initialiser only sizes the UIKit view; neither is modelled.
- `Speedometer/ViewController.swift` is not part of this model. It is a demo driver built on a repeating timer, a random speed and a delayed call.
- `Gauge.Angle`: angles are in degrees rather than radians, because π is not a Dafny real. The two differ by the positive factor π/180.
- Arithmetic is exact over `real`: IEEE rounding of `CGFloat` is not modelled. Equalities such as the angle at maxSpeed being exactly MaxAngle hold only in this idealisation.
- `Gauge.TruncateToInt`: the trap that Swift's `Int(_:)` raises on NaN, infinity or out-of-range values is not modelled.
- `maxSpeed > 0` is a precondition of the constructor and of the angle map. The source does not check it, but the division in the angle map needs it.
