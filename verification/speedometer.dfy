/**
 * The speedometer view: the needle's motion state, the per-frame integrator
 * that moves it, and the layout loops that place tick marks and labels.
 */
module Speedometer {
  import opened Gauge

  /** The three fields the integrator works on. */
  datatype Motion = Motion(speed: real, acceleration: real, isAccelerating: bool)

  /** The view's state before any call: at rest, not accelerating. */
  const Initial := Motion(0.0, 0.0, false)

  /** Per-frame factor applied to the acceleration while accelerating. */
  const AccelerationDecay: real := 0.05
  /** Per-frame decrement of the acceleration while not accelerating. */
  const Deceleration: real := 0.5

  /**
   * The states the view can reach: the acceleration is never positive, and
   * while accelerating it is zero. It starts at zero, every assignment to
   * the flag zeroes it, scaling by 0.05 keeps zero at zero, and the
   * decelerating step only lowers it.
   */
  predicate Settled(m: Motion) {
    m.acceleration <= 0.0 && (m.isAccelerating ==> m.acceleration == 0.0)
  }

  /** Storing a new speed: nothing else moves. */
  function WithSpeed(m: Motion, newSpeed: real): (r: Motion)
    ensures r.speed == newSpeed
    ensures r.acceleration == m.acceleration && r.isAccelerating == m.isAccelerating
    ensures Settled(m) ==> Settled(r)
  {
    m.(speed := newSpeed)
  }

  /**
   * Assigning `isAccelerating`: its `didSet` observer zeroes the
   * acceleration on every assignment, whether or not the flag changes.
   */
  function WithAccelerating(m: Motion, value: bool): (r: Motion)
    ensures r.isAccelerating == value && r.acceleration == 0.0 && r.speed == m.speed
    ensures Settled(r)
  {
    Motion(m.speed, 0.0, value)
  }

  /**
   * One display frame: scale the acceleration down while accelerating,
   * otherwise push it down by a constant; then add it to the speed. The
   * flag is untouched, the new speed is the old one plus the new
   * acceleration, a decelerating frame lowers the acceleration, and from a
   * settled accelerating state the frame changes nothing.
   */
  function Tick(m: Motion): (r: Motion)
    ensures r.isAccelerating == m.isAccelerating
    ensures r.speed == m.speed + r.acceleration
    ensures !m.isAccelerating ==> r.acceleration < m.acceleration
    ensures Settled(m) ==> Settled(r)
    ensures Settled(m) && m.isAccelerating ==> r == m
  {
    var a := if m.isAccelerating then m.acceleration * AccelerationDecay
             else m.acceleration - Deceleration;
    WithSpeed(m.(acceleration := a), m.speed + a)
  }

  /** n display frames with no other call in between: flag and settledness are kept. */
  function Ticks(m: Motion, n: nat): (r: Motion)
    ensures r.isAccelerating == m.isAccelerating
    ensures Settled(m) ==> Settled(r)
  {
    if n == 0 then m else Tick(Ticks(m, n - 1))
  }

  /** The initial state is settled. */
  lemma InitialSettled()
    ensures Settled(Initial)
  {
  }

  /**
   * From any settled accelerating state, however it was reached, the
   * frames leave the whole state, and so the speed, where it is.
   */
  lemma {:induction false} AcceleratingSettledHolds(m: Motion, n: nat)
    requires Settled(m) && m.isAccelerating
    ensures Ticks(m, n) == m
  {
    if n > 0 {
      AcceleratingSettledHolds(m, n - 1);
    }
  }

  /** AccelerationDecay raised to the n-th power. */
  function DecayPower(n: nat): real {
    if n == 0 then 1.0 else AccelerationDecay * DecayPower(n - 1)
  }

  /**
   * Not accelerating, n frames lower the acceleration by 0.5 each and the
   * speed by the running total: speed0 + n*a0 - 0.5*(1 + 2 + ... + n).
   */
  lemma {:induction false} DeceleratingTicks(m: Motion, n: nat)
    requires !m.isAccelerating
    ensures Ticks(m, n).isAccelerating == false
    ensures Ticks(m, n).acceleration == m.acceleration - 0.5 * n as real
    ensures Ticks(m, n).speed == m.speed + (n as real) * m.acceleration - 0.25 * (n as real) * (n as real + 1.0)
  {
    if n > 0 {
      DeceleratingTicks(m, n - 1);
      var k := (n - 1) as real;
      var prev := Ticks(m, n - 1);
      var next := Ticks(m, n);
      assert next == Tick(prev);
      assert next.acceleration == prev.acceleration - Deceleration;
      assert next.speed == prev.speed + next.acceleration;
      RunningTotalStep(m.speed, m.acceleration, k);
      assert n as real == k + 1.0;
    }
  }

  /** One more decelerating frame extends the running total by one term. */
  lemma RunningTotalStep(s: real, a: real, k: real)
    ensures (s + k * a - 0.25 * k * (k + 1.0)) + (a - 0.5 * k - 0.5)
         == s + (k + 1.0) * a - 0.25 * (k + 1.0) * (k + 1.0 + 1.0)
  {
  }

  /**
   * endAccelerating then n frames: acceleration -0.5*n and the speed down by
   * 0.25*n*(n+1) from where it was.
   */
  lemma EndAcceleratingThenTicks(m: Motion, n: nat)
    ensures Ticks(WithAccelerating(m, false), n)
         == Motion(m.speed - 0.25 * (n as real) * (n as real + 1.0), -0.5 * n as real, false)
  {
    DeceleratingTicks(WithAccelerating(m, false), n);
  }

  /**
   * While accelerating, each frame only scales the acceleration by 0.05:
   * after n frames it is a0 * 0.05^n, and the flag is untouched.
   */
  lemma {:induction false} AcceleratingTicks(m: Motion, n: nat)
    requires m.isAccelerating
    ensures Ticks(m, n).isAccelerating
    ensures Ticks(m, n).acceleration == m.acceleration * DecayPower(n)
  {
    if n > 0 {
      AcceleratingTicks(m, n - 1);
      assert m.acceleration * DecayPower(n - 1) * AccelerationDecay
          == m.acceleration * DecayPower(n);
    }
  }

  /**
   * startAccelerating leaves nothing to decay: the needle holds the speed
   * it had (or the one set afterwards) for as many frames as pass.
   */
  lemma StartAcceleratingHolds(m: Motion, n: nat)
    ensures Ticks(WithAccelerating(m, true), n) == WithAccelerating(m, true)
  {
    AcceleratingSettledHolds(WithAccelerating(m, true), n);
  }

  /**
   * Not accelerating with no upward push, the speed falls strictly on every
   * frame, so later frames always show a lower speed.
   */
  lemma {:induction false} DeceleratingSpeedFalls(m: Motion, i: nat, j: nat)
    requires !m.isAccelerating && m.acceleration <= 0.0
    requires i < j
    ensures Ticks(m, j).speed < Ticks(m, i).speed
    ensures Ticks(m, j).acceleration < 0.0
  {
    DeceleratingTicks(m, j - 1);
    if i < j - 1 {
      DeceleratingSpeedFalls(m, i, j - 1);
    }
  }

  /**
   * Left decelerating, the needle comes back to the dial's zero end and
   * stays there: once 0.25*n*(n+1) covers the starting speed, the angle
   * after n frames is MinAngle, however far below zero the speed runs.
   */
  lemma NeedleComesToRest(maxSpeed: real, m: Motion, n: nat)
    requires maxSpeed > 0.0
    requires !m.isAccelerating && m.acceleration <= 0.0
    requires 0.25 * (n as real) * (n as real + 1.0) >= m.speed
    ensures Ticks(m, n).speed <= 0.0
    ensures Angle(maxSpeed, Ticks(m, n).speed) == MinAngle
  {
    DeceleratingTicks(m, n);
    assert (n as real) * m.acceleration <= 0.0;
  }

  /** A point around the dial's centre, by angle and distance. */
  datatype Polar = Polar(angle: real, distance: real)

  /** One tick mark: a stroke from the rim inward along one angle. */
  datatype Segment = Segment(outer: Polar, inner: Polar)

  /**
   * The loop that strokes one set of tick marks: one segment per speed of
   * the stride 0, step, ..., Int(maxSpeed), from the rim (radius) inward to
   * innerScale * radius, at that speed's needle angle. The marks run round
   * the dial in order, strictly increasing in angle, all within the arc.
   */
  method MarkSegments(maxSpeed: real, radius: real, step: int, innerScale: real)
    returns (path: seq<Segment>)
    requires maxSpeed > 0.0 && step > 0
    ensures |path| == |DialSpeeds(maxSpeed, step)|
    ensures forall i :: 0 <= i < |path| ==>
              var angle := Angle(maxSpeed, DialSpeeds(maxSpeed, step)[i] as real);
              path[i] == Segment(Polar(angle, radius), Polar(angle, radius * innerScale))
    ensures |path| > 0 && path[0].outer.angle == MinAngle
    ensures forall i :: 0 <= i < |path| ==> MinAngle <= path[i].outer.angle <= MaxAngle
    ensures forall i, j :: 0 <= i < j < |path| ==> path[i].outer.angle < path[j].outer.angle
  {
    var speeds := DialSpeeds(maxSpeed, step);
    path := [];
    for k := 0 to |speeds|
      invariant |path| == k
      invariant forall i :: 0 <= i < k ==>
                  var angle := Angle(maxSpeed, speeds[i] as real);
                  path[i] == Segment(Polar(angle, radius), Polar(angle, radius * innerScale))
    {
      var angle := Angle(maxSpeed, speeds[k] as real);
      path := path + [Segment(Polar(angle, radius), Polar(angle, radius * innerScale))];
    }
    forall i | 0 <= i < |path|
      ensures 0 <= speeds[i] && MinAngle <= path[i].outer.angle <= MaxAngle
    {
      StrideElement(TruncateToInt(maxSpeed), step, i);
    }
    forall i, j | 0 <= i < j < |path|
      ensures path[i].outer.angle < path[j].outer.angle
    {
      StrideIncreasing(0, TruncateToInt(maxSpeed) + 1, step, i, j);
      StrideElement(TruncateToInt(maxSpeed), step, i);
      AngleStrictlyIncreasing(maxSpeed, speeds[i] as real, speeds[j] as real);
    }
  }

  /** The label dictionary's keys: every major speed, as a speed value. */
  function LabelKeys(maxSpeed: real): (r: set<real>)
    ensures forall s :: s in MajorSpeeds(maxSpeed) ==> s as real in r
    ensures forall k :: k in r ==> 0.0 <= k <= TruncateToInt(maxSpeed) as real
  {
    set s | s in MajorSpeeds(maxSpeed) :: s as real
  }

  /**
   * The labelled speeds are exactly the whole multiples of 20 from 0 up to
   * Int(maxSpeed).
   */
  lemma LabelKeysExactly(maxSpeed: real, k: real)
    ensures k in LabelKeys(maxSpeed) <==>
            k == k.Floor as real && 0 <= k.Floor <= TruncateToInt(maxSpeed) && k.Floor % MajorStep == 0
  {
    var n := TruncateToInt(maxSpeed);
    if k in LabelKeys(maxSpeed) {
      var s :| s in MajorSpeeds(maxSpeed) && k == s as real;
      assert k.Floor == s;
      StrideMembers(n, MajorStep, s);
    }
    if k == k.Floor as real && 0 <= k.Floor <= n && k.Floor % MajorStep == 0 {
      StrideMembers(n, MajorStep, k.Floor);
    }
  }

  /**
   * The loop in the initialiser that creates one label per major speed and
   * files it in the label dictionary under that speed.
   */
  method SpeedLabelKeys(maxSpeed: real) returns (keys: set<real>)
    ensures keys == LabelKeys(maxSpeed)
  {
    var speeds := MajorSpeeds(maxSpeed);
    keys := {};
    for k := 0 to |speeds|
      invariant keys == set i | 0 <= i < k :: speeds[i] as real
    {
      keys := keys + {speeds[k] as real};
    }
    forall s | s in speeds
      ensures s as real in keys
    {
      var i :| 0 <= i < |speeds| && speeds[i] == s;
    }
    forall k | k in keys
      ensures k in LabelKeys(maxSpeed)
    {
      var i :| 0 <= i < |speeds| && k == speeds[i] as real;
      assert speeds[i] in MajorSpeeds(maxSpeed);
    }
  }

  /**
   * The gauge view. `speedLabels` holds the keys of the label dictionary
   * (the labels themselves are UIKit widgets); `needleAngle` is the needle
   * layer's rotation; the three paths hold what the last layout pass drew.
   */
  class SpeedometerView {
    const maxSpeed: real
    const speedLabels: set<real>

    var isAccelerating: bool
    var acceleration: real
    var speed: real

    var needleAngle: real
    var marksPath: seq<Segment>
    var minorMarksPath: seq<Segment>
    var labelCenters: map<real, Polar>

    ghost predicate Valid()
      reads this
    {
      maxSpeed > 0.0 && speedLabels == LabelKeys(maxSpeed) && Settled(State())
    }

    /** The integrator's view of the fields. */
    function State(): Motion
      reads this
    {
      Motion(speed, acceleration, isAccelerating)
    }

    constructor (maxSpeed: real)
      requires maxSpeed > 0.0
      ensures Valid() && this.maxSpeed == maxSpeed
      ensures State() == Initial
      ensures needleAngle == 0.0
      ensures marksPath == [] && minorMarksPath == [] && labelCenters == map[]
    {
      this.maxSpeed := maxSpeed;
      var keys := SpeedLabelKeys(maxSpeed);
      speedLabels := keys;
      isAccelerating, acceleration, speed := false, 0.0, 0.0;
      needleAngle := 0.0;
      marksPath, minorMarksPath, labelCenters := [], [], map[];
    }

    /** Store a new speed, unclamped, and turn the needle to its angle. */
    method SetSpeed(newSpeed: real)
      requires Valid()
      modifies this`speed, this`needleAngle
      ensures Valid()
      ensures State() == WithSpeed(old(State()), newSpeed)
      ensures needleAngle == Angle(maxSpeed, newSpeed)
    {
      speed := newSpeed;
      var angle := Angle(maxSpeed, speed);
      needleAngle := angle;
    }

    /** Assign `isAccelerating`, running its `didSet` observer. */
    method SetIsAccelerating(value: bool)
      requires Valid()
      modifies this`isAccelerating, this`acceleration
      ensures Valid()
      ensures State() == WithAccelerating(old(State()), value)
    {
      isAccelerating := value;
      acceleration := 0.0;
    }

    method StartAccelerating()
      requires Valid()
      modifies this`isAccelerating, this`acceleration
      ensures Valid()
      ensures State() == WithAccelerating(old(State()), true)
    {
      SetIsAccelerating(true);
    }

    method EndAccelerating()
      requires Valid()
      modifies this`isAccelerating, this`acceleration
      ensures Valid()
      ensures State() == WithAccelerating(old(State()), false)
    {
      SetIsAccelerating(false);
    }

    /** The display-refresh callback: one integrator step, then SetSpeed. */
    method HandleDisplayUpdate()
      requires Valid()
      modifies this`acceleration, this`speed, this`needleAngle
      ensures Valid()
      ensures State() == Tick(old(State()))
      ensures old(isAccelerating) ==> speed == old(speed)
      ensures needleAngle == Angle(maxSpeed, speed)
    {
      if isAccelerating {
        acceleration := acceleration * AccelerationDecay;
      } else {
        acceleration := acceleration - Deceleration;
      }
      SetSpeed(speed + acceleration);
    }

    /**
     * A layout pass for a view `width` wide: the major marks (to 0.88 of
     * the radius), the minor marks (to 0.96) and every label's centre at
     * 0.76 of the radius, each at its speed's needle angle.
     */
    method LayoutSubviews(width: real)
      requires Valid()
      modifies this`marksPath, this`minorMarksPath, this`labelCenters
      ensures Valid()
      ensures |marksPath| == |MajorSpeeds(maxSpeed)|
      ensures forall i :: 0 <= i < |marksPath| ==>
                var angle := Angle(maxSpeed, MajorSpeeds(maxSpeed)[i] as real);
                marksPath[i] == Segment(Polar(angle, width / 2.0), Polar(angle, width / 2.0 * 0.88))
      ensures |minorMarksPath| == |MinorSpeeds(maxSpeed)|
      ensures forall i :: 0 <= i < |minorMarksPath| ==>
                var angle := Angle(maxSpeed, MinorSpeeds(maxSpeed)[i] as real);
                minorMarksPath[i] == Segment(Polar(angle, width / 2.0), Polar(angle, width / 2.0 * 0.96))
      ensures labelCenters.Keys == speedLabels
      ensures forall s :: s in labelCenters ==>
                labelCenters[s] == Polar(Angle(maxSpeed, s), width / 2.0 * 0.76)
                && MinAngle <= labelCenters[s].angle <= MaxAngle
    {
      var radius := width / 2.0;
      marksPath := MarkSegments(maxSpeed, radius, MajorStep, 0.88);
      minorMarksPath := MarkSegments(maxSpeed, radius, MinorStep, 0.96);
      labelCenters := map s | s in speedLabels :: Polar(Angle(maxSpeed, s), radius * 0.76);
    }
  }
}
