/**
 * The gauge's pure geometry: the linear map from a speed to the needle's
 * angle on the dial, and the integer speeds at which ticks and labels sit.
 *
 * Angles are in degrees. The view's radians are these values times pi/180,
 * a positive constant factor, so every equality and ordering stated here
 * holds of the radian values too.
 */
module Gauge {

  /** The angle of the dial's zero end (135 degrees). */
  const MinAngle: real := 135.0
  /** The angle of the dial's maxSpeed end (405 degrees, i.e. 45 past a full turn). */
  const MaxAngle: real := 405.0

  /** Speed step between labelled major ticks. */
  const MajorStep: int := 20
  /** Speed step between minor ticks. */
  const MinorStep: int := 5

  /**
   * The needle angle for `speed` on a dial whose end is `maxSpeed`:
   * a speed at or below zero pins the needle to MinAngle, anything
   * above zero is mapped linearly, with no clamp at the top.
   */
  function Angle(maxSpeed: real, speed: real): (r: real)
    requires maxSpeed > 0.0
    ensures MinAngle <= r
    ensures speed <= 0.0 ==> r == MinAngle
    ensures speed == maxSpeed ==> r == MaxAngle
    ensures speed <= maxSpeed ==> r <= MaxAngle
    ensures speed > maxSpeed ==> r > MaxAngle
  {
    var ratio := if speed > 0.0 then speed / maxSpeed else 0.0;
    RatioBounds(maxSpeed, speed);
    MinAngle + (MaxAngle - MinAngle) * ratio
  }

  /** Where a positive speed stands against maxSpeed, so stands its ratio against 1. */
  lemma RatioBounds(maxSpeed: real, speed: real)
    requires maxSpeed > 0.0
    ensures speed > 0.0 ==> speed / maxSpeed > 0.0
    ensures speed <= maxSpeed ==> speed / maxSpeed <= 1.0
    ensures speed > maxSpeed ==> speed / maxSpeed > 1.0
  {
    var q := speed / maxSpeed;
    assert q * maxSpeed == speed;
    assert q > 1.0 ==> q * maxSpeed > 1.0 * maxSpeed;
    assert q <= 1.0 ==> q * maxSpeed <= 1.0 * maxSpeed;
  }

  /**
   * The mapping is affine on the non-negative speeds: equal speed steps give
   * equal angle steps, at a rate of (MaxAngle - MinAngle) / maxSpeed, both
   * inside the dial and beyond its end.
   */
  lemma AngleLinear(maxSpeed: real, s1: real, s2: real)
    requires maxSpeed > 0.0
    requires 0.0 <= s1 && 0.0 <= s2
    ensures (Angle(maxSpeed, s2) - Angle(maxSpeed, s1)) * maxSpeed == (MaxAngle - MinAngle) * (s2 - s1)
  {
    var r1 := if s1 > 0.0 then s1 / maxSpeed else 0.0;
    var r2 := if s2 > 0.0 then s2 / maxSpeed else 0.0;
    assert r1 * maxSpeed == s1;
    assert r2 * maxSpeed == s2;
    calc {
      (Angle(maxSpeed, s2) - Angle(maxSpeed, s1)) * maxSpeed;
      ((MaxAngle - MinAngle) * r2 - (MaxAngle - MinAngle) * r1) * maxSpeed;
      (MaxAngle - MinAngle) * (r2 * maxSpeed - r1 * maxSpeed);
    }
  }

  /** On the non-negative speeds the needle angle strictly increases with the speed. */
  lemma AngleStrictlyIncreasing(maxSpeed: real, s1: real, s2: real)
    requires maxSpeed > 0.0
    requires 0.0 <= s1 < s2
    ensures Angle(maxSpeed, s1) < Angle(maxSpeed, s2)
  {
    AngleLinear(maxSpeed, s1, s2);
    var d := Angle(maxSpeed, s2) - Angle(maxSpeed, s1);
    assert d * maxSpeed == (MaxAngle - MinAngle) * (s2 - s1);
    assert (MaxAngle - MinAngle) * (s2 - s1) > 0.0;
    assert d <= 0.0 ==> d * maxSpeed <= 0.0 * maxSpeed;
  }

  /** Over all speeds, negative ones included, the mapping never decreases. */
  lemma AngleMonotone(maxSpeed: real, s1: real, s2: real)
    requires maxSpeed > 0.0
    requires s1 <= s2
    ensures Angle(maxSpeed, s1) <= Angle(maxSpeed, s2)
  {
    if 0.0 <= s1 && s1 < s2 {
      AngleStrictlyIncreasing(maxSpeed, s1, s2);
    }
  }

  /** Half of maxSpeed puts the needle half-way round the arc, at 270 degrees. */
  lemma AngleAtHalfSpeed(maxSpeed: real)
    requires maxSpeed > 0.0
    ensures Angle(maxSpeed, maxSpeed / 2.0) == (MinAngle + MaxAngle) / 2.0 == 270.0
  {
    assert (maxSpeed / 2.0) / maxSpeed == 0.5;
  }

  /**
   * Swift's Int(_:) on a floating-point value: drop the fraction, rounding
   * toward zero (the trap on values out of Int's range is not modelled).
   */
  function TruncateToInt(x: real): (n: int)
    ensures 0.0 <= x ==> 0 <= n && n as real <= x < n as real + 1.0
    ensures x < 0.0 ==> n <= 0 && n as real - 1.0 < x <= n as real
  {
    if x >= 0.0 then x.Floor else -((-x).Floor)
  }

  /**
   * Swift's stride(from: start, to: limit, by: step) for a positive step:
   * start, start + step, start + 2*step, ..., every value below limit.
   */
  function Stride(start: int, limit: int, step: int): (r: seq<int>)
    requires step > 0
    ensures forall i :: 0 <= i < |r| ==> r[i] == start + i * step
    ensures limit <= start ==> r == []
    ensures start < limit ==> |r| > 0 && r[|r| - 1] < limit <= r[|r| - 1] + step
    decreases limit - start
  {
    if start < limit then [start] + Stride(start + step, limit, step) else []
  }

  /**
   * The speeds `stride(from: 0, to: Int(maxSpeed) + 1, by: step)` visits:
   * the multiples of step from 0 up to Int(maxSpeed), in increasing order,
   * Int(maxSpeed) / step + 1 of them.
   */
  function DialSpeeds(maxSpeed: real, step: int): (r: seq<int>)
    requires step > 0
    ensures forall x :: x in r <==> 0 <= x <= TruncateToInt(maxSpeed) && x % step == 0
    ensures forall i, j :: 0 <= i < j < |r| ==> r[i] < r[j]
    ensures 0 <= TruncateToInt(maxSpeed) ==> |r| == TruncateToInt(maxSpeed) / step + 1 && r[0] == 0
  {
    var n := TruncateToInt(maxSpeed);
    StrideFacts(n, step);
    Stride(0, n + 1, step)
  }

  /** Speeds that get a labelled major tick: the multiples of 20 up to Int(maxSpeed). */
  function MajorSpeeds(maxSpeed: real): (r: seq<int>)
    ensures forall x :: x in r <==> 0 <= x <= TruncateToInt(maxSpeed) && x % MajorStep == 0
    ensures 0 <= TruncateToInt(maxSpeed) ==> |r| == TruncateToInt(maxSpeed) / MajorStep + 1
  {
    DialSpeeds(maxSpeed, MajorStep)
  }

  /** Speeds that get a minor tick: the multiples of 5 up to Int(maxSpeed). */
  function MinorSpeeds(maxSpeed: real): (r: seq<int>)
    ensures forall x :: x in r <==> 0 <= x <= TruncateToInt(maxSpeed) && x % MinorStep == 0
    ensures 0 <= TruncateToInt(maxSpeed) ==> |r| == TruncateToInt(maxSpeed) / MinorStep + 1
  {
    DialSpeeds(maxSpeed, MinorStep)
  }

  /** The stride lemmas below, gathered for every element of one stride. */
  lemma StrideFacts(n: int, step: int)
    requires step > 0
    ensures forall x :: x in Stride(0, n + 1, step) <==> 0 <= x <= n && x % step == 0
    ensures var r := Stride(0, n + 1, step); forall i, j :: 0 <= i < j < |r| ==> r[i] < r[j]
    ensures 0 <= n ==> |Stride(0, n + 1, step)| == n / step + 1
  {
    forall x {
      StrideMembers(n, step, x);
    }
    var r := Stride(0, n + 1, step);
    forall i, j | 0 <= i < j < |r|
      ensures r[i] < r[j]
    {
      StrideIncreasing(0, n + 1, step, i, j);
    }
    if 0 <= n {
      StrideLength(n, step);
    }
  }

  /** If q*k <= n < q*k + k then q is the quotient n / k. */
  lemma QuotientUnique(n: int, k: int, q: int)
    requires k > 0
    requires q * k <= n < q * k + k
    ensures n / k == q
  {
    var d := n / k - q;
    assert k * (n / k) + n % k == n;
    assert d * k == n - n % k - q * k;
    assert d >= 1 ==> d * k >= 1 * k;
    assert d <= -1 ==> d * k <= -1 * k;
  }

  /** A stride up to and including n, for n >= 0, has n / step + 1 elements. */
  lemma StrideLength(n: int, step: int)
    requires n >= 0 && step > 0
    ensures |Stride(0, n + 1, step)| == n / step + 1
  {
    var r := Stride(0, n + 1, step);
    var last := |r| - 1;
    assert r[last] == last * step;
    QuotientUnique(n, step, last);
  }

  /**
   * The values of a stride from 0 up to and including n are exactly the
   * multiples of step in [0, n].
   */
  lemma StrideMembers(n: int, step: int, x: int)
    requires step > 0
    ensures x in Stride(0, n + 1, step) <==> 0 <= x <= n && x % step == 0
  {
    if x in Stride(0, n + 1, step) {
      StrideMemberIsMultiple(n, step, x);
    }
    if 0 <= x <= n && x % step == 0 {
      MultipleIsStrideMember(n, step, x);
    }
  }

  lemma StrideMemberIsMultiple(n: int, step: int, x: int)
    requires step > 0
    requires x in Stride(0, n + 1, step)
    ensures 0 <= x <= n && x % step == 0
  {
    var r := Stride(0, n + 1, step);
    var i :| 0 <= i < |r| && r[i] == x;
    StrideElement(n, step, i);
  }

  lemma StrideElement(n: int, step: int, i: int)
    requires step > 0
    requires 0 <= i < |Stride(0, n + 1, step)|
    ensures var x := Stride(0, n + 1, step)[i]; 0 <= x <= n && x % step == 0
  {
    var r := Stride(0, n + 1, step);
    var last := |r| - 1;
    assert r[i] == i * step;
    assert r[last] == last * step < n + 1;
    MulOrder(i, 0, step);
    MulOrder(last, i, step);
    QuotientUnique(i * step, step, i);
  }

  lemma MultipleIsStrideMember(n: int, step: int, x: int)
    requires step > 0
    requires 0 <= x <= n && x % step == 0
    ensures x in Stride(0, n + 1, step)
  {
    var r := Stride(0, n + 1, step);
    var i := x / step;
    assert x == i * step;
    MulOrder(i, 0, step);
    var last := |r| - 1;
    assert i * step < (last + 1) * step by {
      assert r[last] == last * step;
      assert (last + 1) * step == last * step + step;
    }
    MulOrder(i, last + 1, step);
    assert r[i] == x;
  }

  /** Stride values are strictly increasing. */
  lemma StrideIncreasing(start: int, limit: int, step: int, i: int, j: int)
    requires step > 0
    requires 0 <= i < j < |Stride(start, limit, step)|
    ensures Stride(start, limit, step)[i] < Stride(start, limit, step)[j]
  {
    var r := Stride(start, limit, step);
    assert r[i] == start + i * step && r[j] == start + j * step;
    MulOrder(i, j, step);
  }

  /** Multiplying by a positive factor keeps a strict order, both ways. */
  lemma MulOrder(a: int, b: int, k: int)
    requires k > 0
    ensures a < b <==> a * k < b * k
  {
  }

  /**
   * Every major speed is also a minor speed: the minor ticks are drawn over
   * the major ones too.
   */
  lemma MajorSpeedsAreMinor(maxSpeed: real)
    ensures forall x :: x in MajorSpeeds(maxSpeed) ==> x in MinorSpeeds(maxSpeed)
  {
    // 20 is a multiple of 5, and both sets are characterised by their step.
  }

  /** The demo dial, maxSpeed 300, has 16 major speeds: 0, 20, ..., 300. */
  lemma MajorSpeedsOfDemoDial()
    ensures |MajorSpeeds(300.0)| == 16
    ensures MajorSpeeds(300.0) == seq(16, i => 20 * i)
    ensures MajorSpeeds(300.0)[15] == 300
  {
    assert TruncateToInt(300.0) == 300;
    StrideLength(300, MajorStep);
  }
}
