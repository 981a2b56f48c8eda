/**
 * The game's number utilities: clamping, normalising, interpolation, a
 * uniform draw scaled to a range, and the `Elastic` value that eases towards
 * a target every frame.
 */
module Numbers {

  import opened Geometry

  /** `clamp(value, min = 0, max = 1)`: `Math.max(min, Math.min(value, max))`. */
  function Clamp(value: real, lo: real := 0.0, hi: real := 1.0): (r: real)
    ensures lo <= hi ==> lo <= r <= hi
    ensures lo <= value <= hi ==> r == value
    ensures lo <= hi && value < lo ==> r == lo
    ensures lo <= hi && hi < value ==> r == hi
    ensures hi < lo ==> r == lo
  {
    var inner := if value < hi then value else hi;
    if lo < inner then inner else lo
  }

  /** `map(value, min, max)`: where `value` lies between the two bounds, as a fraction clamped to [0, 1]. */
  function Map(value: real, lo: real, hi: real): (r: real)
    requires hi != lo
    ensures 0.0 <= r <= 1.0
    ensures lo < hi && value <= lo ==> r == 0.0
    ensures lo < hi && hi <= value ==> r == 1.0
    ensures lo < hi && lo <= value <= hi ==> r * (hi - lo) == value - lo
  {
    var t := (value - lo) / (hi - lo);
    assert lo < hi ==> (value <= lo ==> t <= 0.0) && (hi <= value ==> 1.0 <= t) && t * (hi - lo) == value - lo by {
      if lo < hi { QuotientBounds(value - lo, hi - lo); }
    }
    Clamp(t, 0.0, 1.0)
  }

  /** Where a quotient by a positive divisor lies, relative to 0 and 1. */
  lemma QuotientBounds(a: real, b: real)
    requires b > 0.0
    ensures a <= 0.0 ==> a / b <= 0.0
    ensures b <= a ==> 1.0 <= a / b
    ensures (a / b) * b == a
  {
    var q := a / b;
    assert q * b == a;
    assert b * q == a && b * 0.0 == 0.0 && b * 1.0 == b;
    if a <= 0.0 && q > 0.0 {
      MulMonotone(b, 0.0, q);
    }
    if b <= a && q < 1.0 {
      MulMonotone(b, q, 1.0);
    }
  }

  /** `smoothstep(min, max, value)`: `Math.max(0, Math.min(1, (value - min) / (max - min)))`. */
  function Smoothstep(lo: real, hi: real, value: real): (r: real)
    requires hi != lo
    ensures r == Map(value, lo, hi)
  {
    var t := (value - lo) / (hi - lo);
    var inner := if 1.0 < t then 1.0 else t;
    if 0.0 < inner then inner else 0.0
  }

  /** `random(min, max)`: `Math.random() * (max - min) + min`, with the draw of `Math.random()` as `u`. */
  function Random(lo: real, hi: real, u: real): (r: real)
    requires 0.0 <= u < 1.0
    ensures lo < hi ==> lo <= r < hi
    ensures hi < lo ==> hi < r <= lo
    ensures lo == hi ==> r == lo
  {
    var span := hi - lo;
    assert span > 0.0 ==> 0.0 <= u * span < span by {
      if span > 0.0 { Below1(u, span); }
    }
    assert span < 0.0 ==> span < u * span <= 0.0 by {
      if span < 0.0 { NegativeScale(u, span); }
    }
    u * span + lo
  }

  /** A draw below 1 scales a positive span to something below it. */
  lemma Below1(u: real, span: real)
    requires 0.0 <= u < 1.0 && span > 0.0
    ensures 0.0 <= u * span < span
  {
    calc {
      span - u * span;
    ==
      (1.0 - u) * span;
    >
      0.0;
    }
  }

  /** A draw below 1 scales a negative span to something above it, and not above 0. */
  lemma NegativeScale(u: real, span: real)
    requires 0.0 <= u < 1.0 && span < 0.0
    ensures span < u * span <= 0.0
  {
    var m := -span;
    MulMonotone(m, 0.0, u);
    MulMonotone(m, u, 1.0);
    calc {
      u * span;
    ==
      -(m * u);
    }
  }

  /** The point the fraction `k` of the way from `from` to `to`. */
  function Toward(from: real, to: real, k: real): real
  {
    from + (to - from) * k
  }

  /** A non-negative factor keeps the sign of what it scales. */
  lemma ScaleSign(a: real, k: real)
    ensures a >= 0.0 && k >= 0.0 ==> a * k >= 0.0
    ensures a <= 0.0 && k >= 0.0 ==> a * k <= 0.0
  {
    if k >= 0.0 {
      MulMonotone(k, 0.0, if a >= 0.0 then a else 0.0);
      MulMonotone(k, if a <= 0.0 then a else 0.0, 0.0);
    }
  }

  /** The two pieces a step of `Toward` cuts the distance into. */
  lemma TowardSplit(from: real, to: real, k: real)
    ensures Toward(from, to, k) - from == (to - from) * k
    ensures to - Toward(from, to, k) == (to - from) * (1.0 - k)
  {
  }

  /** A point lies between two others when its distances to both have the same sign. */
  lemma Between(lo: real, r: real, hi: real, x: real, y: real)
    requires r - lo == x && hi - r == y
    ensures x >= 0.0 && y >= 0.0 ==> lo <= r <= hi
    ensures x <= 0.0 && y <= 0.0 ==> hi <= r <= lo
  {
  }

  /**
   * For a fraction `k` in [0, 1], the point `Toward(from, to, k)` lies between
   * `from` and `to`, on either order of the two.
   */
  lemma TowardBetween(from: real, to: real, k: real)
    requires 0.0 <= k <= 1.0
    ensures from <= to ==> from <= Toward(from, to, k) <= to
    ensures to <= from ==> to <= Toward(from, to, k) <= from
  {
    TowardSplit(from, to, k);
    ScaleSign(to - from, k);
    ScaleSign(to - from, 1.0 - k);
    Between(from, Toward(from, to, k), to, (to - from) * k, (to - from) * (1.0 - k));
  }

  /** `lerp(v0, v1, t)`: `v0 + t * (v1 - v0)`. */
  function Lerp(v0: real, v1: real, t: real): (r: real)
    ensures t == 0.0 ==> r == v0
    ensures t == 1.0 ==> r == v1
    ensures v0 <= v1 && 0.0 <= t <= 1.0 ==> v0 <= r <= v1
    ensures v1 <= v0 && 0.0 <= t <= 1.0 ==> v1 <= r <= v0
  {
    assert v0 + t * (v1 - v0) == Toward(v0, v1, t);
    if 0.0 <= t <= 1.0 then
      TowardBetween(v0, v1, t);
      v0 + t * (v1 - v0)
    else
      v0 + t * (v1 - v0)
  }

  /** `mix(value1, value2, percent)`: `value1 * (1 - percent) + value2 * percent`. */
  function Mix(value1: real, value2: real, percent: real): (r: real)
    ensures r == Lerp(value1, value2, percent)
  {
    value1 * (1.0 - percent) + value2 * percent
  }

  /** A value at its target stays there, whatever the rate. */
  lemma ElasticFixedPoint(target: real, rate: real)
    ensures Toward(target, target, rate) == target
  {
  }

  /**
   * While the rate `speed * delta` is a fraction in [0, 1], each step of
   * `Elastic.update` keeps the value on the same side of the target and never
   * farther from it.
   */
  lemma ElasticApproaches(target: real, value: real, rate: real)
    requires 0.0 <= rate <= 1.0
    ensures value <= target ==> value <= Toward(value, target, rate) <= target
    ensures target <= value ==> target <= Toward(value, target, rate) <= value
    ensures Abs(target - Toward(value, target, rate)) <= Abs(target - value)
  {
    TowardBetween(value, target, rate);
  }

  /** `class Elastic`: a value that eases towards `target` at `speed`. */
  class Elastic {
    var target: real
    var value: real
    var speed: real

    constructor (initial: real)
      ensures target == initial && value == initial && speed == 3.0
    {
      target := initial;
      value := initial;
      speed := 3.0;
    }

    /** `update(delta = 1 / 60)`. */
    method Update(delta: real := 1.0 / 60.0)
      modifies this`value
      ensures value == Toward(old(value), target, speed * delta)
      ensures old(value) == target ==> value == target
    {
      var dist := target - value;
      value := value + dist * (speed * delta);
    }
  }
}
