/** The wait strategies and the proportional controller that scales them. Durations are nanoseconds, floats reals. */
module Strategies {
  import opened Arithmetic
  import opened Models

  const MILLISECOND := 1_000_000

  datatype Metrics = Metrics(p99LatencyMs: real, targetP99Ms: real)

  /** Conversion of a float to a whole number, towards zero. */
  function Trunc(x: real): int {
    if x >= 0.0 then x.Floor else -((-x).Floor)
  }

  /** The straight line from maxWait at 0 to minWait at n. */
  function Line(d: int, n: int, minWait: int, maxWait: int): real
    requires n > 0
  {
    maxWait as real - d as real / n as real * (maxWait - minWait) as real
  }

  datatype Strategy =
    | Fixed(maxWaitMs: int, maxBatchSize: int)
    | QueueDepth(lowThreshold: int, highThreshold: int, minWaitMs: int, maxWaitMs: int, maxBatchSize: int)
  {
    /** The wait, given the depth of the whole matrix. */
    function BaseTimeout(depth: int): int {
      match this
      case Fixed(maxWait, _) => maxWait * MILLISECOND
      case QueueDepth(low, high, minWait, maxWait, _) =>
        if depth <= low then maxWait * MILLISECOND
        else if depth >= high then minWait * MILLISECOND
        else
          var waitMs := Line(depth - low, high - low, minWait, maxWait);
          Trunc(if waitMs < 0.0 then 0.0 else waitMs) * MILLISECOND
    }

    /** What the source demands of the configured waits. */
    predicate Waits() {
      0 <= maxWaitMs && (QueueDepth? ==> 0 <= minWaitMs <= maxWaitMs)
    }
  }

  lemma RatioMonotone(a: int, b: int, n: int)
    requires n > 0 && 0 <= a <= b <= n
    ensures 0.0 <= a as real / n as real <= b as real / n as real <= 1.0
  {
    var m := n as real;
    Quotients(0.0, a as real, m);
    Quotients(a as real, b as real, m);
    Quotients(b as real, m, m);
  }

  lemma Quotients(a: real, b: real, n: real)
    requires n > 0.0 && a <= b
    ensures a / n <= b / n && 0.0 / n == 0.0 && n / n == 1.0
  {
    Products(1.0 / n, a, b);
    assert a / n == a * (1.0 / n) && b / n == b * (1.0 / n);
  }

  lemma Interpolate(r: real, q: real, d: real)
    requires 0.0 <= r <= q <= 1.0 && d >= 0.0
    ensures 0.0 <= r * d <= q * d <= d
  {
    Products(d, 0.0, r);
    Products(d, r, q);
    Products(d, q, 1.0);
  }

  /** A deeper queue never waits longer, and the wait stays between the configured bounds. */
  lemma TimeoutAntitone(s: Strategy, d: int, e: int)
    requires s.Waits() && d <= e
    ensures s.BaseTimeout(e) <= s.BaseTimeout(d) <= s.maxWaitMs * MILLISECOND
    ensures s.QueueDepth? ==> s.minWaitMs * MILLISECOND <= s.BaseTimeout(e)
  {
    if s.QueueDepth? {
      var n := s.highThreshold - s.lowThreshold;
      var w := (s.maxWaitMs - s.minWaitMs) as real;
      if s.lowThreshold < d < s.highThreshold { Between(s, d, if e < s.highThreshold then e else d); }
      if s.lowThreshold < e < s.highThreshold { Between(s, e, e); }
    }
  }

  lemma Between(s: Strategy, d: int, e: int)
    requires s.QueueDepth? && s.Waits() && s.lowThreshold < d <= e < s.highThreshold
    ensures s.minWaitMs * MILLISECOND <= s.BaseTimeout(e) <= s.BaseTimeout(d) <= s.maxWaitMs * MILLISECOND
  {
    var n := s.highThreshold - s.lowThreshold;
    LineFalls(d - s.lowThreshold, e - s.lowThreshold, n, s.minWaitMs, s.maxWaitMs);
    hide Line;
    Floors(s.minWaitMs, Line(e - s.lowThreshold, n, s.minWaitMs, s.maxWaitMs),
           Line(d - s.lowThreshold, n, s.minWaitMs, s.maxWaitMs), s.maxWaitMs);
  }

  lemma LineFalls(d: int, e: int, n: int, minWait: int, maxWait: int)
    requires 0 <= d <= e <= n && n > 0 && minWait <= maxWait
    ensures minWait as real <= Line(e, n, minWait, maxWait) <= Line(d, n, minWait, maxWait) <= maxWait as real
  {
    RatioMonotone(d, e, n);
    Interpolate(d as real / n as real, e as real / n as real, (maxWait - minWait) as real);
  }

  lemma Floors(lo: int, y: real, x: real, hi: int)
    requires lo as real <= y <= x <= hi as real
    ensures lo <= y.Floor <= x.Floor <= hi
  {
  }

  // ----- The controller -----

  // ----- The waits themselves -----

  /** Below the low threshold the longest wait, from the high one on the shortest; a fixed wait is always the same. */
  lemma WaitAtEnds(s: Strategy, d: int)
    ensures s.Fixed? ==> s.BaseTimeout(d) == s.maxWaitMs * 1_000_000
    ensures s.QueueDepth? && d <= s.lowThreshold ==> s.BaseTimeout(d) == s.maxWaitMs * 1_000_000
    ensures s.QueueDepth? && s.lowThreshold < d && s.highThreshold <= d ==> s.BaseTimeout(d) == s.minWaitMs * 1_000_000
  {
  }

  /** In between it is the whole number of milliseconds on or just below the straight line between the two. */
  lemma WaitOnLine(s: Strategy, d: int) returns (ms: int)
    requires s.QueueDepth? && s.Waits() && s.lowThreshold < d < s.highThreshold
    ensures s.BaseTimeout(d) == ms * 1_000_000
    ensures var n, gone := s.highThreshold - s.lowThreshold, d - s.lowThreshold;
            ms * n <= s.maxWaitMs * n - gone * (s.maxWaitMs - s.minWaitMs) < (ms + 1) * n
  {
    var n, gone, w := s.highThreshold - s.lowThreshold, d - s.lowThreshold, s.maxWaitMs - s.minWaitMs;
    var line := Line(gone, n, s.minWaitMs, s.maxWaitMs);
    assert line >= s.minWaitMs as real by { LineFalls(gone, gone, n, s.minWaitMs, s.maxWaitMs); }
    ms := Trunc(line);
    var ratio := gone as real / n as real;
    assert ratio * n as real == gone as real;
    LineTimes(ratio, gone, n, w, s.maxWaitMs, line);
    FloorTimes(line, ms, n, s.maxWaitMs * n - gone * w);
  }

  lemma LineTimes(ratio: real, gone: int, n: int, w: int, maxWait: int, line: real)
    requires n > 0 && ratio * n as real == gone as real && line == maxWait as real - ratio * w as real
    ensures line * n as real == (maxWait * n - gone * w) as real
  {
    LineReal(ratio, gone as real, n as real, w as real, maxWait as real, line);
    RealProduct(maxWait, n);
    RealProduct(gone, w);
  }

  lemma LineReal(ratio: real, gone: real, n: real, w: real, maxWait: real, line: real)
    requires ratio * n == gone && line == maxWait - ratio * w
    ensures line * n == maxWait * n - gone * w
  {
    var slope := ratio * w;
    assert slope * n == (ratio * n) * w;
    assert line * n == maxWait * n - slope * n;
  }

  lemma RealProduct(a: int, b: int)
    ensures (a * b) as real == a as real * b as real
  {
  }

  lemma FloorTimes(line: real, ms: int, n: int, whole: int)
    requires n > 0 && ms as real <= line < (ms + 1) as real && line * n as real == whole as real
    ensures ms * n <= whole < (ms + 1) * n
  {
    Products(n as real, ms as real, line);
    ProductsStrict(n as real, line, (ms + 1) as real);
    RealProduct(ms, n);
    RealProduct(ms + 1, n);
  }

  function Clamp(v: real, lo: real, hi: real): real {
    if v < lo then lo else if v > hi then hi else v
  }

  predicate Usable(m: Option<Metrics>) {
    m.Some? && m.value.p99LatencyMs > 0.0 && m.value.targetP99Ms > 0.0
  }

  function ErrorRatio(m: Metrics): real
    requires m.targetP99Ms > 0.0
  {
    (m.p99LatencyMs - m.targetP99Ms) / m.targetP99Ms
  }

  function Adjust(mult: real, kP: real, m: Option<Metrics>): real {
    if Usable(m) then Clamp(mult - kP * ErrorRatio(m.value), 0.5, 2.0) else mult
  }

  /** The base wait scaled by the multiplier; without a base strategy there is no wait. */
  function Scale(base: Option<Strategy>, depth: int, mult: real): int {
    if base.None? then 0 else Trunc(base.value.BaseTimeout(depth) as real * mult)
  }

  class LatencyAware {
    const base: Option<Strategy>
    var currentMultiplier: real
    const kP: real

    ghost predicate Valid()
      reads this
    {
      0.5 <= currentMultiplier <= 2.0
    }

    constructor (base: Option<Strategy>, kP: real)
      ensures Valid() && currentMultiplier == 1.0 && this.base == base && this.kP == kP
    {
      this.base, this.kP := base, kP;
      currentMultiplier := 1.0;
    }

    /** One proportional step, then the base wait scaled; the multiplier stays within [0.5, 2] whatever the metrics. */
    method CalculateTimeout(queueDepth: int, metrics: Option<Metrics>) returns (timeout: int)
      requires Valid()
      modifies this`currentMultiplier
      ensures Valid() && currentMultiplier == Adjust(old(currentMultiplier), kP, metrics)
      ensures timeout == Scale(base, queueDepth, currentMultiplier)
      ensures base.None? ==> timeout == 0
      ensures base.Some? && base.value.Waits() ==> 0 <= timeout <= 2 * base.value.maxWaitMs * MILLISECOND
    {
      hide Adjust;
      var mult := Step(metrics);
      assert base.None? ==> Scale(base, queueDepth, mult) == 0;
      hide Scale;
      if base.Some? && base.value.Waits() { Scaled(base, queueDepth, mult); }
      return Scale(base, queueDepth, mult);
    }

    /** The proportional step. */
    method Step(metrics: Option<Metrics>) returns (mult: real)
      requires Valid()
      modifies this`currentMultiplier
      ensures Valid() && mult == currentMultiplier == Adjust(old(currentMultiplier), kP, metrics)
    {
      mult := currentMultiplier;
      if metrics.Some? && metrics.value.p99LatencyMs > 0.0 && metrics.value.targetP99Ms > 0.0 {
        var errRatio := (metrics.value.p99LatencyMs - metrics.value.targetP99Ms) / metrics.value.targetP99Ms;
        mult := mult - kP * errRatio;
        mult := Clamp(mult, 0.5, 2.0);
        currentMultiplier := mult;
      }
    }
  }

  /** What nextTimeout finds active: nothing, a plain strategy, or one under the controller. */
  datatype Active = NoStrategy | Plain(strategy: Strategy) | Adaptive(controller: LatencyAware)

  ghost predicate Ready(active: Active)
    reads if active.Adaptive? then {active.controller} else {}
  {
    match active
    case NoStrategy => true
    case Plain(s) => s.Waits()
    case Adaptive(l) => l.Valid() && (l.base.Some? ==> l.base.value.Waits())
  }

  /** The longest wait the strategy can ask for. */
  function Longest(active: Active): int {
    match active
    case NoStrategy => 0
    case Plain(s) => s.maxWaitMs * MILLISECOND
    case Adaptive(l) => if l.base.None? then 0 else 2 * l.base.value.maxWaitMs * MILLISECOND
  }

  function AtLeastOne(timeout: int): int { if timeout < MILLISECOND then MILLISECOND else timeout }

  /** The window accumulate arms: never below a millisecond, never above the longest wait unless that is less. */
  method NextTimeout(active: Active, queueDepth: int, metrics: Option<Metrics>) returns (window: int)
    requires Ready(active)
    modifies if active.Adaptive? then {active.controller} else {}
    ensures Ready(active)
    ensures MILLISECOND <= window <= AtLeastOne(Longest(active))
    ensures active.NoStrategy? ==> window == MILLISECOND
    ensures active.Plain? ==> window == AtLeastOne(active.strategy.BaseTimeout(queueDepth))
    ensures active.Adaptive? ==>
      var l := active.controller;
      window == AtLeastOne(Scale(l.base, queueDepth, l.currentMultiplier))
      && l.currentMultiplier == Adjust(old(l.currentMultiplier), l.kP, metrics)
  {
    hide Scale, Adjust;
    var timeout;
    match active {
      case NoStrategy => return MILLISECOND;
      case Plain(s) =>
        timeout := s.BaseTimeout(queueDepth);
        TimeoutAntitone(s, queueDepth, queueDepth);
      case Adaptive(l) =>
        timeout := l.CalculateTimeout(queueDepth, metrics);
    }
    return if timeout < MILLISECOND then MILLISECOND else timeout;
  }

  lemma Scaled(base: Option<Strategy>, depth: int, mult: real)
    requires base.Some? && base.value.Waits() && 0.5 <= mult <= 2.0
    ensures 0 <= Scale(base, depth, mult) <= 2 * base.value.maxWaitMs * MILLISECOND
  {
    var b := base.value.BaseTimeout(depth);
    TimeoutAntitone(base.value, depth, depth);
    assert 0 <= b by { if base.value.QueueDepth? { assert base.value.minWaitMs * MILLISECOND >= 0; } }
    ScaleWithin(b, mult);
  }

  lemma ScaleWithin(b: int, mult: real)
    requires 0 <= b && 0.5 <= mult <= 2.0
    ensures 0 <= Trunc(b as real * mult) <= 2 * b
  {
    var x := b as real;
    Products(x, 0.0, mult);
    Products(x, mult, 2.0);
    assert x * 2.0 == x + x;
    TruncWithin(x * mult, b);
  }

  lemma TruncWithin(x: real, b: int)
    requires 0.0 <= x <= b as real + b as real
    ensures 0 <= Trunc(x) <= 2 * b
  {
    assert b as real + b as real == (2 * b) as real;
  }

  /** The multiplier after a sequence of readings. */
  function Readings(mult: real, kP: real, ms: seq<Metrics>): real {
    if ms == [] then mult else Adjust(Readings(mult, kP, ms[..|ms| - 1]), kP, Some(ms[|ms| - 1]))
  }

  ghost predicate ErrorAtLeast(ms: seq<Metrics>, e: real) {
    forall i :: 0 <= i < |ms| ==> Usable(Some(ms[i])) && ErrorRatio(ms[i]) >= e
  }

  ghost predicate ErrorAtMost(ms: seq<Metrics>, e: real) {
    forall i :: 0 <= i < |ms| ==> Usable(Some(ms[i])) && ErrorRatio(ms[i]) <= -e
  }

  /**
   One step moves the multiplier by exactly the gain times the error ratio, that is, by kP * (p99 - target) over the
   target, and stops at 0.5 and 2; unusable metrics leave it alone.
   */
  lemma AdjustExact(mult: real, kP: real, m: Option<Metrics>)
    ensures !Usable(m) ==> Adjust(mult, kP, m) == mult
    ensures Usable(m) <==> m.Some? && m.value.p99LatencyMs > 0.0 && m.value.targetP99Ms > 0.0
    ensures Usable(m) ==>
      var target, r := m.value.targetP99Ms, Adjust(mult, kP, m);
      var aim := mult * target - kP * (m.value.p99LatencyMs - target);
      0.5 <= r <= 2.0
      && (r * target == aim || (r == 0.5 && aim < 0.5 * target) || (r == 2.0 && aim > 2.0 * target))
  {
    if Usable(m) {
      var target, over := m.value.targetP99Ms, m.value.p99LatencyMs - m.value.targetP99Ms;
      var ratio := ErrorRatio(m.value);
      assert ratio * target == over;
      var u := mult - kP * ratio;
      AimOf(mult, kP, ratio, target, over, u);
      hide ErrorRatio;
      if u < 0.5 { ProductsStrict(target, u, 0.5); }
      if u > 2.0 { ProductsStrict(target, 2.0, u); }
    }
  }

  lemma AimOf(mult: real, kP: real, ratio: real, target: real, over: real, u: real)
    requires ratio * target == over && u == mult - kP * ratio
    ensures u * target == mult * target - kP * over
  {
    assert u * target == mult * target - kP * (ratio * target);
  }

  /** The scaled wait is the product, cut to a whole number. */
  lemma ScaleExact(base: Option<Strategy>, depth: int, mult: real)
    ensures base.None? ==> Scale(base, depth, mult) == 0
    ensures base.Some? && base.value.BaseTimeout(depth) >= 0 && mult >= 0.0 ==>
      var product := base.value.BaseTimeout(depth) as real * mult;
      Scale(base, depth, mult) as real <= product < Scale(base, depth, mult) as real + 1.0
  {
    if base.Some? && base.value.BaseTimeout(depth) >= 0 && mult >= 0.0 {
      Positive(base.value.BaseTimeout(depth) as real, mult);
    }
  }

  /** What n readings in error by e move the multiplier at least. */
  function Gain(n: nat, kP: real, e: real): real { n as real * kP * e }

  lemma GainStep(n: nat, kP: real, e: real)
    requires n >= 1 && kP > 0.0 && e > 0.0
    ensures Gain(n, kP, e) == Gain(n - 1, kP, e) + kP * e
  {
    assert n as real == (n - 1) as real + 1.0;
  }

  lemma NoGain(kP: real, e: real)
    ensures Gain(0, kP, e) == 0.0
  {
  }

  /** One over-target reading lowers the multiplier by the gain, or leaves it at its lower bound. */
  lemma AdjustFalls(mult: real, kP: real, m: Metrics, e: real)
    requires 0.5 <= mult <= 2.0 && kP > 0.0 && e > 0.0 && Usable(Some(m)) && ErrorRatio(m) >= e
    ensures var r := Adjust(mult, kP, Some(m)); 0.5 <= r <= 2.0 && (r == 0.5 || r <= mult - kP * e)
  {
    Products(kP, e, ErrorRatio(m));
    Products(kP, 0.0, e);
    hide ErrorRatio;
  }

  lemma AdjustRises(mult: real, kP: real, m: Metrics, e: real)
    requires 0.5 <= mult <= 2.0 && kP > 0.0 && e > 0.0 && Usable(Some(m)) && ErrorRatio(m) <= -e
    ensures var r := Adjust(mult, kP, Some(m)); 0.5 <= r <= 2.0 && (r == 2.0 || r >= mult + kP * e)
  {
    Products(kP, ErrorRatio(m), -e);
    Products(kP, 0.0, e);
    assert kP * -e == -(kP * e);
    hide ErrorRatio;
  }

  lemma {:induction false} ReadingsFall(mult: real, kP: real, ms: seq<Metrics>, e: real)
    requires 0.5 <= mult <= 2.0 && kP > 0.0 && e > 0.0 && ErrorAtLeast(ms, e)
    ensures var r := Readings(mult, kP, ms);
            0.5 <= r <= 2.0 && (r == 0.5 || r <= mult - Gain(|ms|, kP, e))
  {
    if ms != [] {
      var n := |ms| - 1;
      var prev, r := Readings(mult, kP, ms[..n]), Readings(mult, kP, ms);
      ReadingsFall(mult, kP, ms[..n], e);
      AdjustFalls(prev, kP, ms[n], e);
      hide *;
      var step := kP * e;
      assert step >= 0.0 by { Positive(kP, e); }
      GainStep(|ms|, kP, e);
      Fall(mult, prev, r, Gain(n, kP, e), Gain(|ms|, kP, e), step);
    } else {
      NoGain(kP, e);
    }
  }

  lemma Fall(mult: real, prev: real, r: real, before: real, after: real, step: real)
    requires after == before + step && step >= 0.0 && r >= 0.5
    requires prev == 0.5 || prev <= mult - before
    requires r == 0.5 || r <= prev - step
    ensures r == 0.5 || r <= mult - after
  {
  }

  lemma {:induction false} ReadingsRise(mult: real, kP: real, ms: seq<Metrics>, e: real)
    requires 0.5 <= mult <= 2.0 && kP > 0.0 && e > 0.0 && ErrorAtMost(ms, e)
    ensures var r := Readings(mult, kP, ms);
            0.5 <= r <= 2.0 && (r == 2.0 || r >= mult + Gain(|ms|, kP, e))
  {
    if ms != [] {
      var n := |ms| - 1;
      var prev, r := Readings(mult, kP, ms[..n]), Readings(mult, kP, ms);
      ReadingsRise(mult, kP, ms[..n], e);
      AdjustRises(prev, kP, ms[n], e);
      hide *;
      var step := kP * e;
      assert step >= 0.0 by { Positive(kP, e); }
      GainStep(|ms|, kP, e);
      Rise(mult, prev, r, Gain(n, kP, e), Gain(|ms|, kP, e), step);
    } else {
      NoGain(kP, e);
    }
  }

  lemma Rise(mult: real, prev: real, r: real, before: real, after: real, step: real)
    requires after == before + step && step >= 0.0 && r <= 2.0
    requires prev == 2.0 || prev >= mult + before
    requires r == 2.0 || r >= prev + step
    ensures r == 2.0 || r >= mult + after
  {
  }

  /** Sustained error forces the multiplier to its bound from any state: down when over target, up when under. */
  lemma SaturatesUnderSustainedError(mult: real, kP: real, ms: seq<Metrics>, e: real)
    requires 0.5 <= mult <= 2.0 && kP > 0.0 && e > 0.0 && Gain(|ms|, kP, e) >= 1.5
    ensures ErrorAtLeast(ms, e) ==> Readings(mult, kP, ms) == 0.5
    ensures ErrorAtMost(ms, e) ==> Readings(mult, kP, ms) == 2.0
  {
    if ErrorAtLeast(ms, e) { ReadingsFall(mult, kP, ms, e); }
    if ErrorAtMost(ms, e) { ReadingsRise(mult, kP, ms, e); }
  }
}
