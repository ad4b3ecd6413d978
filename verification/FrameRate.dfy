/**
 The constant-time match of a requested frame rate against a device's continuous range of
 frame intervals, over exact reals, and the linear scan it replaces.
 */
module FrameRate {
  type uint32 = x: int | 0 <= x < 0x1_0000_0000

  /** Conversion of a wider unsigned value to 32 bits. */
  function Truncate32(x: nat): uint32 {
    x % 0x1_0000_0000
  }

  /** Frames per second of an interval in units of 100 ns. */
  function Rate(interval: int): real {
    if interval == 0 then 0.0 else 10000000.0 / interval as real
  }

  predicate FloatEqual(a: real, b: real) {
    -0.0001 < a - b < 0.0001
  }

  /** The last index of the interval lattice. */
  function Last(minimum: uint32, maximum: uint32, step: uint32): nat
    requires minimum <= maximum && step > 0
  {
    (maximum - minimum) / step
  }

  function RawPosition(minimum: uint32, step: uint32, fps: real): real
    requires step > 0 && fps > 0.0
  {
    (10000000.0 / fps - minimum as real) / step as real
  }

  /** The position of the requested interval in the lattice, clamped to the lattice. */
  function Position(minimum: uint32, maximum: uint32, step: uint32, fps: real): real
    requires minimum <= maximum && step > 0 && fps > 0.0
  {
    var position := RawPosition(minimum, step, fps);
    var raised := if position < 0.0 then 0.0 else position;
    var last := Last(minimum, maximum, step) as real;
    if raised > last then last else raised
  }

  function Index(minimum: uint32, maximum: uint32, step: uint32, fps: real): (index: nat)
    requires minimum <= maximum && step > 0 && fps > 0.0
    ensures index <= Last(minimum, maximum, step)
  {
    Position(minimum, maximum, step, fps).Floor
  }

  /** The constant-time check. */
  function ContinuousMatches(minimum: uint32, maximum: uint32, step: uint32, fps: real): bool {
    if minimum == 0 || maximum < minimum || fps <= 0.0 then false
    else if step == 0 then FloatEqual(fps, Rate(minimum))
    else
      var last := Last(minimum, maximum, step);
      var index := Index(minimum, maximum, step, fps);
      var interval := Truncate32(minimum + index * step);
      if FloatEqual(fps, Rate(interval)) then true
      else if index < last then FloatEqual(fps, Rate(Truncate32(interval + step)))
      else false
  }

  /** What a scan of the whole range would find. */
  ghost predicate SomeIntervalMatches(minimum: uint32, maximum: uint32, step: uint32, fps: real) {
    && 0 < minimum <= maximum && fps > 0.0
    && (if step == 0 then FloatEqual(fps, Rate(minimum))
        else exists k: nat :: LatticePoint(minimum, step, k) <= maximum && FloatEqual(fps, Rate(LatticePoint(minimum, step, k))))
  }

  function LatticePoint(minimum: uint32, step: uint32, k: nat): nat {
    minimum + k * step
  }

  lemma LatticeMonotone(minimum: uint32, step: uint32, j: nat, k: nat)
    requires j <= k
    ensures LatticePoint(minimum, step, j) <= LatticePoint(minimum, step, k)
  {
    var more := k - j;
    assert k * step == j * step + more * step;
    NoNegativeProduct(more, step);
  }

  lemma NoNegativeProduct(a: nat, b: nat)
    ensures a * b >= 0
  {
  }

  /** A lattice index is within the range exactly up to the last one. */
  lemma WithinRange(minimum: uint32, maximum: uint32, step: uint32, k: nat)
    requires minimum <= maximum && step > 0
    ensures LatticePoint(minimum, step, k) <= maximum <==> k <= Last(minimum, maximum, step)
  {
    var last := Last(minimum, maximum, step);
    assert last * step <= maximum - minimum < (last + 1) * step;
    if k <= last {
      LatticeMonotone(minimum, step, k, last);
    } else {
      LatticeMonotone(minimum, step, last + 1, k);
    }
  }

  /** Neither candidate exceeds the maximum, so the conversions to 32 bits lose nothing. */
  lemma CandidatesFit(minimum: uint32, maximum: uint32, step: uint32, fps: real)
    requires minimum <= maximum && step > 0 && fps > 0.0
    ensures var index := Index(minimum, maximum, step, fps);
            && minimum <= Truncate32(minimum + index * step) == LatticePoint(minimum, step, index) <= maximum
            && (index < Last(minimum, maximum, step) ==>
                  Truncate32(LatticePoint(minimum, step, index) + step) == LatticePoint(minimum, step, index + 1) <= maximum)
  {
    var index := Index(minimum, maximum, step, fps);
    WithinRange(minimum, maximum, step, index);
    WithinRange(minimum, maximum, step, index + 1);
    assert (index + 1) * step == index * step + step;
    LatticeMonotone(minimum, step, 0, index);
  }

  lemma MulLess(a: real, b: real, c: real)
    requires a < b && c > 0.0
    ensures a * c < b * c
  {
  }

  lemma MulLeq(a: real, b: real, c: real)
    requires a <= b && c >= 0.0
    ensures a * c <= b * c
  {
  }

  lemma Quotient(n: real, d: real)
    requires d > 0.0
    ensures (n / d) * d == n
  {
  }

  /** Two factorisations of one positive product order their factors oppositely. */
  lemma ProductsAntitone(r: real, x: real, f: real, t: real)
    requires r * x == f * t && x > 0.0 && f > 0.0 && t > 0.0
    ensures x <= t <==> f <= r
  {
    if x <= t {
      if r < f { MulLess(r, f, x); MulLeq(x, t, f); assert false; }
    } else {
      if f <= r { MulLeq(f, r, x); MulLess(t, x, f); assert false; }
    }
  }

  lemma RatePositive(interval: int)
    requires interval > 0
    ensures Rate(interval) > 0.0 && Rate(interval) * interval as real == 10000000.0
  {
    Quotient(10000000.0, interval as real);
  }

  lemma RateAntitone(a: int, b: int)
    requires 0 < a <= b
    ensures Rate(b) <= Rate(a)
  {
    RatePositive(a);
    RatePositive(b);
    ProductsAntitone(Rate(a), a as real, Rate(b), b as real);
  }

  /** An interval is on the near side of the requested one exactly when its rate is at least the request. */
  lemma RateAgainstTarget(interval: int, fps: real)
    requires interval > 0 && fps > 0.0
    ensures interval as real <= 10000000.0 / fps <==> Rate(interval) >= fps
  {
    RatePositive(interval);
    Quotient(10000000.0, fps);
    var t := 10000000.0 / fps;
    assert t * fps == fps * t;
    ProductsAntitone(Rate(interval), interval as real, fps, t);
  }

  /** Rounding down the clamped position brackets the unclamped one. */
  lemma IndexBrackets(minimum: uint32, maximum: uint32, step: uint32, fps: real)
    requires minimum <= maximum && step > 0 && fps > 0.0
    ensures var index, raw := Index(minimum, maximum, step, fps), RawPosition(minimum, step, fps);
            && (index == 0 || index as real <= raw)
            && (index == Last(minimum, maximum, step) || raw < (index + 1) as real)
  {
  }

  /** A lattice point lies beyond the requested interval exactly when its index lies beyond the raw position. */
  lemma PointAgainstRequest(minimum: uint32, step: uint32, fps: real, k: nat)
    requires step > 0 && fps > 0.0
    ensures k as real <= RawPosition(minimum, step, fps) <==> LatticePoint(minimum, step, k) as real <= 10000000.0 / fps
  {
    var target, raw := 10000000.0 / fps, RawPosition(minimum, step, fps);
    Quotient(target - minimum as real, step as real);
    IntegerProduct(k, step);
    PointAgainstTarget(minimum as real, step as real, target, raw, k as real);
  }

  /** A point of the real lattice lies beyond the target exactly when its index lies beyond the target's position. */
  lemma PointAgainstTarget(base: real, step: real, target: real, raw: real, index: real)
    requires step > 0.0 && raw * step == target - base
    ensures index <= raw <==> base + index * step <= target
  {
    if index <= raw {
      MulLeq(index, raw, step);
    } else {
      MulLess(raw, index, step);
    }
  }

  lemma IntegerProduct(a: int, b: int)
    ensures (a * b) as real == a as real * b as real
  {
  }

  /** Any match is at least as good at one of the two candidates. */
  lemma BestCandidate(minimum: uint32, maximum: uint32, step: uint32, fps: real, k: nat)
    requires 0 < minimum <= maximum && step > 0 && fps > 0.0
    requires LatticePoint(minimum, step, k) <= maximum && FloatEqual(fps, Rate(LatticePoint(minimum, step, k)))
    ensures ContinuousMatches(minimum, maximum, step, fps)
  {
    var index := Index(minimum, maximum, step, fps);
    var x, x0, x1 := LatticePoint(minimum, step, k), LatticePoint(minimum, step, index), LatticePoint(minimum, step, index + 1);
    CandidatesFit(minimum, maximum, step, fps);
    IndexBrackets(minimum, maximum, step, fps);
    PointAgainstRequest(minimum, step, fps, index);
    PointAgainstRequest(minimum, step, fps, index + 1);
    WithinRange(minimum, maximum, step, k);
    LatticeMonotone(minimum, step, 0, k);
    if k <= index {
      LatticeMonotone(minimum, step, k, index);
      RateAntitone(x, x0);
      if k < index { RateAgainstTarget(x0, fps); }
      assert FloatEqual(fps, Rate(x0));
    } else {
      LatticeMonotone(minimum, step, index + 1, k);
      RateAntitone(x1, x);
      RateAgainstTarget(x1, fps);
      assert FloatEqual(fps, Rate(x1));
    }
  }

  /** The constant-time check finds a match exactly when the scan would. */
  lemma FastMatchRefinesScan(minimum: uint32, maximum: uint32, step: uint32, fps: real)
    ensures ContinuousMatches(minimum, maximum, step, fps) <==> SomeIntervalMatches(minimum, maximum, step, fps)
  {
    if 0 < minimum <= maximum && fps > 0.0 && step != 0 {
      if SomeIntervalMatches(minimum, maximum, step, fps) {
        var k: nat :| LatticePoint(minimum, step, k) <= maximum && FloatEqual(fps, Rate(LatticePoint(minimum, step, k)));
        BestCandidate(minimum, maximum, step, fps, k);
      }
      if ContinuousMatches(minimum, maximum, step, fps) {
        var index := Index(minimum, maximum, step, fps);
        CandidatesFit(minimum, maximum, step, fps);
        assert FloatEqual(fps, Rate(LatticePoint(minimum, step, index)))
            || FloatEqual(fps, Rate(LatticePoint(minimum, step, index + 1)));
      }
    }
  }

  // ----- the same, in terms of the descriptor alone -----

  /** The intervals a continuous range offers: the minimum, and every whole number of steps above it up to the maximum. */
  ghost predicate Offers(minimum: uint32, maximum: uint32, step: uint32, x: int) {
    minimum <= x <= maximum && if step == 0 then x == minimum else (x - minimum) % step == 0
  }

  /** Frames of x units of 100 ns come at `fps` to within a ten-thousandth of a frame per second. */
  ghost predicate Near(fps: real, x: int) {
    -(x as real) < 10000.0 * (fps * x as real - 10000000.0) < x as real
  }

  lemma NearIsFloatEqual(fps: real, x: int)
    requires x > 0
    ensures FloatEqual(fps, Rate(x)) <==> Near(fps, x)
  {
    RatePositive(x);
    Difference(fps, Rate(x), x as real);
    Difference(Rate(x), fps, x as real);
    Scaled(fps - Rate(x), x as real, fps * x as real - 10000000.0);
    Scaled(Rate(x) - fps, x as real, 10000000.0 - fps * x as real);
  }

  lemma Difference(a: real, b: real, n: real)
    ensures (a - b) * n == a * n - b * n
  {
  }

  lemma Scaled(a: real, n: real, product: real)
    requires n > 0.0 && product == a * n
    ensures a < 0.0001 <==> 10000.0 * product < n
  {
    if a < 0.0001 { MulLess(a, 0.0001, n); } else { MulLeq(0.0001, a, n); }
  }

  lemma OfferedIsLattice(minimum: uint32, maximum: uint32, step: uint32, x: int)
    requires step > 0 && Offers(minimum, maximum, step, x)
    ensures LatticePoint(minimum, step, (x - minimum) / step) == x
  {
  }

  lemma LatticeIsOffered(minimum: uint32, maximum: uint32, step: uint32, k: nat)
    requires step > 0 && LatticePoint(minimum, step, k) <= maximum
    ensures Offers(minimum, maximum, step, LatticePoint(minimum, step, k))
  {
    LatticeMonotone(minimum, step, 0, k);
    ModOfMultiple(k, step);
  }

  lemma ModOfMultiple(k: int, step: int)
    requires step > 0
    ensures (k * step) % step == 0
  {
    var q, r := (k * step) / step, (k * step) % step;
    assert (k - q) * step == r;
    MultipleIsLarge(k - q, step);
  }

  lemma MultipleIsLarge(n: int, step: int)
    requires step > 0
    ensures n >= 1 ==> n * step >= step
    ensures n <= -1 ==> n * step <= -step
  {
    if n >= 1 {
      assert (n - 1) * step >= 0;
    } else if n <= -1 {
      assert (n + 1) * step <= 0;
    }
  }

  /** The check accepts a rate exactly when the range offers an interval that gives it, to within a ten-thousandth. */
  lemma MatchesWhatIsOffered(minimum: uint32, maximum: uint32, step: uint32, fps: real)
    ensures ContinuousMatches(minimum, maximum, step, fps) <==>
              0 < minimum <= maximum && fps > 0.0 && exists x :: Offers(minimum, maximum, step, x) && Near(fps, x)
  {
    FastMatchRefinesScan(minimum, maximum, step, fps);
    if 0 < minimum <= maximum && fps > 0.0 {
      ScanMeansOffered(minimum, maximum, step, fps);
    }
  }

  lemma ScanMeansOffered(minimum: uint32, maximum: uint32, step: uint32, fps: real)
    requires 0 < minimum <= maximum && fps > 0.0
    ensures SomeIntervalMatches(minimum, maximum, step, fps) <==> exists x :: Offers(minimum, maximum, step, x) && Near(fps, x)
  {
    if SomeIntervalMatches(minimum, maximum, step, fps) {
      if step == 0 {
        NearIsFloatEqual(fps, minimum);
        assert Offers(minimum, maximum, step, minimum);
      } else {
        var k: nat :| LatticePoint(minimum, step, k) <= maximum && FloatEqual(fps, Rate(LatticePoint(minimum, step, k)));
        LatticeIsOffered(minimum, maximum, step, k);
        NearIsFloatEqual(fps, LatticePoint(minimum, step, k));
      }
    }
    if x :| Offers(minimum, maximum, step, x) && Near(fps, x) {
      NearIsFloatEqual(fps, x);
      if step > 0 { OfferedIsLattice(minimum, maximum, step, x); }
    }
  }
}
