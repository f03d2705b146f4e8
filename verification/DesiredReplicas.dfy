/** DesiredReplicas: a ceiling division that goes through an int64 to int32 conversion, then a clamp. */
module DesiredReplicas {
  import opened GoIntegers

  // ---------------------------------------------------------------- what is meant

  function Target(targetPerWorker: int): int {
    if targetPerWorker <= 0 then 10 else targetPerWorker
  }

  /** The least number of workers that covers the depth. */
  function Ceil(depth: int, target: int): int
    requires target > 0
  {
    -((-depth) / target)
  }

  function Clamp(x: int, min: int, max: int): int {
    var raised := if x < min then min else x;
    if raised > max then max else raised
  }

  /** The replica count the code settles on, wraparound included. */
  function Desired(depth: int, targetPerWorker: int, min: int, max: int): int {
    Clamp(Wrap32(Ceil(depth, Target(targetPerWorker))), min, max)
  }

  // ---------------------------------------------------------------- the code

  method Compute(queueDepth: int64, targetPerWorker: int64, min: int32, max: int32) returns (desired: int32)
    ensures desired == Desired(queueDepth, targetPerWorker, min, max)
    ensures min <= max ==> min <= desired <= max
    ensures max < min ==> desired == max
    ensures targetPerWorker <= 0 ==> desired == Desired(queueDepth, 10, min, max)
  {
    var target := targetPerWorker;
    if target <= 0 {
      target := 10;
    }
    hide Quot, Rem, Ceil, Wrap32;
    CeilOfQuotient(queueDepth, target);
    WrapAddsUp(Quot(queueDepth, target));
    desired := Wrap32(Quot(queueDepth, target));
    if Rem(queueDepth, target) > 0 {
      desired := Wrap32(desired + 1);
    }
    if desired < min {
      desired := min;
    }
    if desired > max {
      desired := max;
    }
  }

  // ---------------------------------------------------------------- lemmas

  lemma CeilOfBacklog(depth: int, target: int)
    requires target > 0 && depth >= 0
    ensures Ceil(depth, target) == depth / target + if depth % target > 0 then 1 else 0
  {
    var q, r := depth / target, depth % target;
    Distributes(0, q, target);
    Distributes(0, q + 1, target);
    if r == 0 {
      Divides(-depth, target, -q, 0);
    } else {
      Divides(-depth, target, -q - 1, target - r);
    }
  }

  /** Truncation plus one for a positive remainder is the ceiling, for either sign. */
  lemma CeilOfQuotient(depth: int, target: int)
    requires target > 0
    ensures Ceil(depth, target) == Quot(depth, target) + if Rem(depth, target) > 0 then 1 else 0
  {
    if depth >= 0 {
      hide Ceil;
      CeilOfBacklog(depth, target);
    } else {
      var q, r := (-depth) / target, (-depth) % target;
      assert Rem(depth, target) == depth + q * target == -r;
    }
  }

  lemma WrapAddsUp(x: int)
    ensures Wrap32(Wrap32(x) + 1) == Wrap32(x + 1)
  {
  }

  /** Quotient and remainder are unique. */
  lemma Divides(a: int, b: int, q: int, r: int)
    requires b > 0 && a == q * b + r && 0 <= r < b
    ensures a / b == q
  {
    Apart(q - a / b, b);
    Apart(a / b - q, b);
    Distributes(q, a / b, b);
  }

  lemma Distributes(x: int, y: int, b: int)
    ensures (x - y) * b == x * b - y * b && (y - x) * b == y * b - x * b
  {
  }

  lemma Apart(d: int, b: int)
    requires b > 0
    ensures d > 0 ==> d * b >= b
  {
  }

  /** What Ceil means: it covers the depth, and one fewer does not. */
  lemma CeilCovers(depth: int, target: int)
    requires target > 0
    ensures (Ceil(depth, target) - 1) * target < depth <= Ceil(depth, target) * target
  {
    var q, r := (-depth) / target, (-depth) % target;
    assert -depth == q * target + r;
    assert (-q - 1) * target == -(q * target) - target;
    assert (-q) * target == -(q * target);
  }

  lemma CeilAtMost(depth: int, target: int, bound: int)
    requires target > 0
    ensures Ceil(depth, target) <= bound <==> depth <= bound * target
  {
    var c := Ceil(depth, target);
    CeilCovers(depth, target);
    if c <= bound {
      assert c * target <= bound * target;
    } else {
      assert bound * target <= (c - 1) * target;
    }
  }

  /** Depths whose worker count fits an int32. */
  predicate InRange(depth: int, target: int) {
    MIN32 * target - target < depth <= MAX32 * target
  }

  lemma InRangeMeansNoWrap32(depth: int, target: int)
    requires target > 0
    ensures InRange(depth, target) <==> Wrap32(Ceil(depth, target)) == Ceil(depth, target)
  {
    CeilAtMost(depth, target, MAX32);
    CeilAtMost(depth, target, MIN32 - 1);
  }

  /** In range the code means what it says: at least -2^31 * target is more than enough below. */
  lemma NoWrapMeansClampedCeiling(depth: int, targetPerWorker: int, min: int32, max: int32)
    requires MIN32 * Target(targetPerWorker) <= depth <= MAX32 * Target(targetPerWorker)
    ensures Desired(depth, targetPerWorker, min, max) == Clamp(Ceil(depth, Target(targetPerWorker)), min, max)
  {
    InRangeMeansNoWrap32(depth, Target(targetPerWorker));
  }

  /**
   The upper bound is sharp: one job more wraps to the smallest int32 and the answer falls from the
   largest allowed count to the smallest.
   */
  lemma OneMoreJobWraps(targetPerWorker: int, min: int32, max: int32)
    requires min < max
    ensures var t := Target(targetPerWorker);
      && Desired(MAX32 * t, targetPerWorker, min, max) == max
      && Desired(MAX32 * t + 1, targetPerWorker, min, max) == min
      && Clamp(Ceil(MAX32 * t + 1, t), min, max) == max
  {
    var t := Target(targetPerWorker);
    CeilAtMost(MAX32 * t, t, MAX32);
    CeilAtMost(MAX32 * t, t, MAX32 - 1);
    CeilAtMost(MAX32 * t + 1, t, MAX32);
    CeilAtMost(MAX32 * t + 1, t, MAX32 + 1);
    assert (MAX32 + 1) * t == MAX32 * t + t;
    assert (MAX32 - 1) * t == MAX32 * t - t;
  }

  /** Beyond the range the code is right exactly when the wrapped count lands beyond the same bound. */
  lemma WhenTheCodeIsRight(depth: int, targetPerWorker: int, min: int32, max: int32)
    ensures var t := Target(targetPerWorker);
      var c := Ceil(depth, t);
      var wrapsOntoBound := (MAX32 * t < depth && max <= Wrap32(c)) || (depth <= MIN32 * t - t && Wrap32(c) <= min);
      Desired(depth, targetPerWorker, min, max) == Clamp(c, min, max) <==> InRange(depth, t) || max <= min || wrapsOntoBound
  {
    var t := Target(targetPerWorker);
    InRangeMeansNoWrap32(depth, t);
    CeilAtMost(depth, t, MAX32);
    CeilAtMost(depth, t, MIN32 - 1);
    assert (MIN32 - 1) * t == MIN32 * t - t;
    hide Wrap32, Ceil;
  }

  lemma CeilGrows(depth: int, depth': int, target: int)
    requires target > 0 && depth <= depth'
    ensures Ceil(depth, target) <= Ceil(depth', target)
  {
    CeilCovers(depth', target);
    CeilAtMost(depth, target, Ceil(depth', target));
  }

  /** More jobs never mean fewer workers. */
  lemma MonotoneInDepth(depth: int, depth': int, targetPerWorker: int, min: int32, max: int32)
    requires depth <= depth' && InRange(depth, Target(targetPerWorker)) && InRange(depth', Target(targetPerWorker))
    ensures Desired(depth, targetPerWorker, min, max) <= Desired(depth', targetPerWorker, min, max)
  {
    hide Wrap32, Ceil;
    InRangeMeansNoWrap32(depth, Target(targetPerWorker));
    InRangeMeansNoWrap32(depth', Target(targetPerWorker));
    CeilGrows(depth, depth', Target(targetPerWorker));
  }

  /** The answer covers the depth unless the maximum caps it, and one fewer would not unless the minimum lifts it. */
  lemma LeastCovering(depth: int, targetPerWorker: int, min: int32, max: int32)
    requires InRange(depth, Target(targetPerWorker)) && min <= max
    ensures var t, r := Target(targetPerWorker), Desired(depth, targetPerWorker, min, max);
      && (r < max ==> depth <= r * t)
      && (min < r ==> forall n :: n < r ==> n * t < depth)
  {
    hide Wrap32, Ceil;
    var t, r := Target(targetPerWorker), Desired(depth, targetPerWorker, min, max);
    InRangeMeansNoWrap32(depth, t);
    CeilAtMost(depth, t, r);
    if min < r {
      forall n | n < r ensures n * t < depth {
        CeilAtMost(depth, t, n);
      }
    }
  }

  lemma CeilShrinks(depth: int, target: int, target': int)
    requires 0 < target <= target' && 0 <= depth
    ensures 0 <= Ceil(depth, target') <= Ceil(depth, target)
  {
    hide Ceil;
    var c := Ceil(depth, target);
    CeilCovers(depth, target);
    CeilAtMost(depth, target, -1);
    CeilAtMost(depth, target', -1);
    Scaled(c, target, target');
    CeilAtMost(depth, target', c);
  }

  lemma Scaled(c: int, t: int, t': int)
    requires t <= t'
    ensures 0 <= c ==> c * t <= c * t'
    ensures 0 <= t ==> -1 * t <= 0
  {
  }

  lemma CeilOfNegative(depth: int, target: int)
    requires 0 < target && depth < 0
    ensures depth <= Ceil(depth, target) <= 0
  {
    hide Ceil;
    CeilAtMost(depth, target, 0);
    CeilAtMost(depth, target, depth - 1);
    assert (depth - 1) * target <= depth - 1 by { Scaled(1 - depth, 1, target); }
  }

  /** The least target that keeps a negative depth in range. */
  function LeastTarget(depth: int): (t: int)
    ensures depth < 0 ==> 0 < t
  {
    (-depth) / 0x8000_0001 + 1
  }

  lemma LeastTargetIsLeast(depth: int, target: int)
    requires 0 < target && depth < 0
    ensures InRange(depth, target) <==> LeastTarget(depth) <= target
  {
    var t0 := LeastTarget(depth);
    assert MIN32 * target - target == -0x8000_0001 * target;
  }

  /** Even the least target leaves a negative depth a negative count. */
  lemma LeastTargetCounts(depth: int)
    requires depth < 0
    ensures Ceil(depth, LeastTarget(depth)) < 0
  {
    LeastTargetIsLeast(depth, 1);
    CeilAtMost(depth, LeastTarget(depth), -1);
  }

  lemma RangeGrows(depth: int, target: int, target': int)
    requires 0 < target <= target' && InRange(depth, target)
    ensures InRange(depth, target')
  {
    Scaled(MAX32, target, target');
    Scaled(0x8000_0001, target, target');
  }

  /** A larger target brings a negative count up. */
  lemma CeilRises(depth: int, target: int, target': int)
    requires 0 < target <= target' && depth < 0
    ensures Ceil(depth, target) <= Ceil(depth, target') <= 0
  {
    hide Ceil;
    var c := Ceil(depth, target');
    CeilCovers(depth, target');
    CeilOfNegative(depth, target');
    Scaled(-c, target, target');
    CeilAtMost(depth, target, c);
  }

  ghost predicate Antitone(depth: int, min: int32, max: int32) {
    forall t, t' | 0 < t <= t' && InRange(depth, t) :: Desired(depth, t', min, max) <= Desired(depth, t, min, max)
  }

  /**
   A larger target never means more workers, for all targets that keep the depth in range at once,
   exactly when the depth is not negative or the clamp hides that it is: the minimum is not negative,
   or one answer is forced, or even the lowest count, that of the least target, is above the maximum.
   */
  lemma AntitoneInTarget(depth: int, min: int32, max: int32)
    ensures Antitone(depth, min, max)
      <==> 0 <= depth || 0 <= min || max <= min || max <= Ceil(depth, LeastTarget(depth))
  {
    hide Wrap32, Ceil, InRange, LeastTarget;
    if 0 <= depth || 0 <= min || max <= min || max <= Ceil(depth, LeastTarget(depth)) {
      forall t, t' | 0 < t <= t' && InRange(depth, t) ensures Desired(depth, t', min, max) <= Desired(depth, t, min, max) {
        InRangeMeansNoWrap32(depth, t);
        RangeGrows(depth, t, t');
        InRangeMeansNoWrap32(depth, t');
        if 0 <= depth {
          CeilShrinks(depth, t, t');
        } else {
          LeastTargetIsLeast(depth, t);
          CeilRises(depth, LeastTarget(depth), t);
          CeilRises(depth, t, t');
        }
      }
    } else {
      RisingTargetRaises(depth, min, max);
    }
  }

  /** The failing targets: the least one in range, and one that is larger than the backlog is negative. */
  lemma RisingTargetRaises(depth: int, min: int32, max: int32)
    requires depth < 0 && min < 0 && min < max && Ceil(depth, LeastTarget(depth)) < max
    ensures 0 < LeastTarget(depth) <= 1 - depth && InRange(depth, LeastTarget(depth))
    ensures Desired(depth, LeastTarget(depth), min, max) < Desired(depth, 1 - depth, min, max)
  {
    var t0 := LeastTarget(depth);
    hide Wrap32, Ceil, InRange;
    LeastTargetIsLeast(depth, t0);
    LeastTargetCounts(depth);
    RangeGrows(depth, t0, 1 - depth);
    InRangeMeansNoWrap32(depth, t0);
    InRangeMeansNoWrap32(depth, 1 - depth);
    CeilOfNegative(depth, 1 - depth);
    CeilAtMost(depth, 1 - depth, -1);
  }
}
