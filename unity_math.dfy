/** The scalar helpers of Unity's `Mathf` that the kart code calls, over reals.
    Each follows Unity's own definition, including the corner cases the kart
    relies on (`Sign(0) == 1`, `MoveTowards` snapping to the target). The
    properties live in lemmas, so that using a helper costs the verifier only
    its definition. */
module UnityMath {

  /** Mathf.Abs */
  function Abs(x: real): real
  {
    if x < 0.0 then -x else x
  }

  /** Mathf.Sign: +1 for zero and positive values, -1 otherwise. */
  function Sign(x: real): real
  {
    if x >= 0.0 then 1.0 else -1.0
  }

  /** Mathf.Max for two values. */
  function Max(a: real, b: real): real
  {
    if a > b then a else b
  }

  /** Mathf.Clamp: the lower bound is tested first. */
  function Clamp(value: real, min: real, max: real): real
  {
    if value < min then min
    else if value > max then max
    else value
  }

  /** Mathf.Clamp01 */
  function Clamp01(value: real): real
  {
    if value < 0.0 then 0.0
    else if value > 1.0 then 1.0
    else value
  }

  /** `r` lies on the closed segment between `a` and `b`. */
  predicate Between(r: real, a: real, b: real)
  {
    (a <= r <= b) || (b <= r <= a)
  }

  /** Mathf.MoveTowards: the target itself when it is within `maxDelta`,
      otherwise one step of exactly `maxDelta` towards it (Unity adds
      `Sign(target - current) * maxDelta`, written here as a case split). */
  function MoveTowards(current: real, target: real, maxDelta: real): real
  {
    if Abs(target - current) <= maxDelta then target
    else if target - current >= 0.0 then current + maxDelta
    else current - maxDelta
  }

  /** Sign(0) is +1, and the sign times the value is its magnitude. */
  lemma SignFacts(x: real)
    ensures Sign(x) == 1.0 <==> 0.0 <= x
    ensures Sign(x) == 1.0 || Sign(x) == -1.0
    ensures Sign(x) * x == Abs(x) && 0.0 <= Abs(x)
    ensures Sign(0.0) == 1.0
  {
  }

  /** Clamp lands inside a non-empty interval and leaves values inside it alone. */
  lemma ClampFacts(value: real, min: real, max: real)
    requires min <= max
    ensures min <= Clamp(value, min, max) <= max
    ensures min <= value <= max ==> Clamp(value, min, max) == value
    ensures Clamp(Clamp(value, min, max), min, max) == Clamp(value, min, max)
  {
  }

  /** Clamp01 lands in [0, 1] and leaves values in [0, 1] alone. */
  lemma Clamp01Facts(value: real)
    ensures 0.0 <= Clamp01(value) <= 1.0
    ensures 0.0 <= value <= 1.0 ==> Clamp01(value) == value
    ensures Clamp01(value) == Clamp(value, 0.0, 1.0)
  {
  }

  /** With a non-negative step, MoveTowards moves by at most the step, never
      past the target, and reaches the target when it is within the step;
      otherwise it moves by the whole step. */
  lemma MoveTowardsFacts(current: real, target: real, maxDelta: real)
    requires 0.0 <= maxDelta
    ensures Abs(MoveTowards(current, target, maxDelta) - current) <= maxDelta
    ensures Between(MoveTowards(current, target, maxDelta), current, target)
    ensures Abs(target - current) <= maxDelta <==> MoveTowards(current, target, maxDelta) == target
    ensures Abs(target - current) > maxDelta ==> Abs(MoveTowards(current, target, maxDelta) - current) == maxDelta
  {
  }

  /** Moving towards a target never leaves an interval that holds both the
      start and the target. */
  lemma MoveTowardsStaysInside(current: real, target: real, maxDelta: real, lo: real, hi: real)
    requires 0.0 <= maxDelta
    requires lo <= current <= hi && lo <= target <= hi
    ensures lo <= MoveTowards(current, target, maxDelta) <= hi
  {
    MoveTowardsFacts(current, target, maxDelta);
  }
}
