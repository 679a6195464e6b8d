/** Restart delays, with the multiplier and its powers taken over the reals. */
module Restart {
  import opened Basics

  function Power(base: real, exponent: nat): real {
    if exponent == 0 then 1.0 else base * Power(base, exponent - 1)
  }

  function MinReal(x: real, y: real): real {
    if x <= y then x else y
  }

  /** Conversion of a real to an unsigned integer: toward zero, negatives to zero. */
  function Truncate(x: real): nat {
    if x < 0.0 then 0 else x.Floor
  }

  function Backoff(initialMs: nat, maxMs: nat, factor: real): nat {
    Truncate(MinReal(initialMs as real * factor, maxMs as real))
  }

  datatype RestartDelay =
    | Never
    | Constant(delayMs: nat)
    | ExponentialBackoff(initialDelayMs: nat, maxDelayMs: nat, multiplier: real)
  {
    predicate IsNever() {
      Never?
    }

    /** Milliseconds to wait before a restart, the first of a streak being attempt 1. */
    function DelayFor(attempt: nat): nat {
      match this
      case Never => 0
      case Constant(delayMs) => delayMs
      case ExponentialBackoff(initialDelayMs, maxDelayMs, multiplier) =>
        Backoff(initialDelayMs, maxDelayMs, Power(multiplier, Max(attempt - 1, 0)))
    }

    /** Whether delays never shrink as failures pile up. */
    predicate Backs() {
      ExponentialBackoff? ==> multiplier >= 1.0
    }

    /** The largest delay the strategy may choose. */
    function Cap(): nat {
      match this
      case Never => 0
      case Constant(delayMs) => delayMs
      case ExponentialBackoff(_, maxDelayMs, _) => maxDelayMs
    }
  }

  datatype RestartPolicy = RestartPolicy(
    onSuccess: RestartDelay,
    onError: RestartDelay,
    resetAfterMs: nat,
    maxRestartAttempts: Option<nat>)

  lemma ScaleMonotone(a: real, x: real, y: real)
    requires a >= 0.0 && x <= y
    ensures a * x <= a * y
  {
  }

  lemma BackoffMonotone(initialMs: nat, maxMs: nat, e: real, f: real)
    requires e <= f
    ensures Backoff(initialMs, maxMs, e) <= Backoff(initialMs, maxMs, f) <= maxMs
  {
    ScaleMonotone(initialMs as real, e, f);
  }

  lemma {:induction false} PowerGrows(base: real, e: nat, f: nat)
    requires base >= 1.0 && e <= f
    ensures 1.0 <= Power(base, e) <= Power(base, f)
    decreases f
  {
    if e < f {
      PowerGrows(base, e, f - 1);
      var p := Power(base, f - 1);
      ScaleMonotone(p, 1.0, base);
      assert base * p == p * base;
    } else if e > 0 {
      PowerGrows(base, 0, e - 1);
      var p := Power(base, e - 1);
      ScaleMonotone(p, 1.0, base);
      assert base * p == p * base;
    }
  }

  /** The delay before an attempt without the cap: the initial one, multiplied once for each further
      attempt. */
  function Uncapped(initialMs: nat, multiplier: real, attempt: nat): real
    requires attempt >= 1
  {
    if attempt == 1 then initialMs as real else Uncapped(initialMs, multiplier, attempt - 1) * multiplier
  }

  lemma {:induction false} UncappedIs(initialMs: nat, multiplier: real, attempt: nat)
    requires attempt >= 1
    ensures Uncapped(initialMs, multiplier, attempt) == initialMs as real * Power(multiplier, attempt - 1)
  {
    if attempt > 1 {
      UncappedIs(initialMs, multiplier, attempt - 1);
      var i, p := initialMs as real, Power(multiplier, attempt - 2);
      assert (i * p) * multiplier == i * (multiplier * p);
    }
  }

  lemma BackoffOf(initialMs: nat, maxMs: nat, factor: real, uncapped: real)
    requires uncapped == initialMs as real * factor
    ensures Backoff(initialMs, maxMs, factor) == Truncate(MinReal(uncapped, maxMs as real))
  {
  }

  /** A backoff waits the initial delay first and multiplies it with each further attempt, up to the
      cap and in whole milliseconds. */
  lemma BackoffMultiplies(initialMs: nat, maxMs: nat, multiplier: real, attempt: nat)
    requires attempt >= 1
    ensures ExponentialBackoff(initialMs, maxMs, multiplier).DelayFor(attempt)
            == Truncate(MinReal(Uncapped(initialMs, multiplier, attempt), maxMs as real))
  {
    hide Power, Uncapped, Truncate, MinReal, Backoff;
    UncappedIs(initialMs, multiplier, attempt);
    BackoffOf(initialMs, maxMs, Power(multiplier, attempt - 1), Uncapped(initialMs, multiplier, attempt));
  }

  lemma {:induction false} UncappedAt(initialMs: nat, multiplier: real, delays: seq<real>, attempt: nat)
    requires 1 <= attempt <= |delays| && delays[0] == initialMs as real
    requires forall k :: 0 <= k < |delays| - 1 ==> delays[k + 1] == delays[k] * multiplier
    ensures Uncapped(initialMs, multiplier, attempt) == delays[attempt - 1]
  {
    if attempt > 1 {
      UncappedAt(initialMs, multiplier, delays, attempt - 1);
      assert delays[attempt - 2 + 1] == delays[attempt - 2] * multiplier;
    }
  }

  lemma CappedInNumbers(uncapped: real, maxMs: nat)
    ensures var d := Truncate(MinReal(uncapped, maxMs as real));
            && d <= maxMs && (d as real <= uncapped || d == 0) && (uncapped < (d + 1) as real || d == maxMs)
  {
  }

  /** A backoff in numbers: the initial delay, multiplied once for each attempt but the first, the largest
      number of whole milliseconds that is not above that and the cap, and none if that is negative. */
  lemma BackoffInNumbers(d: RestartDelay, attempt: nat, delays: seq<real>)
    requires d.ExponentialBackoff? && 1 <= attempt == |delays| && delays[0] == d.initialDelayMs as real
    requires forall k :: 0 <= k < |delays| - 1 ==> delays[k + 1] == delays[k] * d.multiplier
    ensures var delay := d.DelayFor(attempt);
            && delay <= d.maxDelayMs && (delay as real <= delays[attempt - 1] || delay == 0)
            && (delays[attempt - 1] < (delay + 1) as real || delay == d.maxDelayMs)
  {
    hide Uncapped, Truncate, MinReal, Backoff, RestartDelay.DelayFor;
    BackoffMultiplies(d.initialDelayMs, d.maxDelayMs, d.multiplier, attempt);
    UncappedAt(d.initialDelayMs, d.multiplier, delays, attempt);
    CappedInNumbers(delays[attempt - 1], d.maxDelayMs);
  }

  lemma ConstantInNumbers(d: RestartDelay, attempt: nat)
    ensures d.Constant? ==> d.DelayFor(attempt) == d.delayMs
  {
  }

  /** No strategy ever chooses a delay above its cap. */
  lemma DelayCapped(d: RestartDelay, attempt: nat)
    ensures d.DelayFor(attempt) <= d.Cap()
  {
    if d.ExponentialBackoff? {
      var factor := Power(d.multiplier, Max(attempt - 1, 0));
      BackoffMonotone(d.initialDelayMs, d.maxDelayMs, factor, factor);
    }
  }

  /** With a multiplier of at least one, a later attempt never waits less, so a delay that has
      reached the cap stays there. */
  lemma DelayGrows(d: RestartDelay, earlier: nat, later: nat)
    requires d.Backs() && earlier <= later
    ensures d.DelayFor(earlier) <= d.DelayFor(later) <= d.Cap()
    ensures d.DelayFor(earlier) == d.Cap() ==> d.DelayFor(later) == d.Cap()
  {
    if d.ExponentialBackoff? {
      var e, f := Max(earlier - 1, 0), Max(later - 1, 0);
      PowerGrows(d.multiplier, e, f);
      BackoffMonotone(d.initialDelayMs, d.maxDelayMs, Power(d.multiplier, e), Power(d.multiplier, f));
    }
  }
}
