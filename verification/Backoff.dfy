/** Exponential backoff with jitter, over the reals. */
module Backoff {

  function Min(a: real, b: real): real {
    if b < a then b else a
  }

  function Max(a: real, b: real): real {
    if b > a then b else a
  }

  function Pow2(n: nat): real {
    if n == 0 then 1.0 else 2.0 * Pow2(n - 1)
  }

  /** `initial` doubled `n` times. */
  function Doubled(initial: real, n: nat): real {
    if n == 0 then initial else 2.0 * Doubled(initial, n - 1)
  }

  /** The delay before jitter after `n` delays since the last reset. */
  function Level(initial: real, maximum: real, n: nat): real {
    Min(maximum, Doubled(initial, n))
  }

  lemma {:induction false} DoubledIsPower(initial: real, n: nat)
    ensures Doubled(initial, n) == initial * Pow2(n)
  {
    if n > 0 {
      DoubledIsPower(initial, n - 1);
      TwiceProduct(initial, Pow2(n - 1));
    }
  }

  lemma TwiceProduct(x: real, y: real)
    ensures x * (2.0 * y) == 2.0 * (x * y)
  {
  }

  lemma {:induction false} DoubledGrows(initial: real, n: nat, m: nat)
    requires initial > 0.0 && n <= m
    ensures initial <= Doubled(initial, n) <= Doubled(initial, m)
  {
    if n < m {
      DoubledGrows(initial, n, m - 1);
    } else if n > 0 {
      DoubledGrows(initial, n - 1, n - 1);
    }
  }

  /** The closed form: cutting every doubled delay off at the maximum is the same as cutting off the
      power, so saturation is permanent: once a delay has reached the maximum all later ones are
      the maximum, and it does so exactly when the power reaches it. */
  lemma ClosedForm(initial: real, maximum: real, n: nat, m: nat)
    requires 0.0 < initial <= maximum && n <= m
    ensures Level(initial, maximum, n) == Min(maximum, initial * Pow2(n))
    ensures Level(initial, maximum, n + 1) == Min(maximum, Level(initial, maximum, n) * 2.0)
    ensures Level(initial, maximum, n) == maximum <==> initial * Pow2(n) >= maximum
    ensures Level(initial, maximum, n) == maximum ==> Level(initial, maximum, m) == maximum
    ensures initial <= Level(initial, maximum, n) <= Level(initial, maximum, m) <= maximum
  {
    DoubledIsPower(initial, n);
    DoubledGrows(initial, n, m);
  }

  // ---------------------------------------------------------------------------------------
  // Jitter
  // ---------------------------------------------------------------------------------------

  /** A delay with a jitter `u` between -1 and 1. */
  function Jittered(d: real, ratio: real, u: real): real {
    var jitter := d * ratio;
    Max(0.1, d + jitter * u)
  }

  ghost predicate InRange(delay: real, d: real, ratio: real) {
    Max(0.1, d * (1.0 - ratio)) <= delay <= d * (1.0 + ratio)
  }

  /** The range of a jittered delay, whose ends are reached at the ends of the jitter. */
  lemma JitterRange(d: real, ratio: real, u: real)
    requires d >= 0.1 && ratio >= 0.0 && -1.0 <= u <= 1.0
    ensures InRange(Jittered(d, ratio, u), d, ratio)
    ensures Jittered(d, ratio, -1.0) == Max(0.1, d * (1.0 - ratio)) && Jittered(d, ratio, 1.0) == d * (1.0 + ratio)
  {
    var j := d * ratio;
    ProductIsNatural(d, ratio);
    ProductIsNatural(j, 1.0 + u);
    ProductIsNatural(j, 1.0 - u);
    assert d * (1.0 - ratio) == d - j && d * (1.0 + ratio) == d + j;
    assert j * (1.0 + u) == j + j * u && j * (1.0 - u) == j - j * u;
  }

  lemma ProductIsNatural(x: real, y: real)
    requires x >= 0.0 && y >= 0.0
    ensures x * y >= 0.0
  {
  }

  class RuntimeBackoff {
    const initial: real
    const maximum: real
    const jitterRatio: real
    var current: real
    /** The delays given since the last reset. */
    ghost var calls: nat

    ghost predicate Valid()
      reads this
    {
      && 0.1 <= initial <= maximum && jitterRatio >= 0.0
      && current == Level(initial, maximum, calls)
    }

    constructor (initial: real, maximum: real, jitterRatio: real)
      ensures Valid() && calls == 0
      ensures this.initial == Max(0.1, initial) && this.maximum == Max(this.initial, maximum)
      ensures this.jitterRatio == Max(0.0, jitterRatio)
      ensures this.initial >= 0.1 && (initial >= 0.1 ==> this.initial == initial)
      ensures this.maximum >= this.initial && (maximum >= this.initial ==> this.maximum == maximum)
      ensures jitterRatio >= 0.0 ==> this.jitterRatio == jitterRatio
    {
      this.initial := Max(0.1, initial);
      this.maximum := Max(Max(0.1, initial), maximum);
      this.jitterRatio := Max(0.0, jitterRatio);
      this.current := Max(0.1, initial);
      this.calls := 0;
    }

    method Reset()
      requires Valid()
      modifies this`current, this`calls
      ensures Valid() && calls == 0
    {
      current := initial;
      calls := 0;
    }

    /** `next_delay`; `u` is the random draw. The n-th delay since a reset is the n-th level with its
        jitter. */
    method NextDelay(u: real) returns (delay: real)
      requires Valid() && -1.0 <= u <= 1.0
      modifies this`current, this`calls
      ensures Valid() && calls == old(calls) + 1
      ensures delay == if jitterRatio == 0.0 then Level(initial, maximum, old(calls))
                       else Jittered(Level(initial, maximum, old(calls)), jitterRatio, u)
      ensures delay >= 0.1
    {
      delay := current;
      ClosedForm(initial, maximum, calls, calls);
      current := Min(maximum, current * 2.0);
      calls := calls + 1;
      if jitterRatio <= 0.0 {
        return;
      }
      var jitter := delay * jitterRatio;
      delay := Max(0.1, delay + jitter * u);
    }
  }

  /** Every delay lies in the jitter's range around min(maximum, initial * 2^n). */
  lemma DelayInRange(initial: real, maximum: real, ratio: real, n: nat, u: real)
    requires 0.1 <= initial <= maximum && ratio >= 0.0 && -1.0 <= u <= 1.0
    ensures var d := Level(initial, maximum, n);
            && d == Min(maximum, initial * Pow2(n))
            && InRange(Jittered(d, ratio, u), d, ratio) && Jittered(d, ratio, u) >= 0.1
            && InRange(d, d, 0.0) && d >= 0.1
  {
    ClosedForm(initial, maximum, n, n);
    JitterRange(Level(initial, maximum, n), ratio, u);
    JitterRange(Level(initial, maximum, n), 0.0, u);
  }
}
