/** The delay between reconnect attempts, in 64-bit arithmetic as the code computes it. */
module Backoff {

  const TWO62 := 0x4000_0000_0000_0000
  const TWO63 := 0x8000_0000_0000_0000
  const TWO64 := 0x1_0000_0000_0000_0000

  predicate IsInt64(x: int) {
    -TWO63 <= x < TWO63
  }

  /** The 64-bit two's complement value of x. */
  function Wrap64(x: int): (r: int)
    ensures IsInt64(r) && (IsInt64(x) ==> r == x)
  {
    var m := x % TWO64;
    if m < TWO63 then m else m - TWO64
  }

  function Pow2(n: nat): (r: nat)
    ensures r >= 1
  {
    if n == 0 then 1 else 2 * Pow2(n - 1)
  }

  function Min(a: int, b: int): int {
    if a <= b then a else b
  }

  /** What the documentation promises: the sequence doubles from initial up to max. */
  function Delay(attempt: nat, initial: int, max: int): int
    requires attempt >= 1
  {
    Min(max, initial * Pow2(attempt - 1))
  }

  /** The code's loop from value d with `steps` iterations left, wrap-around included. */
  function Doubled(d: int, steps: nat, max: int): int
    decreases steps
  {
    if steps == 0 then (if d > max then max else d)
    else
      var d2 := Wrap64(2 * d);
      if d2 >= max then max else Doubled(d2, steps - 1, max)
  }

  method ReconnectBackoff(attempt: int, initial: int, max: int) returns (d: int)
    requires IsInt64(attempt) && IsInt64(initial) && IsInt64(max)
    ensures d == Doubled(initial, if attempt < 1 then 0 else attempt - 1, max)
    ensures IsInt64(d) && d <= max
    ensures 0 < initial && 0 < max && SafePolicy(initial, max) ==> d == Delay(if attempt < 1 then 1 else attempt, initial, max)
  {
    var n := if attempt < 1 then 1 else attempt;
    if 0 < initial && 0 < max && SafePolicy(initial, max) {
      SafeDoubles(initial, n - 1, max);
    }
    d := initial;
    var i := 1;
    while i < n
      invariant 1 <= i <= n && IsInt64(d)
      invariant Doubled(d, n - i, max) == Doubled(initial, n - 1, max)
    {
      d := Wrap64(d * 2);
      i := i + 1;
      if d >= max {
        return max;
      }
    }
    if d > max {
      return max;
    }
  }

  /** The first doubling of d that reaches max. */
  function Peak(d: int, max: int): (r: int)
    requires d > 0
    ensures r >= 2 * d && r >= max
    decreases max - d
  {
    if 2 * d >= max then 2 * d else Peak(2 * d, max)
  }

  function PeakSteps(d: int, max: int): nat
    requires d > 0
    decreases max - d
  {
    if 2 * d >= max then 1 else 1 + PeakSteps(2 * d, max)
  }

  /** Doubling reaches max before it leaves the 64-bit range. */
  predicate SafePolicy(initial: int, max: int)
    requires initial > 0
  {
    Peak(initial, max) < TWO63
  }

  lemma {:induction false} PeakBelowDouble(d: int, max: int)
    requires 0 < d < max
    ensures Peak(d, max) < 2 * max
    decreases max - d
  {
    if 2 * d < max {
      PeakBelowDouble(2 * d, max);
    }
  }

  lemma SmallIsSafe(initial: int, max: int)
    requires 0 < initial < TWO62 && 0 < max <= TWO62
    ensures SafePolicy(initial, max)
  {
    if initial < max {
      PeakBelowDouble(initial, max);
    }
  }

  lemma {:induction false} PowMonotone(a: nat, b: nat)
    requires a <= b
    ensures Pow2(a) <= Pow2(b)
    decreases b
  {
    if a < b {
      PowMonotone(a, b - 1);
    }
  }

  lemma PowSplit(d: int, steps: nat)
    requires d > 0 && steps > 0
    ensures d * Pow2(steps) == (2 * d) * Pow2(steps - 1) >= 2 * d
  {
    assert d * (2 * Pow2(steps - 1)) == (2 * d) * Pow2(steps - 1);
    assert (2 * d) * Pow2(steps - 1) >= (2 * d) * 1 by {
      MulAtLeast(2 * d, Pow2(steps - 1));
    }
  }

  lemma MulAtLeast(a: int, b: int)
    requires a >= 0 && b >= 1
    ensures a * b >= a
  {
    assert a * b == a * (b - 1) + a;
    assert a * (b - 1) >= 0;
  }

  lemma {:induction false} SafeDoubles(d: int, steps: nat, max: int)
    requires 0 < d < TWO63 && max > 0 && Peak(d, max) < TWO63
    ensures Doubled(d, steps, max) == Min(max, d * Pow2(steps))
    decreases steps
  {
    if steps > 0 {
      PowSplit(d, steps);
      if 2 * d < max {
        SafeDoubles(2 * d, steps - 1, max);
      }
    }
  }

  lemma {:induction false} UnsafeWraps(d: int, max: int)
    requires 0 < d < TWO63 && 0 < max < TWO63 && Peak(d, max) >= TWO63
    ensures Doubled(d, PeakSteps(d, max), max) < 0
    decreases max - d
  {
    if 2 * d < max {
      UnsafeWraps(2 * d, max);
    } else {
      assert (2 * d) % TWO64 == 2 * d;
      assert Doubled(d, 1, max) == Doubled(Wrap64(2 * d), 0, max);
    }
  }

  lemma WrapDoubles(x: int)
    ensures Wrap64(2 * Wrap64(x)) == Wrap64(2 * x)
  {
    var k := if Wrap64(x) == x % TWO64 then x / TWO64 else x / TWO64 + 1;
    assert x == Wrap64(x) + TWO64 * k;
    SameRemainder(2 * Wrap64(x), 2 * x, 2 * k);
  }

  lemma SameRemainder(a: int, b: int, k: int)
    requires b == a + TWO64 * k
    ensures a % TWO64 == b % TWO64
  {
    var q, r := a / TWO64, a % TWO64;
    assert b == TWO64 * (q + k) + r;
  }

  /** Wrap-around can only shorten a delay: no setting makes it longer than documented. */
  lemma {:induction false} NeverAboveDelay(x: int, steps: nat, max: int)
    requires x > 0 && max > 0
    ensures Doubled(Wrap64(x), steps, max) <= Min(max, x * Pow2(steps))
    decreases steps
  {
    if steps > 0 {
      WrapDoubles(x);
      PowSplit(x, steps);
      if Wrap64(2 * x) < max {
        NeverAboveDelay(2 * x, steps - 1, max);
      }
    }
  }

  /** For positive settings, every attempt gets the promised delay if and only if doubling reaches max without overflow. */
  lemma BackoffCorrectExactly(initial: int, max: int)
    requires 0 < initial < TWO63 && 0 < max < TWO63
    ensures SafePolicy(initial, max)
       <==> forall attempt: nat :: attempt >= 1 ==> Doubled(initial, attempt - 1, max) == Delay(attempt, initial, max)
  {
    if SafePolicy(initial, max) {
      forall attempt: nat | attempt >= 1
        ensures Doubled(initial, attempt - 1, max) == Delay(attempt, initial, max)
      {
        SafeDoubles(initial, attempt - 1, max);
      }
    } else {
      UnsafeWraps(initial, max);
      var attempt := PeakSteps(initial, max) + 1;
      MulAtLeast(initial, Pow2(attempt - 1));
      assert Doubled(initial, attempt - 1, max) != Delay(attempt, initial, max);
    }
  }

  /** An initial delay of 2^62 ns (some 146 years) wraps at the second attempt. */
  lemma OverflowExample()
    ensures Doubled(TWO62, 1, TWO63 - 1) == -TWO63
  {
    assert Wrap64(2 * TWO62) == -TWO63;
    assert Doubled(TWO62, 1, TWO63 - 1) == Doubled(-TWO63, 0, TWO63 - 1);
  }

  lemma DelayMonotone(a: nat, b: nat, initial: int, max: int)
    requires 1 <= a <= b && initial > 0
    ensures Delay(a, initial, max) <= Delay(b, initial, max)
  {
    PowMonotone(a - 1, b - 1);
    assert initial * Pow2(a - 1) <= initial * Pow2(b - 1);
  }
}
