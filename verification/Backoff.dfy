/** The delay before a failed delivery is tried again, computed with a shift that wraps
    around (internal/messagepump/pump.go, with the constants of engine.go). */
module Backoff {
  import opened Stream

  const TWO_63 := 0x8000_0000_0000_0000      // one more than the largest int64
  const TWO_64 := 0x1_0000_0000_0000_0000

  const ENGINE_BASE := 10_000_000         // 10 ms
  const ENGINE_CAP := 300_000_000_000     // 5 min

  function Pow2(n: nat): (p: nat)
    ensures p > 0 && (n > 0 ==> p >= 2)
  {
    if n == 0 then 1 else 2 * Pow2(n - 1)
  }

  /** x + x on int64. */
  function Twice(x: int): (y: int)
    requires -TWO_63 <= x < TWO_63
    ensures -TWO_63 <= y < TWO_63
  {
    if x + x >= TWO_63 then x + x - TWO_64 else if x + x < -TWO_63 then x + x + TWO_64 else x + x
  }

  /** base << n on int64, which drops the bits that are shifted out. */
  function Shl(base: int, n: nat): (y: int)
    requires -TWO_63 <= base < TWO_63
    ensures -TWO_63 <= y < TWO_63
  {
    if n == 0 then base else Twice(Shl(base, n - 1))
  }

  function Limit(base: int, cap: int, n: nat): int
    requires -TWO_63 <= base < TWO_63
  {
    var limit := Shl(base, n);
    if limit <= 0 || limit > cap then cap else limit
  }

  /** The low 64 - n bits of the base are all that the shift keeps: what it makes of them
      is not above the base. */
  predicate TooLow(base: int, n: nat) {
    n < 64 && 0 < Pow2(n) * (base % Pow2(64 - n)) <= base
  }

  /** What rand.N yields for each argument: any number below it. */
  ghost predicate Draws(rand: int -> int) {
    forall x :: 0 < x ==> 0 <= rand(x) < x
  }

  /** computeBackoff, for a delivery that has failed n times. None is a panic of rand.N,
      which needs a positive argument. */
  method ComputeBackoff(base: int, cap: int, n: nat, rand: int -> int) returns (delay: Option<int>)
    requires -TWO_63 <= base < TWO_63 && -TWO_63 <= cap < TWO_63 && Draws(rand)
    ensures delay.None? <==> 0 < base < cap && TooLow(base, n)
    ensures delay.Some? && 0 < base < cap ==> delay.value == base + rand(Limit(base, cap, n) - base)
    ensures delay.Some? && 0 < base < cap && base * Pow2(n) < TWO_63 ==>
      delay.value == base + rand((if base * Pow2(n) <= cap then base * Pow2(n) else cap) - base)
    ensures delay.Some? ==>
      if 0 < base < cap then base <= delay.value < cap && delay.value < base * Pow2(n) else delay.value == base
  {
    if base <= 0 || cap <= base {
      return Some(base);
    }
    LimitExact(base, cap, n);
    var limit := Shl(base, n);
    if limit <= 0 || limit > cap {
      limit := cap;
    }
    if limit - base <= 0 {
      return None;
    }
    return Some(base + rand(limit - base));
  }

  // ---- Powers of two ----------------------------------------------------------------

  lemma {:induction false} Pow2Byte(n: nat)
    ensures Pow2(n + 8) == 256 * Pow2(n)
  {
    assert Pow2(n + 2) == 4 * Pow2(n);
    assert Pow2(n + 4) == 4 * Pow2(n + 2);
    assert Pow2(n + 6) == 4 * Pow2(n + 4);
    assert Pow2(n + 8) == 4 * Pow2(n + 6);
  }

  lemma {:induction false} Pow2Word()
    ensures Pow2(32) == 0x1_0000_0000
  {
    Pow2Byte(0);
    Pow2Byte(8);
    Pow2Byte(16);
    Pow2Byte(24);
  }

  lemma {:induction false} Pow2Width()
    ensures Pow2(64) == TWO_64
  {
    Pow2Word();
    Pow2Byte(32);
    Pow2Byte(40);
    Pow2Byte(48);
    Pow2Byte(56);
  }

  lemma {:induction false} Pow2Split(n: nat)
    requires n <= 64
    ensures Pow2(n) * Pow2(64 - n) == TWO_64
  {
    if n == 0 {
      Pow2Width();
    } else {
      Pow2Split(n - 1);
      HalfDouble(Pow2(n - 1), Pow2(64 - n));
    }
  }

  lemma {:induction false} HalfDouble(p: int, q: int)
    ensures p * (2 * q) == (2 * p) * q
  {
  }

  /** base * 2^n, one doubling at a time. */
  function Scaled(base: int, n: nat): (r: int)
    ensures 0 < base ==> base <= r && (n > 0 ==> 2 * base <= r)
  {
    if n == 0 then base else 2 * Scaled(base, n - 1)
  }

  lemma {:induction false} ScaledIsProduct(base: int, n: nat)
    ensures Scaled(base, n) == base * Pow2(n)
  {
    if n > 0 {
      ScaledIsProduct(base, n - 1);
      HalfDouble(base, Pow2(n - 1));
    }
  }

  /** As long as nothing is shifted out, the shift is the product. */
  lemma {:induction false} ShlExact(base: int, n: nat)
    requires 0 < base && Scaled(base, n) < TWO_63
    ensures Shl(base, n) == Scaled(base, n)
  {
    if n > 0 {
      ShlExact(base, n - 1);
    }
  }

  lemma {:induction false} Overflows(base: int, n: nat)
    requires 0 < base && n >= 64
    ensures Scaled(base, n) >= TWO_63
  {
    if n == 64 {
      Pow2Width();
      ScaledIsProduct(base, 64);
    } else {
      Overflows(base, n - 1);
    }
  }

  lemma {:induction false} TwiceDrops(x: int, y: int, j: int) returns (m: int)
    requires -TWO_63 <= x < TWO_63 && x == y - j * TWO_64
    ensures Twice(x) == 2 * y - m * TWO_64
  {
    m := 2 * j + if x + x >= TWO_63 then 1 else if x + x < -TWO_63 then -1 else 0;
  }

  /** What the shift drops are whole multiples of 2^64. */
  lemma {:induction false} ShlDrops(base: int, n: nat) returns (m: int)
    requires 0 < base < TWO_63
    ensures Shl(base, n) == Scaled(base, n) - m * TWO_64
  {
    if n == 0 {
      m := 0;
    } else {
      m := ShlDrops(base, n - 1);
      m := TwiceDrops(Shl(base, n - 1), Scaled(base, n - 1), m);
    }
  }

  lemma {:induction false} SplitProduct(base: int, p: int, q: int)
    requires q > 0
    ensures base * p == (base / q) * (p * q) + p * (base % q)
  {
  }

  lemma {:induction false} Residue(y: int, kept: int, e: int)
    requires y == kept + e * TWO_64 && 0 <= kept < TWO_64 && -TWO_63 <= y < TWO_63
    ensures y == if kept < TWO_63 then kept else kept - TWO_64
  {
  }

  /** So it keeps the low 64 - n bits. */
  lemma {:induction false} ShlKeeps(base: int, n: nat)
    requires 0 < base < TWO_63 && n <= 64
    ensures var kept := Pow2(n) * (base % Pow2(64 - n));
      0 <= kept < TWO_64 && Shl(base, n) == if kept < TWO_63 then kept else kept - TWO_64
  {
    var p, q := Pow2(n), Pow2(64 - n);
    Pow2Split(n);
    var m := ShlDrops(base, n);
    ScaledIsProduct(base, n);
    SplitProduct(base, p, q);
    Bounded(p, q, base % q);
    Residue(Shl(base, n), p * (base % q), base / q - m);
  }

  lemma {:induction false} Bounded(p: int, q: int, low: int)
    requires p > 0 && 0 <= low < q
    ensures 0 <= p * low < p * q && (low > 0 ==> p * low >= p)
  {
  }

  lemma {:induction false} ShlGone(base: int, n: nat)
    requires 0 < base < TWO_63 && n >= 64
    ensures Shl(base, n) == 0
  {
    if n == 64 {
      assert Pow2(0) == 1;
      ShlKeeps(base, 64);
    } else {
      ShlGone(base, n - 1);
    }
  }

  /** A product that overflows has a factor above the base if the base is small. */
  lemma {:induction false} FactorAbove(base: int, p: int)
    requires 0 < base && base * base < TWO_63 <= base * p
    ensures base < p
  {
  }

  // ---- The limit -----------------------------------------------------------------------

  /** The argument of rand.N is positive unless the shift keeps too little, and what it
      yields keeps the delay below both the cap and base * 2^n. It is the lower of the two
      unless the product overflows. */
  lemma {:induction false} LimitExact(base: int, cap: int, n: nat)
    requires 0 < base < cap < TWO_63
    ensures Limit(base, cap, n) - base > 0 <==> !TooLow(base, n)
    ensures Limit(base, cap, n) <= cap && Limit(base, cap, n) <= base * Pow2(n)
    ensures base * Pow2(n) < TWO_63 ==>
      Limit(base, cap, n) == if base * Pow2(n) <= cap then base * Pow2(n) else cap
  {
    ScaledIsProduct(base, n);
    if Scaled(base, n) < TWO_63 {
      ShlExact(base, n);
    }
    if n >= 64 {
      ShlGone(base, n);
      Overflows(base, n);
    } else {
      ShlKeeps(base, n);
    }
  }

  /** It never keeps too little of a base below the square root of 2^63. */
  lemma {:induction false} SmallBaseOk(base: int, n: nat)
    requires 0 < base && base * base < TWO_63 && n >= 1
    ensures !TooLow(base, n)
  {
    if n < 64 {
      var p, q := Pow2(n), Pow2(64 - n);
      BelowRoot(base);
      ShlKeeps(base, n);
      Bounded(p, q, base % q);
      ScaledIsProduct(base, n);
      if Scaled(base, n) < TWO_63 {
        ShlExact(base, n);
      } else {
        FactorAbove(base, p);
      }
    }
  }

  lemma {:induction false} BelowRoot(base: int)
    requires 0 < base && base * base < TWO_63
    ensures base < TWO_63
  {
  }

  /** The engine's delays lie in [base, min(base * 2^n, cap)), and never panic. */
  lemma {:induction false} EngineOk(n: nat)
    requires n >= 1
    ensures ENGINE_BASE < Limit(ENGINE_BASE, ENGINE_CAP, n) <= ENGINE_CAP
    ensures Limit(ENGINE_BASE, ENGINE_CAP, n) <= ENGINE_BASE * Pow2(n)
  {
    LimitExact(ENGINE_BASE, ENGINE_CAP, n);
    SmallBaseOk(ENGINE_BASE, n);
  }

  /** Above that root the limit can fall below the base. */
  lemma {:induction false} LargeBaseFails()
    ensures TooLow(0x1_0000_0001, 32)
  {
    Pow2Word();
  }

  /** And without a failure rand.N always panics. */
  lemma {:induction false} NoFailureFails(base: int)
    requires 0 < base < TWO_63
    ensures TooLow(base, 0)
  {
    Pow2Width();
  }
}
