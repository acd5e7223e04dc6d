/** Retry delays: exponential backoff with twenty percent of jitter either way.
    Durations are nanoseconds in 64 bits; the scaling by the jitter is exact here, and
    its conversion back to 64 bits is not defined outside them. */
module Retry {
  const MAX: int := 0x7fff_ffff_ffff_ffff
  const MODULUS: int := 0x1_0000_0000_0000_0000

  /** What 64-bit arithmetic makes of a number. */
  function Wrap(x: int): (r: int)
    ensures -MAX - 1 <= r <= MAX && (x - r) % MODULUS == 0
    ensures -MAX - 1 <= x <= MAX ==> r == x
  {
    (x + MAX + 1) % MODULUS - MAX - 1
  }

  function Pow2(n: nat): (r: int)
    ensures r >= 1
  {
    if n == 0 then 1 else 2 * Pow2(n - 1)
  }

  /** The base doubled n times, wrapping around. */
  function Doubled(base: int, n: nat): int {
    if n == 0 then base else Wrap(2 * Doubled(base, n - 1))
  }

  predicate FitsInt64(x: int) {
    -MAX - 1 <= x <= MAX
  }

  function Trunc(x: real): int {
    if x >= 0.0 then x.Floor else -(-x).Floor
  }

  /** Conversion to a 64-bit integer drops the fraction. What it makes of a number that
      does not fit is left to the machine: `over`, which is -2^63 on amd64. */
  function Convert(x: real, over: int): int {
    if FitsInt64(Trunc(x)) then Trunc(x) else over
  }

  function Jittered(d: int, jitter: real, over: int): int {
    Convert(d as real * jitter, over)
  }

  function Delay(base: int, attempt: int, jitter: real, over: int): int {
    Jittered(Doubled(base, if attempt < 1 then 0 else attempt - 1), jitter, over)
  }

  method RetryDelay(base: int, attempt: int, jitter: real, over: int) returns (delay: int)
    ensures delay == Delay(base, attempt, jitter, over)
  {
    hide Jittered, Wrap;
    var d, i := base, 1;
    while i < attempt
      invariant 1 <= i && (i <= attempt || i == 1) && d == Doubled(base, i - 1)
    {
      d := Wrap(2 * d);
      i := i + 1;
    }
    assert d == Doubled(base, if attempt < 1 then 0 else attempt - 1);
    delay := Jittered(d, jitter, over);
  }

  lemma {:induction false} PowGrows(m: nat, n: nat)
    requires m <= n
    ensures Pow2(m) <= Pow2(n)
  {
    if m < n { PowGrows(m, n - 1); }
  }

  lemma Scaled(base: nat, a: int, b: int)
    requires a <= b
    ensures base * a <= base * b
  {
  }

  /** Doubling is exact exactly as long as the result fits; beyond that the delay is
      not what backoff intends. */
  lemma {:induction false} DoublesUnlessItOverflows(base: nat, n: nat)
    requires base <= MAX
    ensures Doubled(base, n) == base * Pow2(n) <==> base * Pow2(n) <= MAX
  {
    if base * Pow2(n) <= MAX {
      DoublesExactly(base, n);
    } else {
      DoubledFits(base, n);
    }
  }

  lemma {:induction false} DoublesExactly(base: nat, n: nat)
    requires base * Pow2(n) <= MAX
    ensures Doubled(base, n) == base * Pow2(n)
  {
    if n > 0 {
      assert base * Pow2(n) == 2 * (base * Pow2(n - 1));
      DoublesExactly(base, n - 1);
    }
  }

  lemma DoubledFits(base: nat, n: nat)
    ensures n > 0 ==> Doubled(base, n) <= MAX
    ensures n == 0 ==> Doubled(base, n) == base && base * Pow2(n) == base
  {
  }

  /** Equal modulo 2^64, equal after wrapping. */
  lemma WrapsAlike(x: int, y: int, k: int)
    requires x == y + k * MODULUS
    ensures Wrap(x) == Wrap(y)
  {
  }

  lemma WrapOf(x: int) returns (k: int)
    ensures x == Wrap(x) + k * MODULUS
  {
    k := (x + MAX + 1) / MODULUS;
  }

  lemma OneMore(base: int, n: nat)
    requires n > 0
    ensures base * Pow2(n) == 2 * (base * Pow2(n - 1))
  {
  }

  lemma NoneYet(base: int)
    ensures base * Pow2(0) == base
  {
  }

  /** Wrapping at every doubling is wrapping once at the end. */
  lemma {:induction false} DoublingWraps(base: int, n: nat)
    requires -MAX - 1 <= base <= MAX
    ensures Doubled(base, n) == Wrap(base * Pow2(n))
  {
    NoneYet(base);
    if n > 0 {
      hide Wrap, Pow2;
      DoublingWraps(base, n - 1);
      var x := base * Pow2(n - 1);
      OneMore(base, n);
      var k := WrapOf(x);
      WrapsAlike(2 * Wrap(x), 2 * x, -2 * k);
    }
  }

  /** Some machine sends a retry with this jitter into the past. */
  ghost predicate CanGoBack(base: int, n: nat, jitter: real) {
    exists over :: FitsInt64(over) && Delay(base, n + 1, jitter, over) < 0
  }

  /** A retry can go into the past if and only if the doubled base has a negative
      64-bit form, or the jitter takes it past 64 bits. */
  lemma DelayGoesBackIff(base: nat, n: nat, jitter: real)
    requires base <= MAX && 0.8 <= jitter < 1.2
    ensures var w := Wrap(base * Pow2(n));
      && (CanGoBack(base, n, jitter) <==> w < 0 || w as real * jitter >= (MAX + 1) as real)
      && (w < 0 <==> base * Pow2(n) % MODULUS > MAX)
  {
    hide Wrap, Jittered, Pow2, Doubled;
    DoublingWraps(base, n);
    NotMinusOne(base, n);
    WrapSign(base * Pow2(n));
    var d := Doubled(base, n);
    JitteredSign(d, jitter);
    if d < 0 || d as real * jitter >= (MAX + 1) as real {
      assert FitsInt64(-MAX - 1) && Delay(base, n + 1, jitter, -MAX - 1) < 0;
    } else {
      forall over | FitsInt64(over) ensures Delay(base, n + 1, jitter, over) >= 0 {
        assert Jittered(d, jitter, over) >= 0;
      }
    }
  }

  /** No retry goes into the past, on any machine with any jitter, if and only if the
      doubled base has a 64-bit form from 0 to 5/6 of 2^63. */
  lemma NoDelayGoesBackIff(base: nat, n: nat)
    requires base <= MAX
    ensures var w := Wrap(base * Pow2(n));
      (forall jitter :: 0.8 <= jitter < 1.2 ==> !CanGoBack(base, n, jitter)) <==> 0 <= w && Safe(w)
  {
    hide Wrap, Delay, Pow2, CanGoBack;
    var w := Wrap(base * Pow2(n));
    WrapFits(base * Pow2(n));
    if 0 <= w && Safe(w) {
      forall jitter | 0.8 <= jitter < 1.2 ensures !CanGoBack(base, n, jitter) {
        DelayGoesBackIff(base, n, jitter);
        StaysBelow(w, jitter);
      }
    } else {
      var jitter := if w < 0 then 1.0 else (MAX + 1) as real / w as real;
      if w >= 0 { TakesPast(w, jitter); }
      DelayGoesBackIff(base, n, jitter);
    }
  }

  /** A doubled base that no jitter takes past 64 bits. */
  predicate Safe(d: int) {
    6 * d <= 5 * (MAX + 1)
  }

  lemma WrapFits(x: int)
    ensures FitsInt64(Wrap(x))
  {
  }

  lemma StaysBelow(w: nat, jitter: real)
    requires Safe(w) && 0.8 <= jitter < 1.2
    ensures w as real * jitter < (MAX + 1) as real && 1.2 * w as real <= (MAX + 1) as real
  {
    assert 1.2 * w as real <= (MAX + 1) as real;
    Under(w as real, (MAX + 1) as real, jitter);
  }

  lemma Under(d: real, limit: real, jitter: real)
    requires 0.0 <= d && 1.2 * d <= limit && limit > 0.0 && jitter < 1.2
    ensures d * jitter < limit
  {
    if d > 0.0 { Below(d, jitter); } else { assert d * jitter == 0.0; }
  }

  lemma Below(d: real, jitter: real)
    requires d > 0.0 && jitter < 1.2
    ensures d * jitter < 1.2 * d
  {
  }

  lemma TakesPast(w: nat, jitter: real)
    requires 5 * (MAX + 1) < 6 * w && w <= MAX && jitter == (MAX + 1) as real / w as real
    ensures 0.8 <= jitter < 1.2 && w as real * jitter == (MAX + 1) as real
  {
    Quotient((MAX + 1) as real, w as real, jitter);
  }

  lemma Quotient(a: real, w: real, jitter: real)
    requires w > 0.0 && jitter == a / w && w < a < 1.2 * w
    ensures 1.0 < jitter < 1.2 && w * jitter == a
  {
    if jitter <= 1.0 { Product(w, jitter, 1.0); }
    if jitter >= 1.2 { Product(w, 1.2, jitter); }
  }

  lemma Product(w: real, a: real, b: real)
    requires w > 0.0 && a <= b
    ensures w * a <= w * b
  {
  }

  lemma WrapSign(x: nat)
    ensures Wrap(x) < 0 <==> x % MODULUS > MAX
  {
  }

  /** A negative result of doubling is even. */
  lemma NotMinusOne(base: nat, n: nat)
    requires base <= MAX
    ensures Wrap(base * Pow2(n)) != -1
  {
    if n == 0 {
      assert base * Pow2(0) == base;
    } else {
      OneMore(base, n);
      WrapKeepsParity(base * Pow2(n - 1));
    }
  }

  lemma WrapKeepsParity(x: int)
    ensures Wrap(2 * x) % 2 == 0
  {
  }

  lemma JitteredSign(d: int, jitter: real)
    requires d != -1 && 0.8 <= jitter < 1.2
    ensures d < 0 || d as real * jitter >= (MAX + 1) as real ==> Jittered(d, jitter, -MAX - 1) < 0
    ensures d >= 0 && d as real * jitter < (MAX + 1) as real ==> forall over :: Jittered(d, jitter, over) >= 0
  {
    if d >= 0 {
      JitteredBetween(d as real, jitter);
    } else {
      JitteredBetween((-d) as real, jitter);
      assert d as real * jitter == -((-d) as real * jitter);
    }
  }

  /** Doubling can do it: a base of 2^62 ns at its second retry, on any machine unless
      the jitter takes it below -2^63. */
  lemma OverflowGoesBack(jitter: real, over: int)
    requires 0.8 <= jitter < 1.2 && (jitter <= 1.0 || over < 0)
    ensures Delay(0x4000_0000_0000_0000, 2, jitter, over) < 0
  {
    hide Convert;
    assert Doubled(0x4000_0000_0000_0000, 1) == -MAX - 1;
    assert (-MAX - 1) as real * jitter == -((MAX + 1) as real * jitter);
    NegativeStays((MAX + 1) as real, jitter, over);
  }

  lemma NegativeStays(p: real, jitter: real, over: int)
    requires 2.0 <= p <= (MAX + 1) as real && 0.8 <= jitter < 1.2 && (over < 0 || jitter <= 1.0)
    ensures Convert(-(p * jitter), over) < 0
  {
    hide Convert;
    AtLeast(p, jitter);
    NegativeConverts(-(p * jitter), over);
  }

  lemma AtLeast(p: real, jitter: real)
    requires p >= 2.0 && 0.8 <= jitter
    ensures p * jitter >= 1.6 && (jitter <= 1.0 ==> p * jitter <= p)
  {
    Product(p, 0.8, jitter);
    if jitter <= 1.0 { Product(p, jitter, 1.0); }
  }

  lemma NegativeConverts(y: real, over: int)
    requires y <= -1.6 && (over < 0 || y >= (-MAX - 1) as real)
    ensures Convert(y, over) < 0
  {
    TruncNegative(y);
  }

  lemma TruncNegative(y: real)
    requires y <= -1.6
    ensures Trunc(y) < 0 && y <= Trunc(y) as real
  {
  }

  /** So can the jitter, without any doubling: a base of 9 * 10^18 ns at its first
      retry with a jitter of 1.1, on a machine such as amd64. */
  lemma JitterGoesBack(over: int)
    requires over < 0
    ensures Delay(9_000_000_000_000_000_000, 1, 1.1, over) < 0
    ensures Wrap(9_000_000_000_000_000_000 * Pow2(0)) == 9_000_000_000_000_000_000
  {
    NoneYet(9_000_000_000_000_000_000);
    assert 9_000_000_000_000_000_000.0 * 1.1 == 9_900_000_000_000_000_000.0;
  }

  // ---------- the whole chain ----------

  /** The delays between n + 1 attempts that all fail, with the jitters drawn. */
  function ChainDelay(base: int, jitters: seq<real>, over: nat -> int): int {
    if jitters == [] then 0 else
    var n := |jitters| - 1;
    ChainDelay(base, jitters[..n], over) + Delay(base, n + 1, jitters[n], over(n))
  }

  predicate Jitters(js: seq<real>) {
    forall i :: 0 <= i < |js| ==> 0.8 <= js[i] < 1.2
  }

  lemma DelayBounds(base: nat, n: nat, jitter: real, over: int, d: nat)
    requires d == base * Pow2(n) && Safe(d) && 0.8 <= jitter < 1.2
    ensures 0.8 * d as real - 1.0 < Delay(base, n + 1, jitter, over) as real <= 1.2 * d as real
    ensures Delay(base, n + 1, jitter, over) >= 0
  {
    hide Jittered;
    DoublesExactly(base, n);
    JitteredBounds(d, jitter, over);
  }

  /** As long as no jitter takes it past 64 bits, a delay is the base times 2^n times
      the jitter, with its fraction dropped. */
  lemma DelayIsTheProduct(base: nat, n: nat, jitter: real, over: int)
    requires 6 * (base * Pow2(n)) <= 5 * 0x8000_0000_0000_0000 && 0.8 <= jitter < 1.2
    ensures (base * Pow2(n)) as real * jitter - 1.0 < Delay(base, n + 1, jitter, over) as real <= (base * Pow2(n)) as real * jitter
  {
    hide Jittered, Pow2;
    DoublesExactly(base, n);
    JitteredIsTheProduct(base * Pow2(n), jitter, over);
  }

  lemma JitteredIsTheProduct(d: nat, jitter: real, over: int)
    requires Safe(d) && 0.8 <= jitter < 1.2
    ensures d as real * jitter - 1.0 < Jittered(d, jitter, over) as real <= d as real * jitter
  {
    hide Convert;
    StaysBelow(d, jitter);
    Positive(d as real, jitter);
    ConvertBounds(d as real * jitter, over);
  }

  lemma Positive(d: real, jitter: real)
    requires d >= 0.0 && jitter >= 0.8
    ensures d * jitter >= 0.0
  {
  }

  /** The powers that delays grow by. */
  lemma PowersOfTwo(n: nat)
    ensures Pow2(0) == 1 && Pow2(n + 1) == 2 * Pow2(n)
  {
  }

  lemma JitteredBounds(d: nat, jitter: real, over: int)
    requires Safe(d) && 0.8 <= jitter < 1.2
    ensures 0.8 * d as real - 1.0 < Jittered(d, jitter, over) as real <= 1.2 * d as real && Jittered(d, jitter, over) >= 0
  {
    StaysBelow(d, jitter);
    ProductBounds(d as real, jitter, over);
  }

  lemma ProductBounds(d: real, jitter: real, over: int)
    requires 0.0 <= d && d * jitter < (MAX + 1) as real && 0.8 <= jitter < 1.2
    ensures 0.8 * d - 1.0 < Convert(d * jitter, over) as real <= 1.2 * d && Convert(d * jitter, over) >= 0
  {
    hide Convert;
    JitteredBetween(d, jitter);
    ConvertsBetween(0.8 * d, d * jitter, 1.2 * d, over);
  }

  lemma ConvertsBetween(low: real, x: real, high: real, over: int)
    requires 0.0 <= low <= x <= high && x < (MAX + 1) as real
    ensures low - 1.0 < Convert(x, over) as real <= high && Convert(x, over) >= 0
  {
    hide Convert;
    ConvertBounds(x, over);
  }

  lemma ConvertBounds(x: real, over: int)
    requires 0.0 <= x < (MAX + 1) as real
    ensures x - 1.0 < Convert(x, over) as real <= x && Convert(x, over) >= 0
  {
    TruncBounds(x);
  }

  lemma TruncBounds(x: real)
    requires x >= 0.0
    ensures x - 1.0 < Trunc(x) as real <= x && Trunc(x) >= 0
  {
  }

  lemma JitteredBetween(d: real, jitter: real)
    requires d >= 0.0 && 0.8 <= jitter < 1.2
    ensures 0.8 * d <= d * jitter <= 1.2 * d
  {
  }

  /** The delays of a chain of failing attempts add up to no more than 1.2 and no
      less than 0.8 times base * (2^n - 1), but for less than a nanosecond each. */
  lemma {:induction false} ChainIsBounded(base: nat, jitters: seq<real>, over: nat -> int)
    requires Jitters(jitters) && (jitters != [] ==> Safe(base * Pow2(|jitters| - 1)))
    ensures var total, whole := ChainDelay(base, jitters, over) as real, (base * (Pow2(|jitters|) - 1)) as real;
      && total <= 1.2 * whole
      && total >= 0.8 * whole - |jitters| as real
      && (jitters != [] ==> total > 0.8 * whole - |jitters| as real)
  {
    if jitters != [] {
      hide Delay;
      var n := |jitters| - 1;
      var d := base * Pow2(n);
      ShorterIsSafe(base, n);
      ChainIsBounded(base, jitters[..n], over);
      DelayBounds(base, n, jitters[n], over(n), d);
      Whole(base, n);
      ChainStep(ChainDelay(base, jitters[..n], over), base * (Pow2(n) - 1), n, Delay(base, n + 1, jitters[n], over(n)), d);
    }
  }

  lemma ShorterIsSafe(base: nat, n: nat)
    requires Safe(base * Pow2(n))
    ensures n > 0 ==> Safe(base * Pow2(n - 1))
  {
    if n > 0 {
      PowGrows(n - 1, n);
      Scaled(base, Pow2(n - 1), Pow2(n));
    }
  }

  lemma Whole(base: nat, n: nat)
    ensures base * (Pow2(n + 1) - 1) == base * (Pow2(n) - 1) + base * Pow2(n)
  {
    assert Pow2(n + 1) - 1 == (Pow2(n) - 1) + Pow2(n);
  }

  lemma ChainStep(total: int, whole: int, n: nat, delay: int, d: int)
    requires 0.8 * whole as real - n as real <= total as real <= 1.2 * whole as real
    requires 0.8 * d as real - 1.0 < delay as real <= 1.2 * d as real
    ensures 0.8 * (whole + d) as real - (n + 1) as real < (total + delay) as real <= 1.2 * (whole + d) as real
  {
  }
}
