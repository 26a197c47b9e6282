/** What the retry strategies add up to, and exactly when their fixed-width arithmetic is exact. */
module BackoffTotals {
  import opened Numerics
  import opened Options
  import opened Backoff
  import opened Units

  // ------------------------------------------------------------------------------------------------
  // Fibonacci

  /** The k-th Fibonacci delay is base * F(k) exactly when that many seconds fit 64 bits. The wrap-around of the
      strategy's own two counters never shows by itself. */
  lemma FibonacciDelayExact(seconds: nat, k: nat)
    ensures DelayNo(Fibonacci(seconds * NANOS), k) == Some(seconds * Fib(k) * NANOS) <==> seconds * Fib(k) < TWO_64
  {
    assert seconds * NANOS / NANOS == seconds;
    var x := seconds * Fib(k);
    assert Wrap64(x) == x <==> x < TWO_64;
    assert Wrap64(x) * NANOS == x * NANOS <==> Wrap64(x) == x;
  }

  lemma {:induction false} FibMono(m: nat, n: nat)
    requires m <= n
    ensures Fib(m) <= Fib(n)
    decreases n
  {
    if m < n {
      FibMono(m, n - 1);
      assert n >= 2 ==> Fib(n) == Fib(n - 2) + Fib(n - 1);
    }
  }

  /** F(m + n + 1) = F(m + 1) F(n + 1) + F(m) F(n). */
  ghost predicate FibSum(m: nat, n: nat) {
    Fib(m + n + 1) == Fib(m + 1) * Fib(n + 1) + Fib(m) * Fib(n)
  }

  lemma FibStep(n: nat)
    ensures Fib(n + 2) == Fib(n) + Fib(n + 1)
  {
  }

  lemma FibAlgebra(x: int, y: int, a: int, b: int, c: int, d: int, u: int, v: int)
    requires x == b * u + a * v && y == c * u + b * v && c == a + b && d == b + c
    ensures x + y == d * u + c * v
  {
  }

  lemma FibSumStep(m: nat, n: nat)
    requires FibSum(m, n) && FibSum(m + 1, n)
    ensures FibSum(m + 2, n)
  {
    FibStep(m);
    FibStep(m + 1);
    FibStep(m + n + 1);
    FibAlgebra(Fib(m + n + 1), Fib(m + n + 2), Fib(m), Fib(m + 1), Fib(m + 2), Fib(m + 3), Fib(n + 1), Fib(n));
  }

  lemma {:induction false} FibSumHolds(m: nat, n: nat)
    ensures FibSum(m, n)
    decreases m
  {
    assert Fib(2) == 1;
    if m >= 2 {
      FibSumHolds(m - 2, n);
      FibSumHolds(m - 1, n);
      FibSumStep(m - 2, n);
    }
  }

  lemma FibDouble(n: nat, a: nat, b: nat)
    requires n > 0 && Fib(n) == a && Fib(n + 1) == b
    ensures Fib(2 * n) == a * (b + b - a) && Fib(2 * n + 1) == b * b + a * a
    ensures Fib(2 * n + 2) == Fib(2 * n) + Fib(2 * n + 1)
  {
    FibSumHolds(n, n);
    FibSumHolds(n, n - 1);
    FibStep(n - 1);
    FibStep(2 * n);
    DoubleAlgebra(a, b);
  }

  lemma DoubleAlgebra(a: int, b: int)
    ensures b * a + a * (b - a) == a * (b + b - a)
  {
  }

  lemma FibValues()
    ensures Fib(93) == 12200160415121876738
    ensures Fib(94) == 19740274219868223167
  {
    FibStep(0); FibStep(1); FibStep(2); FibStep(3); FibStep(4);
    FibDouble(5, 5, 8);
    FibDouble(11, 89, 144);
    FibDouble(23, 28657, 46368);
    FibDouble(46, 1836311903, 2971215073);
  }

  /** The two counters stay below 2^64 for exactly 91 calls, that is for requests with at most 92 attempts. */
  lemma FibonacciCountersFit(calls: nat)
    ensures Fib(calls + 2) < TWO_64 <==> calls <= 91
  {
    FibValues();
    if calls <= 91 {
      FibMono(calls + 2, 93);
    } else {
      FibMono(94, calls + 2);
    }
  }

  /** n Fibonacci delays come to base * (F(n + 2) - 1), while each fits: an exhausted request with m attempts has slept
      base * (F(m + 1) - 1). */
  lemma {:induction false} FibonacciTotal(seconds: nat, n: nat)
    requires seconds * Fib(n) < TWO_64
    ensures TotalDelay(Fibonacci(seconds * NANOS), n) == Some(seconds * (Fib(n + 2) - 1) * NANOS)
    decreases n
  {
    if n > 0 {
      FibMono(n - 1, n);
      MulMono(Fib(n - 1), Fib(n), seconds);
      FibonacciTotal(seconds, n - 1);
      FibonacciDelayExact(seconds, n);
      FibStep(n);
      FibMono(1, n + 1);
      TotalSumStep(Fibonacci(seconds * NANOS), n, seconds, Fib(n), Fib(n + 1), Fib(n + 2));
    } else {
      assert Fib(2) == 1;
    }
  }

  lemma TotalSumStep(kind: Kind, n: nat, s: nat, x: nat, y: nat, z: nat)
    requires n > 0 && y >= 1 && z == x + y
    requires TotalDelay(kind, n - 1) == Some(s * (y - 1) * NANOS) && DelayNo(kind, n) == Some(s * x * NANOS)
    ensures TotalDelay(kind, n) == Some(s * (z - 1) * NANOS)
  {
    SumStep(s, x, y, z);
  }

  lemma SumStep(s: nat, x: nat, y: nat, z: nat)
    requires y >= 1 && z == x + y
    ensures s * (y - 1) * NANOS + s * x * NANOS == s * (z - 1) * NANOS
  {
    assert s * (z - 1) == s * (y - 1) + s * x;
  }

  // ------------------------------------------------------------------------------------------------
  // Linear, Incremental, Exponential, Geometric

  /** While the count fits 32 bits and the last delay fits a Duration, n linear delays total n * base plus the
      triangular multiple of the step; Incremental gives the same. */
  lemma {:induction false} LinearTotal(base: nat, step: nat, n: nat)
    requires n < TWO_32 && base + step * n < DURATION_LIMIT
    ensures TotalDelay(Linear(base, step), n) == Some(n * base + step * (n * (n + 1) / 2))
    ensures TotalDelay(Incremental(base, step), n) == TotalDelay(Linear(base, step), n)
    decreases n
  {
    if n > 0 {
      MulStep(n - 1, step);
      LinearTotal(base, step, n - 1);
      LinearDelay(base, step, n);
      LinearStep(base, step, n);
      var before, sum := (n - 1) * base + step * ((n - 1) * n / 2), n * base + step * (n * (n + 1) / 2);
      TotalAdds(Linear(base, step), n, before, base + step * n, sum);
      TotalAdds(Incremental(base, step), n, before, base + step * n, sum);
    }
  }

  lemma LinearDelay(base: nat, step: nat, n: nat)
    requires n < TWO_32 && base + step * n < DURATION_LIMIT
    ensures DelayNo(Linear(base, step), n) == DelayNo(Incremental(base, step), n) == Some(base + step * n)
  {
    SmallMod(n, TWO_32);
  }

  lemma TotalAdds(kind: Kind, n: nat, before: nat, d: nat, sum: nat)
    requires n > 0 && sum == before + d
    requires TotalDelay(kind, n - 1) == Some(before) && DelayNo(kind, n) == Some(d)
    ensures TotalDelay(kind, n) == Some(sum)
  {
  }

  lemma LinearStep(base: nat, step: nat, n: nat)
    requires n > 0
    ensures (n - 1) * base + step * ((n - 1) * n / 2) + (base + step * n) == n * base + step * (n * (n + 1) / 2)
  {
    assert n * (n + 1) == (n - 1) * n + 2 * n;
    assert step * ((n - 1) * n / 2 + n) == step * ((n - 1) * n / 2) + step * n;
    MulStep(n - 1, base);
  }

  lemma {:induction false} PowMono(f: nat, n: nat)
    requires f >= 1
    ensures 1 <= Pow(f, n) <= Pow(f, n + 1)
    decreases n
  {
    if n > 0 {
      PowMono(f, n - 1);
    }
    assert Pow(f, n + 1) == f * Pow(f, n);
    MulMono(1, f, Pow(f, n));
  }

  /** The geometric series: with a factor of at least 2, n delays come to base * (f^(n+1) - f) / (f - 1), as long as
      the last one fits a Duration; the Geometric strategy is the Exponential one. */
  lemma {:induction false} ExponentialTotal(base: nat, f: nat, n: nat)
    requires f >= 2 && base * Pow(f, n) < DURATION_LIMIT
    ensures
      var total := TotalDelay(Exponential(base, f), n);
      total.Some? && total.value * (f - 1) == base * (Pow(f, n + 1) - f)
    ensures TotalDelay(Geometric(base, f), n) == TotalDelay(Exponential(base, f), n)
    decreases n
  {
    if n > 0 {
      PowMono(f, n - 1);
      MulMono(Pow(f, n - 1), Pow(f, n), base);
      ExponentialTotal(base, f, n - 1);
      var p, before := Pow(f, n), TotalDelay(Exponential(base, f), n - 1).value;
      assert Pow(f, n + 1) == f * p;
      SeriesStep(base, f, p, before);
    } else {
      assert Pow(f, 1) == f * Pow(f, 0);
    }
  }

  lemma SeriesStep(base: nat, f: nat, p: nat, before: nat)
    requires before * (f - 1) == base * (p - f)
    ensures (before + base * p) * (f - 1) == base * (f * p - f)
  {
    assert (before + base * p) * (f - 1) == before * (f - 1) + base * p * (f - 1);
    assert base * p * (f - 1) == base * (p * f - p);
    assert base * (p - f) + base * (p * f - p) == base * (p * f - f);
  }

  // ------------------------------------------------------------------------------------------------
  // Harmonic

  /** Call k returns T / k rounded down to the nanosecond, and never more than the call before. */
  lemma HarmonicDelayExact(t: nat, k: nat)
    requires t < TWO_64 && 1 <= k < TWO_32
    ensures DelayNo(Harmonic(t), k) == Some(t / k)
    ensures k > 1 ==> t / k <= t / (k - 1)
  {
    assert Low32(k) == k && Wrap64(t) == t;
    if k > 1 {
      MulMono(k - 1, k, t / k);
      DivLower(t / k, k - 1, t);
    }
  }

  function Log2(n: nat): nat
    requires n > 0
  {
    if n == 1 then 0 else 1 + Log2(n / 2)
  }

  /** The sum of the terms T / k for k from lo + 1 to hi. */
  function HarmonicSum(t: nat, lo: nat, hi: nat): nat
    requires lo <= hi
    decreases hi
  {
    if lo == hi then 0 else HarmonicSum(t, lo, hi - 1) + t / hi
  }

  lemma {:induction false} HarmonicSplit(t: nat, mid: nat, hi: nat)
    requires mid <= hi
    ensures HarmonicSum(t, 0, hi) == HarmonicSum(t, 0, mid) + HarmonicSum(t, mid, hi)
    decreases hi
  {
    if mid < hi {
      HarmonicSplit(t, mid, hi - 1);
    }
  }

  lemma LaterTermSmaller(t: nat, first: nat, k: nat)
    requires 1 <= first <= k
    ensures t / k <= t / first
  {
    var q := t / k;
    assert q * k <= t;
    MulMono(first, k, q);
    DivLower(q, first, t);
  }

  lemma BlockStep(sum: int, term: int, len: int, bound: int)
    requires sum <= (len - 1) * bound && term <= bound
    ensures sum + term <= len * bound
  {
    MulStep(len - 1, bound);
  }

  /** A block of terms from lo + 1 on is at most its length times its first term. */
  lemma {:induction false} HarmonicBlock(t: nat, lo: nat, hi: nat)
    requires lo <= hi
    ensures HarmonicSum(t, lo, hi) <= (hi - lo) * (t / (lo + 1))
    decreases hi
  {
    if lo < hi {
      HarmonicBlock(t, lo, hi - 1);
      LaterTermSmaller(t, lo + 1, hi);
      BlockStep(HarmonicSum(t, lo, hi - 1), t / hi, hi - lo, t / (lo + 1));
    }
  }

  lemma BlockBound(t: nat, first: nat, len: nat)
    requires 1 <= first && len <= first
    ensures len * (t / first) <= t
  {
    MulMono(len, first, t / first);
  }

  lemma {:induction false} HarmonicSumBound(t: nat, n: nat)
    requires n > 0
    ensures HarmonicSum(t, 0, n) <= t * (1 + Log2(n))
    decreases n
  {
    if n == 1 {
      assert HarmonicSum(t, 0, 0) == 0;
    } else {
      var half := n / 2;
      HarmonicSumBound(t, half);
      HarmonicSplit(t, half, n);
      HarmonicBlock(t, half, n);
      BlockBound(t, half + 1, n - half);
      MulStep(1 + Log2(half), t);
    }
  }

  /** However many attempts, harmonic backoff waits at most T * (1 + log2 n) in all. */
  lemma {:induction false} HarmonicTotal(t: nat, n: nat)
    requires t < TWO_64 && n < TWO_32
    ensures TotalDelay(Harmonic(t), n) == Some(HarmonicSum(t, 0, n))
    ensures n > 0 ==> HarmonicSum(t, 0, n) <= t * (1 + Log2(n))
    decreases n
  {
    if n > 0 {
      HarmonicTotal(t, n - 1);
      HarmonicDelayExact(t, n);
      HarmonicSumBound(t, n);
    }
  }

  // ------------------------------------------------------------------------------------------------
  // Panics

  lemma {:induction false} PowMonoTo(f: nat, m: nat, n: nat)
    requires f >= 1 && m <= n
    ensures Pow(f, m) <= Pow(f, n)
    decreases n
  {
    if m < n {
      PowMonoTo(f, m, n - 1);
      PowMono(f, n - 1);
    }
  }

  lemma PowerGrows(base: nat, f: nat, k: nat, n: nat)
    requires 1 <= k <= n
    ensures PowerDelay(base, f, k) <= PowerDelay(base, f, n)
  {
    if f == 0 {
      assert Pow(f, k) == 0;
    } else {
      PowMonoTo(f, k, n);
      MulMono(Pow(f, k), Pow(f, n), base);
    }
  }

  lemma StepGrows(base: nat, step: nat, k: nat, n: nat)
    requires k <= n < TWO_32
    ensures StepDelay(base, step, k) <= StepDelay(base, step, n)
  {
    assert Low32(k) == k && Low32(n) == n;
    MulMono(k, n, step);
  }

  /** A delay of 2^64 seconds or more, and a harmonic one whose count is a multiple of 2^32. */
  predicate Undefined(kind: Kind, k: nat) {
    var limit := 0x1_0000_0000_0000_0000 * 1_000_000_000;
    match kind
    case FixedInterval(_) => false
    case Fibonacci(_) => false
    case Exponential(base, f) => base * Pow(f, k) >= limit
    case Geometric(base, f) => base * Pow(f, k) >= limit
    case Linear(base, step) => base + step * (k % 0x1_0000_0000) >= limit
    case Incremental(base, step) => base + step * (k % 0x1_0000_0000) >= limit
    case Harmonic(_) => k % 0x1_0000_0000 == 0
  }

  /** These are the delays that panic before jitter. */
  lemma PanicsIffUndefined(kind: Kind, k: nat)
    ensures DelayNo(kind, k).None? <==> Undefined(kind, k)
  {
  }

  /** The counts of these strategies and the base of the harmonic one only matter in their lower bits. */
  lemma LowerBitsDecide(kind: Kind, k: nat)
    requires kind.Linear? || kind.Incremental? || kind.Harmonic?
    ensures DelayNo(kind, k + 0x1_0000_0000) == DelayNo(kind, k)
    ensures kind.Harmonic? ==> DelayNo(Harmonic(kind.base + 0x1_0000_0000_0000_0000), k) == DelayNo(kind, k)
  {
    assert (k + 0x1_0000_0000) % 0x1_0000_0000 == k % 0x1_0000_0000;
    if kind.Harmonic? {
      assert (kind.base + TWO_64) % TWO_64 == kind.base % TWO_64;
    }
  }

  /** A delay that panics makes all later ones panic, up to where the count no longer fits 32 bits. */
  lemma PanicsLast(kind: Kind, k: nat, n: nat)
    requires 1 <= k <= n < TWO_32 && DelayNo(kind, n).Some?
    ensures DelayNo(kind, k).Some?
  {
    match kind {
      case FixedInterval(_) =>
      case Fibonacci(_) =>
      case Harmonic(_) => assert Low32(k) == k;
      case Exponential(base, f) => PowerGrows(base, f, k, n);
      case Geometric(base, f) => PowerGrows(base, f, k, n);
      case Linear(base, step) => StepGrows(base, step, k, n);
      case Incremental(base, step) => StepGrows(base, step, k, n);
    }
  }

  /** Whether any delay of a request with m attempts can panic is decided by its last one. */
  lemma LastDelayDecides(kind: Kind, m: nat)
    requires m <= TWO_32
    ensures (forall k :: 1 <= k < m ==> DelayNo(kind, k).Some?) <==> (m <= 1 || DelayNo(kind, m - 1).Some?)
  {
    if m > 1 && DelayNo(kind, m - 1).Some? {
      forall k | 1 <= k < m
        ensures DelayNo(kind, k).Some?
      {
        PanicsLast(kind, k, m - 1);
      }
    }
  }

  /** The least and the greatest delay of call k before jitter; None if the call panics before. */
  function BaseRange(base: Base, k: nat): Option<(nat, nat)> {
    match base
    case RandomDelay(min, max) => if min >= max then None else Some((min * NANOS, max * NANOS - 1))
    case Steady(kind) =>
      match DelayNo(kind, k)
      case None => None
      case Some(d) => Some((d, d))
  }

  /** Jitter on a delay may panic: its bound is no positive Duration, or the largest draw makes the sum too long. */
  predicate JitterMayPanic(d: nat, factor: real) {
    var bound := JitterBound(d, factor);
    bound <= 0 || bound >= DURATION_LIMIT || d + bound - 1 >= DURATION_LIMIT
  }

  /** Whether call k may panic, without a random draw. */
  predicate MayPanic(s: Strategy, k: nat) {
    match BaseRange(s.base, k)
    case None => true
    case Some((lo, hi)) => s.jitter.Some? && (JitterMayPanic(lo, s.jitter.value) || JitterMayPanic(hi, s.jitter.value))
  }

  lemma BoundGrows(d: nat, e: nat, factor: real)
    requires d <= e && factor >= 0.0
    ensures JitterBound(d, factor) <= JitterBound(e, factor)
  {
    RealMulMono(d as real, e as real, factor);
  }

  lemma RealMulMono(a: real, b: real, c: real)
    requires a <= b && c >= 0.0
    ensures a * c <= b * c
  {
  }

  lemma RealMulNegative(a: real, c: real)
    requires a >= 0.0 && c <= 0.0
    ensures a * c <= 0.0
  {
  }

  /** A delay between two on which jitter is safe is safe. */
  lemma JitterSafeBetween(lo: nat, d: nat, hi: nat, factor: real)
    requires lo <= d <= hi && !JitterMayPanic(lo, factor) && !JitterMayPanic(hi, factor)
    ensures !JitterMayPanic(d, factor)
  {
    if factor < 0.0 {
      RealMulNegative(lo as real, factor);
      assert false;
    }
    BoundGrows(lo, d, factor);
    BoundGrows(d, hi, factor);
  }

  lemma SmallMod(x: nat, n: int)
    requires x < n
    ensures x % n == x
  {
  }

  lemma JitterPanics(d: nat, factor: real) returns (draw: nat)
    requires JitterMayPanic(d, factor)
    ensures Jittered(d, factor, draw).None?
  {
    var bound := JitterBound(d, factor);
    draw := if bound > 0 then bound - 1 else 0;
    if bound > 0 {
      SmallMod(draw, bound);
    }
  }

  lemma JitterSafe(d: nat, factor: real, draw: nat)
    requires !JitterMayPanic(d, factor)
    ensures Jittered(d, factor, draw).Some?
  {
    assert draw % JitterBound(d, factor) < JitterBound(d, factor);
  }

  /** The base delays of a call are those in its range. */
  lemma InRange(base: Base, k: nat, draw: nat)
    ensures BaseDelay(base, k, draw).None? <==> BaseRange(base, k).None?
    ensures BaseRange(base, k).Some? ==>
              BaseRange(base, k).value.0 <= BaseDelay(base, k, draw).value <= BaseRange(base, k).value.1
  {
  }

  lemma RangeEnds(base: Base, k: nat)
    requires BaseRange(base, k).Some?
    ensures BaseDelay(base, k, 0) == Some(BaseRange(base, k).value.0)
    ensures exists draw: nat :: BaseDelay(base, k, draw) == Some(BaseRange(base, k).value.1)
  {
    if base.RandomDelay? {
      var draw: nat := (base.max - base.min) * NANOS - 1;
      SmallMod(draw, (base.max - base.min) * NANOS);
      assert BaseDelay(base, k, draw) == Some(BaseRange(base, k).value.1);
    } else {
      assert BaseDelay(base, k, 0) == Some(BaseRange(base, k).value.1);
    }
  }

  /** Some draw makes call k panic exactly if its parameters say that it may. */
  lemma MayPanicExact(s: Strategy, k: nat)
    ensures MayPanic(s, k) <==> exists draws: Draws :: DelayOf(s, k, draws).None?
  {
    if !MayPanic(s, k) {
      forall draws: Draws
        ensures DelayOf(s, k, draws).Some?
      {
        InRange(s.base, k, draws.delay);
        if s.jitter.Some? {
          var (lo, hi) := BaseRange(s.base, k).value;
          var d := BaseDelay(s.base, k, draws.delay).value;
          JitterSafeBetween(lo, d, hi, s.jitter.value);
          JitterSafe(d, s.jitter.value, draws.jitter);
        }
      }
    } else if BaseRange(s.base, k).None? {
      InRange(s.base, k, 0);
      assert DelayOf(s, k, Draws(0, 0)).None?;
    } else {
      PanickingDraws(s, k);
    }
  }

  lemma PanickingDraws(s: Strategy, k: nat)
    requires MayPanic(s, k) && BaseRange(s.base, k).Some?
    ensures exists draws: Draws :: DelayOf(s, k, draws).None?
  {
    RangeEnds(s.base, k);
    var (lo, hi) := BaseRange(s.base, k).value;
    var factor := s.jitter.value;
    var first: nat := 0;
    var d := lo;
    if !JitterMayPanic(lo, factor) {
      first :| BaseDelay(s.base, k, first) == Some(hi);
      d := hi;
    }
    var draw := JitterPanics(d, factor);
    assert DelayOf(s, k, Draws(first, draw)).None?;
  }

  /** The delays that a call can come to before jitter. */
  predicate CanBe(base: Base, k: nat, d: nat) {
    match base
    case Steady(kind) => DelayNo(kind, k) == Some(d)
    case RandomDelay(min, max) => min * 1_000_000_000 <= d < max * 1_000_000_000
  }

  /** The delays that jitter makes of one: that delay itself up to, and not including, its sum with its multiple by the
      factor. */
  predicate CanBecome(d: nat, jitter: Option<real>, x: nat) {
    match jitter
    case None => x == d
    case Some(factor) =>
      var most := (d as real * factor).Floor;
      0 < most < DURATION_LIMIT && d <= x < d + most && x < DURATION_LIMIT
  }

  lemma BaseRangeExact(base: Base, k: nat, d: nat)
    ensures (exists draw: nat :: BaseDelay(base, k, draw) == Some(d)) <==> CanBe(base, k, d)
  {
    match base {
      case Steady(_) => assert BaseDelay(base, k, 0) == DelayNo(base.kind, k);
      case RandomDelay(min, max) =>
        if CanBe(base, k, d) {
          SmallMod(d - min * NANOS, (max - min) * NANOS);
          assert BaseDelay(base, k, d - min * NANOS) == Some(d);
        }
    }
  }

  function WithJitter(d: nat, jitter: Option<real>, draw: nat): Option<nat> {
    if jitter.None? then Some(d) else Jittered(d, jitter.value, draw)
  }

  lemma JitterRangeExact(d: nat, jitter: Option<real>, x: nat)
    ensures (exists draw: nat :: WithJitter(d, jitter, draw) == Some(x)) <==> CanBecome(d, jitter, x)
  {
    if CanBecome(d, jitter, x) {
      if jitter.Some? {
        SmallMod(x - d, JitterBound(d, jitter.value));
        assert WithJitter(d, jitter, x - d) == Some(x);
      } else {
        assert WithJitter(d, jitter, 0) == Some(x);
      }
    }
  }

  /** A call can come to exactly the delays that jitter makes of the base delays, each for some draws. */
  lemma DelaysExact(s: Strategy, k: nat, x: nat)
    ensures (exists draws: Draws :: DelayOf(s, k, draws) == Some(x)) <==>
              exists d: nat :: CanBe(s.base, k, d) && CanBecome(d, s.jitter, x)
  {
    if draws: Draws :| DelayOf(s, k, draws) == Some(x) {
      var d := BaseDelay(s.base, k, draws.delay).value;
      BaseRangeExact(s.base, k, d);
      JitterRangeExact(d, s.jitter, x);
      assert WithJitter(d, s.jitter, draws.jitter) == Some(x);
    }
    if d: nat :| CanBe(s.base, k, d) && CanBecome(d, s.jitter, x) {
      BaseRangeExact(s.base, k, d);
      JitterRangeExact(d, s.jitter, x);
      var first: nat :| BaseDelay(s.base, k, first) == Some(d);
      var second: nat :| WithJitter(d, s.jitter, second) == Some(x);
      assert DelayOf(s, k, Draws(first, second)) == Some(x);
    }
  }

  /** Without jitter a random delay panics in its first call or in none: exactly if its range of seconds is empty. */
  lemma RandomDelayPanics(min: nat, max: nat, k: nat)
    ensures MayPanic(Strategy(RandomDelay(min, max), None), k) <==> max <= min
  {
  }

  /** Whether some call of a request with m attempts may panic. */
  ghost predicate MayPanicWithin(s: Strategy, m: nat) {
    exists k :: 1 <= k < m && MayPanic(s, k)
  }

  /** Without jitter and up to 2^32 attempts the last call decides. */
  lemma LastCallDecides(base: Base, m: nat)
    requires m <= TWO_32
    ensures MayPanicWithin(Strategy(base, None), m) <==> m > 1 && MayPanic(Strategy(base, None), m - 1)
  {
    if base.Steady? {
      LastDelayDecides(base.kind, m);
    }
  }

  // ------------------------------------------------------------------------------------------------
  // Default parameters

  /** The waits of a configuration that names nothing but its base delay, as long as the last one fits a Duration:
      powers of two for the exponential strategies, a step of the base itself for Linear and of one second for
      Incremental. */
  lemma DefaultTotals(c: RetryConfig, n: nat, kind: Kind)
    requires c.factor.None? && c.stepDelaySeconds.None? && ToBase(c) == Steady(kind) && n < TWO_32
    ensures
      var base := c.baseDelaySeconds * NANOS;
      && (c.strategy == "ExponentialBackoff" || c.strategy == "GeometricBackoff" ==>
            base * Pow(2, n) < DURATION_LIMIT ==> TotalDelay(kind, n) == Some(base * (Pow(2, n + 1) - 2)))
      && (c.strategy == "LinearBackoff" ==>
            base + base * n < DURATION_LIMIT ==> TotalDelay(kind, n) == Some(n * base + base * (n * (n + 1) / 2)))
      && (c.strategy == "IncrementalBackoff" ==>
            base + NANOS * n < DURATION_LIMIT ==> TotalDelay(kind, n) == Some(n * base + NANOS * (n * (n + 1) / 2)))
  {
    var base := c.baseDelaySeconds * NANOS;
    PowMono(2, n);
    match c.strategy {
      case "LinearBackoff" =>
        if base + base * n < DURATION_LIMIT {
          LinearTotal(base, base, n);
        }
      case "IncrementalBackoff" =>
        if base + NANOS * n < DURATION_LIMIT {
          LinearTotal(base, NANOS, n);
        }
      case _ =>
        if base * Pow(2, n) < DURATION_LIMIT {
          ExponentialTotal(base, 2, n);
        }
    }
  }

  /** n waits of the same length. */
  lemma {:induction false} FixedTotal(base: nat, n: nat)
    ensures TotalDelay(FixedInterval(base), n) == Some(n * base)
    decreases n
  {
    if n > 0 {
      FixedTotal(base, n - 1);
      MulStep(n - 1, base);
    }
  }

  /** The waits that each configuration comes to, as long as the last one fits: a factor of two and a step of the
      base, or of one second for Incremental, where none is configured, and a fixed interval under any other name. */
  ghost predicate TotalsAs(c: RetryConfig, n: nat, kind: Kind) {
    var s := c.baseDelaySeconds;
    var f := match c.factor case Some(x) => x case None => 2;
    var step := match c.stepDelaySeconds case Some(x) => x case None => s;
    var increment := match c.stepDelaySeconds case Some(x) => x case None => 1;
    var total := TotalDelay(kind, n);
    && (c.strategy == "ExponentialBackoff" || c.strategy == "GeometricBackoff" ==>
          f >= 2 && s * NANOS * Pow(f, n) < DURATION_LIMIT ==>
            total.Some? && total.value * (f - 1) == s * NANOS * (Pow(f, n + 1) - f))
    && (c.strategy == "LinearBackoff" ==>
          s * NANOS + step * NANOS * n < DURATION_LIMIT ==>
            total == Some(n * (s * NANOS) + step * NANOS * (n * (n + 1) / 2)))
    && (c.strategy == "IncrementalBackoff" ==>
          s * NANOS + increment * NANOS * n < DURATION_LIMIT ==>
            total == Some(n * (s * NANOS) + increment * NANOS * (n * (n + 1) / 2)))
    && (c.strategy == "FibonacciBackoff" ==>
          s * Fib(n) < TWO_64 ==> total == Some(s * (Fib(n + 2) - 1) * NANOS))
    && (c.strategy == "HarmonicBackoff" ==>
          s * NANOS < TWO_64 ==> total == Some(HarmonicSum(s * NANOS, 0, n)))
    && (!NamesGrowth(c.strategy) ==> total == Some(n * (s * NANOS)))
  }

  predicate NamesGrowth(name: string) {
    || name == "ExponentialBackoff" || name == "GeometricBackoff" || name == "LinearBackoff"
    || name == "IncrementalBackoff" || name == "FibonacciBackoff" || name == "HarmonicBackoff"
  }

  lemma ConfiguredTotals(c: RetryConfig, n: nat, kind: Kind)
    requires ToPlan(c).base == Steady(kind) && n < TWO_32
    ensures TotalsAs(c, n, kind)
  {
    match kind {
      case FixedInterval(base) => FixedTotal(base, n);
      case Exponential(base, f) => ConfiguredSeries(base, f, n);
      case Geometric(base, f) => ConfiguredSeries(base, f, n);
      case Linear(base, step) => ConfiguredSteps(base, step, n);
      case Incremental(base, step) => ConfiguredSteps(base, step, n);
      case Fibonacci(_) => ConfiguredFibonacci(c.baseDelaySeconds, n);
      case Harmonic(base) => ConfiguredHarmonic(base, n);
    }
  }

  lemma ConfiguredSteps(base: nat, step: nat, n: nat)
    requires n < TWO_32
    ensures base + step * n < DURATION_LIMIT ==>
              var total := Some(n * base + step * (n * (n + 1) / 2));
              TotalDelay(Linear(base, step), n) == total && TotalDelay(Incremental(base, step), n) == total
  {
    if base + step * n < DURATION_LIMIT {
      LinearTotal(base, step, n);
    }
  }

  lemma ConfiguredFibonacci(seconds: nat, n: nat)
    ensures seconds * Fib(n) < TWO_64 ==>
              TotalDelay(Fibonacci(seconds * NANOS), n) == Some(seconds * (Fib(n + 2) - 1) * NANOS)
  {
    if seconds * Fib(n) < TWO_64 {
      FibonacciTotal(seconds, n);
    }
  }

  lemma ConfiguredHarmonic(base: nat, n: nat)
    requires n < TWO_32
    ensures base < TWO_64 ==> TotalDelay(Harmonic(base), n) == Some(HarmonicSum(base, 0, n))
  {
    if base < TWO_64 {
      HarmonicTotal(base, n);
    }
  }

  lemma ConfiguredSeries(base: nat, f: nat, n: nat)
    ensures f >= 2 && base * Pow(f, n) < DURATION_LIMIT ==>
              var total := TotalDelay(Exponential(base, f), n);
              && total.Some? && total.value * (f - 1) == base * (Pow(f, n + 1) - f)
              && TotalDelay(Geometric(base, f), n) == total
  {
    if f >= 2 && base * Pow(f, n) < DURATION_LIMIT {
      ExponentialTotal(base, f, n);
    }
  }

  /** A configured random delay comes to any delay between its two bounds, twice the base in 64 bits where no upper
      one is configured, and to no other; with jitter to what jitter makes of these. */
  lemma ConfiguredRandomDelay(c: RetryConfig, k: nat, x: nat)
    requires c.strategy == "RandomDelay"
    ensures
      var doubled := c.baseDelaySeconds * 2 % 0x1_0000_0000_0000_0000;
      var upper := match c.stepDelaySeconds case Some(u) => u case None => doubled;
      (exists draws: Draws :: DelayOf(ToPlan(c), k, draws) == Some(x)) <==>
        exists d: nat ::
          CanBe(RandomDelay(c.baseDelaySeconds, upper), k, d) && CanBecome(d, c.jitterFactor, x)
  {
    DelaysExact(ToPlan(c), k, x);
  }
}
