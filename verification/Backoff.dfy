/** The retry strategies: how long each one waits before the next attempt.
    Durations are natural numbers of nanoseconds; 64-bit arithmetic wraps around as in a release build. */
module Backoff {
  import opened Options
  import opened Units

  /** The first number of nanoseconds a Duration cannot hold. */
  const DURATION_LIMIT: nat := TWO_64 * NANOS

  /** The parameters of a strategy; factors are whole numbers. */
  datatype Kind =
    | FixedInterval(base: nat)
    | Exponential(base: nat, factor: nat)
    | Linear(base: nat, step: nat)
    | Incremental(base: nat, step: nat)
    | Fibonacci(base: nat)
    | Geometric(base: nat, factor: nat)
    | Harmonic(base: nat)

  function Fib(n: nat): nat {
    if n < 2 then n else Fib(n - 2) + Fib(n - 1)
  }

  function Pow(f: nat, n: nat): nat {
    if n == 0 then 1 else f * Pow(f, n - 1)
  }

  /** The cast of a count to 32 bits. */
  function Low32(k: nat): nat {
    k % TWO_32
  }

  /** A 64-bit result. */
  function Wrap64(x: nat): nat {
    x % TWO_64
  }

  function PowerDelay(base: nat, f: nat, k: nat): nat {
    base * Pow(f, k)
  }

  function StepDelay(base: nat, step: nat, k: nat): nat {
    base + step * Low32(k)
  }

  function FibonacciDelay(base: nat, k: nat): nat {
    Wrap64(base / NANOS * Fib(k)) * NANOS
  }

  function HarmonicDelay(base: nat, k: nat): Option<nat> {
    if Low32(k) == 0 then None else Some(Wrap64(base) / Low32(k))
  }

  /** The k-th delay (from 1), or None where the call panics: a Duration overflows, or the 32-bit divisor is zero. */
  function DelayNo(kind: Kind, k: nat): Option<nat> {
    match kind
    case FixedInterval(base) => Some(base)
    case Exponential(base, f) => Fits(PowerDelay(base, f, k))
    case Geometric(base, f) => Fits(PowerDelay(base, f, k))
    case Linear(base, step) => Fits(StepDelay(base, step, k))
    case Incremental(base, step) => Fits(StepDelay(base, step, k))
    case Fibonacci(base) => Some(FibonacciDelay(base, k))
    case Harmonic(base) => HarmonicDelay(base, k)
  }

  function Fits(d: nat): Option<nat> {
    if d < DURATION_LIMIT then Some(d) else None
  }

  /** The sum of the first n delays, if none of them panics. */
  function TotalDelay(kind: Kind, n: nat): Option<nat> {
    if n == 0 then Some(0)
    else match TotalDelay(kind, n - 1)
      case None => None
      case Some(before) =>
        match DelayNo(kind, n)
        case None => None
        case Some(d) => Some(before + d)
  }

  // ------------------------------------------------------------------------------------------------
  // Random draws

  /** What a strategy delays by before jitter; a random delay lies between two numbers of whole seconds. */
  datatype Base =
    | Steady(kind: Kind)
    | RandomDelay(min: nat, max: nat)

  /** A configured strategy, with the factor of its jitter if it has one. */
  datatype Strategy = Strategy(base: Base, jitter: Option<real>)

  /** The random numbers that one call draws. */
  datatype Draws = Draws(delay: nat, jitter: nat)

  /** A random delay; None for the panic on an empty range. */
  function RandomSeconds(min: nat, max: nat, draw: nat): Option<nat> {
    if min >= max then None else Some(min * NANOS + draw % ((max - min) * NANOS))
  }

  function BaseDelay(base: Base, k: nat, draw: nat): Option<nat> {
    match base
    case Steady(kind) => DelayNo(kind, k)
    case RandomDelay(min, max) => RandomSeconds(min, max, draw)
  }

  /** The bound that jitter stays below, in whole nanoseconds. */
  function JitterBound(d: nat, factor: real): int {
    (d as real * factor).Floor
  }

  /** A delay with jitter. It panics if the bound is negative or no Duration, if the range up to the bound is empty, and
      if the sum is no Duration. */
  function Jittered(d: nat, factor: real, draw: nat): Option<nat> {
    var bound := JitterBound(d, factor);
    if bound <= 0 || bound >= DURATION_LIMIT then None else Fits(d + draw % bound)
  }

  /** The delay of call k, from 1; None where the call panics. */
  function DelayOf(s: Strategy, k: nat, draws: Draws): Option<nat> {
    match BaseDelay(s.base, k, draws.delay)
    case None => None
    case Some(d) => if s.jitter.None? then Some(d) else Jittered(d, s.jitter.value, draws.jitter)
  }

  // ------------------------------------------------------------------------------------------------
  // The strategies as objects

  /** A boxed strategy: its parameters, and the fields that the kinds advance in place. */
  class RetryStrategy {
    const plan: Strategy
    const maxAttempts: nat
    var currentAttempt: nat  // every kind but FixedInterval and Fibonacci
    var current: nat         // Fibonacci
    var next: nat            // Fibonacci
    ghost var calls: nat

    ghost predicate Valid()
      reads this
    {
      if plan.base.Steady? && plan.base.kind.Fibonacci? then
        current == Wrap64(Fib(calls + 1)) && next == Wrap64(Fib(calls + 2))
      else currentAttempt == calls + 1
    }

    constructor (plan: Strategy, maxAttempts: nat)
      ensures Valid() && calls == 0
      ensures this.plan == plan && this.maxAttempts == maxAttempts
    {
      this.plan, this.maxAttempts := plan, maxAttempts;
      currentAttempt, current, next, calls := 1, 1, 1, 0;
    }

    /** One call: the delay, or None for a panic. */
    method Delay(draws: Draws) returns (d: Option<nat>)
      requires Valid()
      modifies this
      ensures Valid()
      ensures d == DelayOf(plan, old(calls) + 1, draws)
      ensures d.Some? ==> calls == old(calls) + 1
    {
      match plan.base {
        case Steady(_) => d := KindDelay();
        case RandomDelay(min, max) => d := RandomSeconds(min, max, draws.delay);
      }
      if d.Some? {
        Advance();
        if plan.jitter.Some? {
          d := Jittered(d.value, plan.jitter.value, draws.jitter);
        }
      }
    }

    /** The delay of a strategy that draws no random numbers. */
    method KindDelay() returns (d: Option<nat>)
      requires Valid() && plan.base.Steady?
      ensures d == DelayNo(plan.base.kind, calls + 1)
    {
      match plan.base.kind {
        case FixedInterval(base) =>
          d := Some(base);
        case Exponential(base, f) =>
          d := Fits(PowerDelay(base, f, currentAttempt));
        case Geometric(base, f) =>
          d := Fits(PowerDelay(base, f, currentAttempt));
        case Linear(base, step) =>
          d := Fits(StepDelay(base, step, currentAttempt));
        case Incremental(base, step) =>
          d := Fits(StepDelay(base, step, currentAttempt));
        case Fibonacci(base) =>
          d := FibonacciSeconds(base);
        case Harmonic(base) =>
          d := HarmonicNanos(base);
      }
    }

    method FibonacciSeconds(base: nat) returns (d: Option<nat>)
      requires Valid() && plan.base == Steady(Fibonacci(base))
      ensures d == Some(FibonacciDelay(base, calls + 1))
    {
      var delaySeconds := Wrap64(base / NANOS * current);
      WrapMul(base / NANOS, Fib(calls + 1));
      d := Some(delaySeconds * NANOS);
    }

    method HarmonicNanos(base: nat) returns (d: Option<nat>)
      requires Valid() && plan.base == Steady(Harmonic(base))
      ensures d == HarmonicDelay(base, calls + 1)
    {
      var divisor := Low32(currentAttempt);
      var totalNanos := Wrap64(base / NANOS * NANOS + base % NANOS);
      if divisor == 0 {
        d := None;
      } else {
        var perAttempt := totalNanos / divisor;
        d := Some(perAttempt / NANOS * NANOS + perAttempt % NANOS);
      }
    }

    method Advance()
      requires Valid()
      modifies this
      ensures Valid() && calls == old(calls) + 1
    {
      if plan.base.Steady? && plan.base.kind.Fibonacci? {
        WrapAdd(Fib(calls + 1), Fib(calls + 2));
        current, next := next, Wrap64(current + next);
      } else {
        currentAttempt := currentAttempt + 1;
      }
      calls := calls + 1;
    }
  }

  lemma WrapAdd(a: nat, b: nat)
    ensures Wrap64(Wrap64(a) + Wrap64(b)) == Wrap64(a + b)
  {
  }

  /** Wrapping a factor first does not change a wrapped product. */
  lemma WrapMul(s: nat, a: nat)
    ensures Wrap64(s * Wrap64(a)) == Wrap64(s * a)
  {
    var q, r := a / TWO_64, Wrap64(a);
    assert s * a == s * r + s * q * TWO_64 by {
      assert a == q * TWO_64 + r;
    }
    assert (s * r + s * q * TWO_64) % TWO_64 == (s * r) % TWO_64;
  }

  // ------------------------------------------------------------------------------------------------
  // Configuration

  datatype RetryConfig = RetryConfig(
    strategy: string,
    baseDelaySeconds: nat,
    maxAttempts: nat,
    factor: Option<nat>,
    stepDelaySeconds: Option<nat>,
    jitterFactor: Option<real>)

  function OrElse<T>(o: Option<T>, default: T): T {
    if o.Some? then o.value else default
  }

  /** The strategy that a configuration names. The default upper bound of a random delay is twice the lower one, in 64
      bits. */
  function ToPlan(c: RetryConfig): Strategy {
    Strategy(ToBase(c), c.jitterFactor)
  }

  function ToBase(c: RetryConfig): Base {
    var base := c.baseDelaySeconds * NANOS;
    match c.strategy
    case "ExponentialBackoff" => Steady(Exponential(base, OrElse(c.factor, 2)))
    case "LinearBackoff" => Steady(Linear(base, OrElse(c.stepDelaySeconds, c.baseDelaySeconds) * NANOS))
    case "FixedInterval" => Steady(FixedInterval(base))
    case "RandomDelay" =>
      RandomDelay(c.baseDelaySeconds, OrElse(c.stepDelaySeconds, Wrap64(c.baseDelaySeconds * 2)))
    case "IncrementalBackoff" => Steady(Incremental(base, OrElse(c.stepDelaySeconds, 1) * NANOS))
    case "FibonacciBackoff" => Steady(Fibonacci(base))
    case "GeometricBackoff" => Steady(Geometric(base, OrElse(c.factor, 2)))
    case "HarmonicBackoff" => Steady(Harmonic(base))
    case _ => Steady(FixedInterval(base))
  }

  /** A fresh strategy for a configuration. */
  method ToStrategy(c: RetryConfig) returns (s: RetryStrategy)
    ensures fresh(s) && s.Valid() && s.calls == 0
    ensures s.plan == ToPlan(c) && s.maxAttempts == c.maxAttempts
  {
    s := new RetryStrategy(ToPlan(c), c.maxAttempts);
  }
}
