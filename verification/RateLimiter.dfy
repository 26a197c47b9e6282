/** The token bucket: a counter that a refill task raises and requests lower. Instants and durations are natural numbers
    of nanoseconds. */
module RateLimiters {
  import opened Numerics
  import opened Options
  import opened Units

  datatype Config = Config(capacity: nat, burstCapacity: nat, maxRate: nat, period: nat)

  /** The most tokens a bucket holds. */
  function Burst(c: Config): nat {
    c.capacity + c.burstCapacity
  }

  /** The time between refills: the period divided by max_rate cast to 32 bits. None where there is none: a divisor of
      zero panics when the limiter is created, and a quotient of zero panics in the timer of the refill task. */
  function Interval(c: Config): Option<nat> {
    if Divisor(c) == 0 || c.period / Divisor(c) == 0 then None else Some(c.period / Divisor(c))
  }

  /** The rate that the refill task uses: max_rate itself if it fits 32 bits. */
  function Divisor(c: Config): nat {
    c.maxRate % TWO_32
  }

  /** Dividing a Duration field by field, seconds first and their remainder as nanoseconds, rounds the whole down. */
  lemma DurationDivision(secs: nat, nanos: nat, divisor: nat)
    requires divisor > 0 && nanos < NANOS
    ensures
      var carry := secs % divisor;
      secs / divisor * NANOS + (nanos / divisor + (carry * NANOS + nanos % divisor) / divisor)
      == (secs * NANOS + nanos) / divisor
  {
    var q, carry := secs / divisor, secs % divisor;
    var n, m := nanos / divisor, nanos % divisor;
    var e := (carry * NANOS + m) / divisor;
    assert secs == q * divisor + carry && nanos == n * divisor + m;
    assert e * divisor <= carry * NANOS + m < e * divisor + divisor;
    var x := q * NANOS + n + e;
    assert x * divisor == q * divisor * NANOS + n * divisor + e * divisor by {
      assert (q * NANOS + n + e) * divisor == q * NANOS * divisor + n * divisor + e * divisor;
      assert q * NANOS * divisor == q * divisor * NANOS;
    }
    assert secs * NANOS == q * divisor * NANOS + carry * NANOS;
    DivUnique(x, divisor, secs * NANOS + nanos);
  }

  datatype Event = Tick | Acquire

  /** What an event turned out to be. */
  datatype Outcome = Refilled | Granted | Denied

  function OutcomeOf(tokens: nat, e: Event): Outcome {
    match e
    case Tick => Refilled
    case Acquire => if tokens > 0 then Granted else Denied
  }

  function TokensAfter(c: Config, tokens: nat, o: Outcome): nat
    requires o.Granted? ==> tokens > 0
  {
    match o
    case Refilled => if tokens + 1 <= Burst(c) then tokens + 1 else Burst(c)
    case Granted => tokens - 1
    case Denied => tokens
  }

  // ------------------------------------------------------------------------------------------------
  // Runs

  /** What the events of a run turned out to be, from a full bucket. */
  function Outcomes(c: Config, es: seq<Event>): (os: seq<Outcome>)
    ensures |os| == |es|
  {
    if es == [] then []
    else
      var before := es[..|es| - 1];
      Outcomes(c, before) + [OutcomeOf(Tokens(c, before), es[|es| - 1])]
  }

  function Tokens(c: Config, es: seq<Event>): nat {
    if es == [] then Burst(c)
    else
      var before := es[..|es| - 1];
      TokensAfter(c, Tokens(c, before), OutcomeOf(Tokens(c, before), es[|es| - 1]))
  }

  function Grants(os: seq<Outcome>): nat {
    if os == [] then 0
    else Grants(os[..|os| - 1]) + if os[|os| - 1].Granted? then 1 else 0
  }

  function Refills(os: seq<Outcome>): nat {
    if os == [] then 0
    else Refills(os[..|os| - 1]) + if os[|os| - 1].Refilled? then 1 else 0
  }

  /** What a window of outcomes still allows: the burst and the window's refills, less its grants. */
  function Allowance(c: Config, os: seq<Outcome>): int {
    Burst(c) + Refills(os) - Grants(os)
  }

  /** A count that is the least allowance over all windows ending now. */
  ghost predicate LeastAllowance(c: Config, os: seq<Outcome>, tokens: int) {
    && (forall j :: 0 <= j <= |os| ==> tokens <= Allowance(c, os[j..]))
    && (exists j :: 0 <= j <= |os| && tokens == Allowance(c, os[j..]))
  }

  lemma SuffixStep(os: seq<Outcome>, o: Outcome, j: nat)
    requires j <= |os|
    ensures (os + [o])[j..] == os[j..] + [o]
    ensures (os + [o])[j..][..|os| - j] == os[j..]
  {
  }

  /** The counter implements the sliding windows: after any events it is the least allowance over all windows that end
      now. */
  lemma {:induction false} TokensAreLeastAllowance(c: Config, es: seq<Event>)
    ensures LeastAllowance(c, Outcomes(c, es), Tokens(c, es))
    decreases |es|
  {
    if es == [] {
      assert Allowance(c, Outcomes(c, es)[0..]) == Burst(c);
    } else {
      var before := es[..|es| - 1];
      TokensAreLeastAllowance(c, before);
      var o := OutcomeOf(Tokens(c, before), es[|es| - 1]);
      LeastAllowanceStep(c, Outcomes(c, before), Tokens(c, before), o);
    }
  }

  lemma LeastAllowanceStep(c: Config, os: seq<Outcome>, tokens: nat, o: Outcome)
    requires LeastAllowance(c, os, tokens) && (o.Granted? ==> tokens > 0)
    ensures LeastAllowance(c, os + [o], TokensAfter(c, tokens, o))
  {
    var after := TokensAfter(c, tokens, o);
    var delta := if o.Refilled? then 1 else if o.Granted? then -1 else 0;
    var os' := os + [o];
    assert os[|os|..] == [] && os'[|os'|..] == [];
    assert tokens <= Burst(c);
    forall j | 0 <= j <= |os'|
      ensures after <= Allowance(c, os'[j..])
      ensures j <= |os| ==> Allowance(c, os'[j..]) == Allowance(c, os[j..]) + delta
    {
      if j <= |os| {
        SuffixStep(os, o, j);
      }
    }
    var w :| 0 <= w <= |os| && tokens == Allowance(c, os[w..]);
    if o.Refilled? && tokens == Burst(c) {
      assert after == Allowance(c, os'[|os'|..]);
    } else {
      assert after == Allowance(c, os'[w..]);
    }
  }

  lemma {:induction false} OutcomesPrefix(c: Config, es: seq<Event>, k: nat)
    requires k <= |es|
    ensures Outcomes(c, es)[..k] == Outcomes(c, es[..k])
    decreases |es|
  {
    if k == |es| {
      assert es[..k] == es;
    } else {
      var before := es[..|es| - 1];
      OutcomesPrefix(c, before, k);
      assert before[..k] == es[..k];
    }
  }

  /** Every window of every run grants at most the burst plus its own refills. */
  lemma WindowBound(c: Config, es: seq<Event>, i: nat, j: nat)
    requires i <= j <= |es|
    ensures Grants(Outcomes(c, es)[i..j]) <= Burst(c) + Refills(Outcomes(c, es)[i..j])
  {
    OutcomesPrefix(c, es, j);
    TokensAreLeastAllowance(c, es[..j]);
    assert Outcomes(c, es)[i..j] == Outcomes(c, es[..j])[i..];
    assert Tokens(c, es[..j]) <= Allowance(c, Outcomes(c, es[..j])[i..]);
  }

  /** Some window ending now has used up the burst and its own refills. */
  ghost predicate Saturated(c: Config, os: seq<Outcome>) {
    exists j :: 0 <= j <= |os| && Grants(os[j..]) == Burst(c) + Refills(os[j..])
  }

  /** A request is denied exactly when granting it would break the bound of some window ending now: no limiter that
      keeps the windows could have granted it, and this one grants whenever it can. */
  lemma DeniedIffSaturated(c: Config, es: seq<Event>)
    ensures OutcomeOf(Tokens(c, es), Acquire) == Denied <==> Saturated(c, Outcomes(c, es))
  {
    TokensAreLeastAllowance(c, es);
    var os := Outcomes(c, es);
    if Tokens(c, es) == 0 {
      var j :| 0 <= j <= |os| && 0 == Allowance(c, os[j..]);
      assert Grants(os[j..]) == Burst(c) + Refills(os[j..]);
    }
    if Saturated(c, os) {
      var j :| 0 <= j <= |os| && Grants(os[j..]) == Burst(c) + Refills(os[j..]);
      assert Tokens(c, es) <= Allowance(c, os[j..]);
    }
  }

  /** A limiter, together with the events it has seen. */
  class RateLimiter {
    const config: Config
    var tokens: nat
    var lastRefill: nat
    var lastAcquire: nat
    ghost var history: seq<Event>

    ghost predicate Valid()
      reads this
    {
      tokens == Tokens(config, history)
    }

    constructor (config: Config, now: nat)
      ensures this.config == config && Valid() && history == []
    {
      this.config := config;
      tokens, lastRefill, lastAcquire := config.capacity + config.burstCapacity, now, now;
      history := [];
    }

    /** None where creating the limiter panics: the configuration is refused, or max_rate is a multiple of 2^32. */
    static method New(config: Config, now: nat) returns (limiter: Option<RateLimiter>)
      ensures limiter.None? <==> config.capacity == 0 || config.maxRate % TWO_32 == 0
      ensures limiter.Some? ==>
                && fresh(limiter.value) && limiter.value.config == config
                && limiter.value.Valid() && limiter.value.history == []
    {
      if config.capacity == 0 || config.maxRate == 0 {
        return None;
      }
      var l := new RateLimiter(config, now);
      if Divisor(config) == 0 {
        return None;
      }
      limiter := Some(l);
    }

    /** One round of the refill task. */
    method Refill(now: nat)
      requires Valid()
      modifies this
      ensures Valid() && history == old(history) + [Tick]
      ensures lastRefill == now && lastAcquire == old(lastAcquire)
    {
      tokens := if tokens + 1 <= config.capacity + config.burstCapacity
      then tokens + 1 else config.capacity + config.burstCapacity;
      lastRefill := now;
      history := history + [Tick];
      assert history[..|history| - 1] == old(history);
    }

    /** Grants the request unless some window ending now has used up the burst and its own refills. */
    method Acquire(now: nat) returns (ok: bool)
      requires Valid()
      modifies this
      ensures Valid() && history == old(history) + [Event.Acquire]
      ensures ok <==> !Saturated(config, Outcomes(config, old(history)))
      ensures lastAcquire == (if ok then now else old(lastAcquire)) && lastRefill == old(lastRefill)
    {
      DeniedIffSaturated(config, history);
      if tokens > 0 {
        tokens := tokens - 1;
        lastAcquire := now;
        ok := true;
      } else {
        ok := false;
      }
      history := history + [Event.Acquire];
      assert history[..|history| - 1] == old(history);
    }
  }

  // ------------------------------------------------------------------------------------------------
  // Time

  /** When each event happened. Refill n (from 0) is due n intervals after the start and never comes early; events
      are in the order of their instants. */
  ghost predicate Timed(start: nat, interval: nat, es: seq<Event>, at: seq<nat>) {
    && |at| == |es|
    && (forall i, j :: 0 <= i < j < |at| ==> at[i] <= at[j])
    && (forall i :: 0 <= i < |es| && es[i].Tick? ==> at[i] >= start + Ticks(es[..i]) * interval)
  }

  function Ticks(es: seq<Event>): nat {
    if es == [] then 0
    else Ticks(es[..|es| - 1]) + if es[|es| - 1].Tick? then 1 else 0
  }

  lemma {:induction false} RefillsAreTicks(c: Config, es: seq<Event>)
    ensures Refills(Outcomes(c, es)) == Ticks(es)
    decreases |es|
  {
    if es != [] {
      RefillsAreTicks(c, es[..|es| - 1]);
      var os := Outcomes(c, es);
      assert os[..|os| - 1] == Outcomes(c, es[..|es| - 1]);
    }
  }

  /** By the time `elapsed` after the start at most elapsed / interval + 1 refills have happened. */
  lemma {:induction false} TicksByTime(start: nat, interval: nat, es: seq<Event>, at: seq<nat>, elapsed: nat)
    requires interval > 0 && Timed(start, interval, es, at)
    requires forall i :: 0 <= i < |at| ==> at[i] <= start + elapsed
    ensures Ticks(es) <= elapsed / interval + 1
    decreases |es|
  {
    if es != [] {
      var n := |es| - 1;
      assert forall i :: 0 <= i < n ==> es[..n][..i] == es[..i];
      if es[n].Tick? {
        DivLower(Ticks(es[..n]), interval, elapsed);
      } else {
        TicksByTime(start, interval, es[..n], at[..n], elapsed);
      }
    }
  }

  /** floor(k * period / interval), split into the configured rate and the drift from rounding the interval down. */
  lemma PeriodsInIntervals(k: nat, period: nat, rate: nat, interval: nat, r: nat)
    requires interval > 0 && period == interval * rate + r
    ensures k * period / interval == k * rate + k * r / interval
  {
    var q := k * r / interval;
    assert q * interval <= k * r < q * interval + interval;
    assert k * period == k * rate * interval + k * r by {
      assert k * (interval * rate + r) == k * (interval * rate) + k * r;
      assert k * (interval * rate) == k * rate * interval;
    }
    assert (k * rate + q) * interval == k * rate * interval + q * interval;
    DivUnique(k * rate + q, interval, k * period);
  }

  /** The long-run rate: in the first k periods a limiter grants at most its burst, k times the configured rate, one
      refill at the very start, and the drift of k * (period mod rate) / interval refills. There is no drift in the
      first period when the rate is at most the interval. */
  lemma LongRunRate(c: Config, start: nat, es: seq<Event>, at: seq<nat>, k: nat)
    requires Interval(c).Some? && Timed(start, Interval(c).value, es, at)
    requires forall i :: 0 <= i < |at| ==> at[i] <= start + k * c.period
    ensures
      var rate := Divisor(c);
      var drift := k * (c.period % rate) / Interval(c).value;
      && Grants(Outcomes(c, es)) <= Burst(c) + k * rate + drift + 1
      && (k == 1 && rate <= Interval(c).value ==> drift == 0)
      && (c.maxRate < TWO_32 ==> rate == c.maxRate)
  {
    var rate, interval := Divisor(c), Interval(c).value;
    TicksByTime(start, interval, es, at, k * c.period);
    assert c.period == interval * rate + c.period % rate;
    PeriodsInIntervals(k, c.period, rate, interval, c.period % rate);
    GrantsByTicks(c, es);
    if k == 1 && rate <= interval {
      NoDrift(c.period, rate, interval);
    }
  }

  lemma NoDrift(period: nat, rate: nat, interval: nat)
    requires 0 < rate <= interval
    ensures 1 * (period % rate) / interval == 0
  {
    DivUnique(0, interval, period % rate);
  }

  lemma GrantsByTicks(c: Config, es: seq<Event>)
    ensures Grants(Outcomes(c, es)) <= Burst(c) + Ticks(es)
  {
    WindowBound(c, es, 0, |es|);
    RefillsAreTicks(c, es);
    assert Outcomes(c, es)[0..|es|] == Outcomes(c, es);
  }

  /** Refills happen only if the timer of the refill task could be set up. */
  ghost predicate Possible(c: Config, es: seq<Event>) {
    Tick in es ==> Interval(c).Some?
  }

  /** A limiter that could be created grants no more than its burst, ever, exactly if its period is shorter in
      nanoseconds than its rate: the interval then rounds to zero and the refill task dies. */
  lemma NoRefillsNoGrants(c: Config)
    requires c.capacity > 0 && Divisor(c) > 0
    ensures (forall es :: Possible(c, es) ==> Grants(Outcomes(c, es)) <= Burst(c)) <==> c.period < Divisor(c)
  {
    if c.period < Divisor(c) {
      DivUnique(0, Divisor(c), c.period);
      forall es | Possible(c, es)
        ensures Grants(Outcomes(c, es)) <= Burst(c)
      {
        WithoutTicks(c, es);
      }
    } else {
      DivLower(1, Divisor(c), c.period);
      OneMoreGrant(c);
      assert Possible(c, Acquires(Burst(c)) + [Tick, Acquire]);
    }
  }

  lemma WithoutTicks(c: Config, es: seq<Event>)
    requires Tick !in es
    ensures Grants(Outcomes(c, es)) <= Burst(c)
  {
    GrantsByTicks(c, es);
    NoTicks(es);
  }

  lemma {:induction false} NoTicks(es: seq<Event>)
    requires Tick !in es
    ensures Ticks(es) == 0
    decreases |es|
  {
    if es != [] {
      NoTicks(es[..|es| - 1]);
    }
  }

  function Acquires(n: nat): (es: seq<Event>)
    ensures |es| == n
  {
    if n == 0 then [] else Acquires(n - 1) + [Acquire]
  }

  lemma OutcomesSnoc(c: Config, es: seq<Event>, e: Event)
    ensures Tokens(c, es + [e]) == TokensAfter(c, Tokens(c, es), OutcomeOf(Tokens(c, es), e))
    ensures Grants(Outcomes(c, es + [e]))
            == Grants(Outcomes(c, es)) + if OutcomeOf(Tokens(c, es), e).Granted? then 1 else 0
  {
    assert (es + [e])[..|es|] == es;
    var os := Outcomes(c, es + [e]);
    assert os[..|os| - 1] == Outcomes(c, es);
  }

  lemma {:induction false} AcquiresGranted(c: Config, n: nat)
    requires n <= Burst(c)
    ensures Tokens(c, Acquires(n)) == Burst(c) - n && Grants(Outcomes(c, Acquires(n))) == n
  {
    if n > 0 {
      AcquiresGranted(c, n - 1);
      OutcomesSnoc(c, Acquires(n - 1), Acquire);
    }
  }

  lemma {:induction false} AcquiresDenied(c: Config, n: nat)
    requires n >= Burst(c)
    ensures Tokens(c, Acquires(n)) == 0 && Grants(Outcomes(c, Acquires(n))) == Burst(c)
    decreases n
  {
    if n == Burst(c) {
      AcquiresGranted(c, n);
    } else {
      AcquiresDenied(c, n - 1);
      OutcomesSnoc(c, Acquires(n - 1), Acquire);
    }
  }

  /** A new limiter grants its first capacity + burst_capacity requests and denies all further ones until a refill. */
  lemma FirstGrants(c: Config, n: nat)
    ensures Grants(Outcomes(c, Acquires(n)))
            == if n <= c.capacity + c.burstCapacity then n else c.capacity + c.burstCapacity
  {
    if n <= Burst(c) {
      AcquiresGranted(c, n);
    } else {
      AcquiresDenied(c, n);
    }
  }

  /** The whole burst, a refill, and a grant of the refilled token. */
  lemma OneMoreGrant(c: Config)
    requires c.capacity > 0
    ensures Grants(Outcomes(c, Acquires(Burst(c)) + [Tick, Acquire])) == Burst(c) + 1
  {
    var es := Acquires(Burst(c));
    AcquiresGranted(c, Burst(c));
    OutcomesSnoc(c, es, Tick);
    OutcomesSnoc(c, es + [Tick], Acquire);
    assert es + [Tick] + [Acquire] == es + [Tick, Acquire];
  }
}
