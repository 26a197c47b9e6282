/** The circuit breaker: its fields, its methods, and what its state says about the outcomes recorded so far.
    Instants and durations are natural numbers of nanoseconds. */
module CircuitBreakers {

  datatype CircuitState = Closed | Open | HalfOpen

  datatype Config = Config(maxFailures: nat, resetTimeout: nat, halfOpenAttempts: nat)

  /** The value of every field of a breaker at one moment. */
  datatype Breaker = Breaker(
    cfg: Config,
    state: CircuitState,
    failureCount: nat,
    lastAttempt: nat,
    openUntil: nat,
    halfOpenAttempts: nat)

  function Fresh(cfg: Config, now: nat): Breaker {
    Breaker(cfg, Closed, 0, now, now, 0)
  }

  function Succeeded(b: Breaker): Breaker {
    b.(failureCount := 0, state := Closed, halfOpenAttempts := 0)
  }

  function Opened(b: Breaker, now: nat): Breaker {
    b.(state := Open, openUntil := now + b.cfg.resetTimeout, halfOpenAttempts := 0)
  }

  function Failed(b: Breaker, now: nat): Breaker {
    var c := b.(failureCount := b.failureCount + 1, lastAttempt := now);
    if c.failureCount >= c.cfg.maxFailures then Opened(c, now) else c
  }

  /** Whether a breaker admits a request at an instant. */
  predicate Admits(b: Breaker, now: nat) {
    match b.state
    case Closed => true
    case Open => now >= b.openUntil
    case HalfOpen => b.halfOpenAttempts < b.cfg.halfOpenAttempts
  }

  function Attempted(b: Breaker, now: nat): Breaker {
    if !Admits(b, now) then b
    else match b.state
      case Closed => b
      case Open => b.(state := HalfOpen, halfOpenAttempts := 0)
      case HalfOpen => b.(halfOpenAttempts := b.halfOpenAttempts + 1)
  }

  /** What requests do to a shared breaker. */
  datatype Event =
    | Attempt(at: nat)
    | Success(at: nat)
    | Failure(at: nat)

  function Apply(b: Breaker, e: Event): Breaker {
    match e
    case Attempt(at) => Attempted(b, at)
    case Success(_) => Succeeded(b)
    case Failure(at) => Failed(b, at)
  }

  function Run(b: Breaker, es: seq<Event>): Breaker {
    if es == [] then b else Apply(Run(b, es[..|es| - 1]), es[|es| - 1])
  }

  lemma {:induction false} RunConcat(b: Breaker, es: seq<Event>, fs: seq<Event>)
    ensures Run(b, es + fs) == Run(Run(b, es), fs)
    decreases |fs|
  {
    if fs == [] {
      assert es + fs == es;
    } else {
      assert (es + fs)[..|es + fs| - 1] == es + fs[..|fs| - 1];
      RunConcat(b, es, fs[..|fs| - 1]);
    }
  }

  // ------------------------------------------------------------------------------------------------
  // The state as a function of the outcome history

  /** How many failures were recorded after the last success. */
  function FailuresSinceSuccess(es: seq<Event>): nat {
    if es == [] then 0
    else
      var before := FailuresSinceSuccess(es[..|es| - 1]);
      match es[|es| - 1]
      case Attempt(_) => before
      case Success(_) => 0
      case Failure(_) => before + 1
  }

  /** The failures it takes to leave Closed: a threshold of zero acts like a threshold of one. */
  function Threshold(cfg: Config): nat {
    if cfg.maxFailures == 0 then 1 else cfg.maxFailures
  }

  /** What every breaker that is only driven through attempts and outcomes satisfies. */
  predicate Consistent(b: Breaker) {
    && (b.state == Closed <==> b.failureCount < Threshold(b.cfg))
    && b.halfOpenAttempts <= b.cfg.halfOpenAttempts
    && (b.state != HalfOpen ==> b.halfOpenAttempts == 0)
  }

  /** In every run the counter and the Closed state are functions of the outcomes recorded, whatever the timing
      and whatever order stale outcomes arrive in. */
  lemma {:induction false} StateIsOutcomeHistory(cfg: Config, start: nat, es: seq<Event>)
    ensures
      var b := Run(Fresh(cfg, start), es);
      && b.cfg == cfg
      && Consistent(b)
      && b.failureCount == FailuresSinceSuccess(es)
      && (b.state == Closed <==> FailuresSinceSuccess(es) < Threshold(cfg))
    decreases |es|
  {
    if es != [] {
      StateIsOutcomeHistory(cfg, start, es[..|es| - 1]);
    }
  }

  /** A recorded failure never leaves a breaker half-open, and a success always closes it: in any run the state after
      an outcome is never HalfOpen. */
  lemma OutcomeLeavesHalfOpen(cfg: Config, start: nat, es: seq<Event>, e: Event)
    requires !e.Attempt?
    ensures Run(Fresh(cfg, start), es + [e]).state != HalfOpen
  {
    StateIsOutcomeHistory(cfg, start, es);
    assert (es + [e])[..|es + [e]| - 1] == es;
  }

  // ------------------------------------------------------------------------------------------------

  class CircuitBreaker {
    var state: CircuitState
    var failureCount: nat
    var lastAttempt: nat
    var openUntil: nat
    const resetTimeout: nat
    const maxFailures: nat
    var halfOpenAttempts: nat
    const halfOpenMaxAttempts: nat

    ghost function View(): Breaker
      reads this
    {
      Breaker(Config(maxFailures, resetTimeout, halfOpenMaxAttempts),
              state, failureCount, lastAttempt, openUntil, halfOpenAttempts)
    }

    constructor (cfg: Config, now: nat)
      ensures View() == Fresh(cfg, now)
      ensures Consistent(View())
    {
      state, failureCount, lastAttempt, openUntil, halfOpenAttempts := Closed, 0, now, now, 0;
      resetTimeout, maxFailures, halfOpenMaxAttempts := cfg.resetTimeout, cfg.maxFailures, cfg.halfOpenAttempts;
    }

    method RecordSuccess()
      modifies this
      ensures View() == Succeeded(old(View())) && Consistent(View())
    {
      failureCount := 0;
      state := Closed;
      halfOpenAttempts := 0;
    }

    method RecordFailure(now: nat)
      modifies this
      ensures View() == Failed(old(View()), now)
      ensures old(Consistent(View())) ==> Consistent(View()) && state != HalfOpen
    {
      failureCount := failureCount + 1;
      lastAttempt := now;
      if failureCount >= maxFailures {
        TransitionToOpen(now);
      }
    }

    method CanAttempt(now: nat) returns (ok: bool)
      modifies this
      ensures ok == Admits(old(View()), now)
      ensures View() == Attempted(old(View()), now)
      ensures old(Consistent(View())) ==> Consistent(View())
    {
      match state {
        case Closed =>
          ok := true;
        case Open =>
          if now >= openUntil {
            TransitionToHalfOpen();
            ok := true;
          } else {
            ok := false;
          }
        case HalfOpen =>
          if halfOpenAttempts < halfOpenMaxAttempts {
            halfOpenAttempts := halfOpenAttempts + 1;
            ok := true;
          } else {
            ok := false;
          }
      }
    }

    method TransitionToClosed()
      modifies this
      ensures View() == Succeeded(old(View()))
    {
      state := Closed;
      failureCount := 0;
      halfOpenAttempts := 0;
    }

    method TransitionToOpen(now: nat)
      modifies this
      ensures View() == Opened(old(View()), now)
    {
      state := Open;
      openUntil := now + resetTimeout;
      halfOpenAttempts := 0;
    }

    method TransitionToHalfOpen()
      modifies this
      ensures View() == old(View()).(state := HalfOpen, halfOpenAttempts := 0)
    {
      state := HalfOpen;
      halfOpenAttempts := 0;
    }

    /** Events of other requests, in the order in which they got hold of the lock. */
    method Replay(es: seq<Event>)
      modifies this
      ensures View() == Run(old(View()), es)
      ensures old(Consistent(View())) ==> Consistent(View())
    {
      for i := 0 to |es|
        invariant View() == Run(old(View()), es[..i])
        invariant old(Consistent(View())) ==> Consistent(View())
      {
        assert es[..i + 1][..i] == es[..i];
        match es[i] {
          case Attempt(at) => var _ := CanAttempt(at);
          case Success(_) => RecordSuccess();
          case Failure(at) => RecordFailure(at);
        }
      }
      assert es[..|es|] == es;
    }
  }
}
