/** How many requests an opened breaker lets through while its target keeps failing. */
module BreakerProbes {
  import opened CircuitBreakers
  import opened Numerics

  /** A breaker that went (or went again) from failure to Open at instant `at`. */
  predicate OpenedAt(b: Breaker, at: nat) {
    && Consistent(b)
    && b.state == Open
    && b.openUntil == at + b.cfg.resetTimeout
  }

  /** A failure recorded in any run that leaves the breaker open has opened it at that very instant. */
  lemma FailureOpens(cfg: Config, start: nat, es: seq<Event>, at: nat)
    requires Run(Fresh(cfg, start), es + [Failure(at)]).state == Open
    ensures OpenedAt(Run(Fresh(cfg, start), es + [Failure(at)]), at)
  {
    StateIsOutcomeHistory(cfg, start, es);
    StateIsOutcomeHistory(cfg, start, es + [Failure(at)]);
    assert (es + [Failure(at)])[..|es + [Failure(at)]| - 1] == es;
  }

  /** The instant of the last event, or `start` when there is none. */
  function End(start: nat, es: seq<Event>): nat {
    if es == [] then start else es[|es| - 1].at
  }

  /** Failures and attempts only, at non-decreasing instants from `start` on. */
  ghost predicate FailingFrom(start: nat, es: seq<Event>) {
    forall i :: 0 <= i < |es| ==> !es[i].Success? && es[i].at >= End(start, es[..i])
  }

  /** The attempts a run admits. */
  function Admitted(b: Breaker, es: seq<Event>): nat {
    if es == [] then 0
    else
      var e := es[|es| - 1];
      var before := es[..|es| - 1];
      Admitted(b, before) + if e.Attempt? && Admits(Run(b, before), e.at) then 1 else 0
  }

  /** How often the run turns half-open. */
  function HalfOpenings(b: Breaker, es: seq<Event>): nat {
    if es == [] then 0
    else
      var before := es[..|es| - 1];
      HalfOpenings(b, before)
      + if Run(b, before).state == Open && Run(b, es).state == HalfOpen then 1 else 0
  }

  /** What holds after every failing run: each half-open period costs a reset timeout and lets at most
      half_open_attempts + 1 requests through, of which a period under way may still owe some. */
  ghost predicate ProbeInvariant(b: Breaker, start: nat, es: seq<Event>) {
    var c, k, h, r := Run(b, es), HalfOpenings(b, es), b.cfg.halfOpenAttempts, b.cfg.resetTimeout;
    && c.cfg == b.cfg && Consistent(c)
    && start + k * r <= End(start, es)
    && match c.state
       case Closed => false
       case Open => start + k * r + r <= c.openUntil && Admitted(b, es) <= (h + 1) * k
       case HalfOpen => Admitted(b, es) + h - c.halfOpenAttempts <= (h + 1) * k
  }

  lemma {:induction false} ProbeInvariantHolds(b: Breaker, start: nat, es: seq<Event>)
    requires OpenedAt(b, start) && FailingFrom(start, es)
    ensures ProbeInvariant(b, start, es)
    decreases |es|
  {
    if es != [] {
      var before := es[..|es| - 1];
      assert FailingFrom(start, before) by {
        assert forall i :: 0 <= i <= |before| ==> before[..i] == es[..i];
      }
      ProbeInvariantHolds(b, start, before);
      var k := HalfOpenings(b, before);
      MulStep(k, b.cfg.resetTimeout);
      MulStep(k, b.cfg.halfOpenAttempts + 1);
      assert es[|es| - 1].at >= End(start, before);
    }
  }

  /** The breaker's promise to a failing target: once open at `start`, with no success recorded since, the requests let
      through by instant t number at most half_open_attempts + 1 per elapsed reset timeout, however many stale failures
      arrive and in whatever order; in particular none before the first timeout has elapsed. */
  lemma ProbeRateBound(b: Breaker, start: nat, es: seq<Event>)
    requires OpenedAt(b, start) && FailingFrom(start, es) && b.cfg.resetTimeout > 0
    ensures End(start, es) >= start
    ensures Admitted(b, es) <= (b.cfg.halfOpenAttempts + 1) * ((End(start, es) - start) / b.cfg.resetTimeout)
    ensures End(start, es) < start + b.cfg.resetTimeout ==> Admitted(b, es) == 0
  {
    ProbeInvariantHolds(b, start, es);
    CountPerPeriod(Admitted(b, es), b.cfg.halfOpenAttempts + 1, HalfOpenings(b, es), b.cfg.resetTimeout,
                   End(start, es) - start);
  }

  lemma CountPerPeriod(n: nat, perPeriod: nat, periods: nat, r: nat, elapsed: int)
    requires n <= perPeriod * periods && periods * r <= elapsed && r > 0
    ensures elapsed >= 0 && n <= perPeriod * (elapsed / r)
    ensures elapsed < r ==> n == 0
  {
    MulMono(0, periods, r);
    DivLower(periods, r, elapsed);
    MulMono(periods, elapsed / r, perPeriod);
    if elapsed < r {
      DivUnique(0, r, elapsed);
    }
  }

  // ------------------------------------------------------------------------------------------------
  // The bound is met

  /** `n` attempts at one instant. */
  function Attempts(at: nat, n: nat): (es: seq<Event>)
    ensures |es| == n && forall i :: 0 <= i < n ==> es[i] == Attempt(at)
  {
    if n == 0 then [] else Attempts(at, n - 1) + [Attempt(at)]
  }

  /** Every reset timeout, as many attempts as the breaker takes and then a failure; no failure after the last ones. */
  function WorstCase(cfg: Config, start: nat, n: nat): seq<Event>
    decreases n, 1
  {
    if n == 0 then []
    else UpToRound(cfg, start, n) + Attempts(RoundAt(cfg, start, n), cfg.halfOpenAttempts + 1)
  }

  /** The worst case up to and including the failure that ends round n - 1. */
  function UpToRound(cfg: Config, start: nat, n: nat): seq<Event>
    requires n > 0
    decreases n, 0
  {
    WorstCase(cfg, start, n - 1) + if n == 1 then [] else [Failure(RoundAt(cfg, start, n - 1))]
  }

  function RoundAt(cfg: Config, start: nat, n: nat): nat {
    start + n * cfg.resetTimeout
  }

  lemma {:induction false} AdmittedConcat(b: Breaker, es: seq<Event>, fs: seq<Event>)
    ensures Admitted(b, es + fs) == Admitted(b, es) + Admitted(Run(b, es), fs)
    decreases |fs|
  {
    if fs == [] {
      assert es + fs == es;
    } else {
      var before := fs[..|fs| - 1];
      assert (es + fs)[..|es + fs| - 1] == es + before;
      AdmittedConcat(b, es, before);
      RunConcat(b, es, before);
    }
  }

  lemma {:induction false} AttemptsAdmitted(b: Breaker, at: nat, n: nat)
    requires b.state == Open && b.openUntil <= at && 1 <= n <= b.cfg.halfOpenAttempts + 1
    ensures Admitted(b, Attempts(at, n)) == n
    ensures Run(b, Attempts(at, n)) == b.(state := HalfOpen, halfOpenAttempts := n - 1)
    decreases n
  {
    var es := Attempts(at, n);
    assert es[..|es| - 1] == Attempts(at, n - 1);
    if n == 1 {
      assert Attempts(at, 0) == [];
    } else {
      AttemptsAdmitted(b, at, n - 1);
    }
  }

  lemma FailingConcat(start: nat, es: seq<Event>, fs: seq<Event>)
    requires FailingFrom(start, es) && FailingFrom(End(start, es), fs)
    ensures FailingFrom(start, es + fs)
  {
    forall i | 0 <= i < |es + fs|
      ensures !(es + fs)[i].Success? && (es + fs)[i].at >= End(start, (es + fs)[..i])
    {
      if i < |es| {
        assert (es + fs)[..i] == es[..i];
      } else {
        assert (es + fs)[..i] == es + fs[..i - |es|];
        assert fs[i - |es|].at >= End(End(start, es), fs[..i - |es|]);
      }
    }
  }

  ghost predicate WorstCaseReached(b: Breaker, start: nat, n: nat) {
    var es := WorstCase(b.cfg, start, n);
    && FailingFrom(start, es)
    && End(start, es) == RoundAt(b.cfg, start, n)
    && Admitted(b, es) == (b.cfg.halfOpenAttempts + 1) * n
    && Run(b, es).cfg == b.cfg
    && Run(b, es).failureCount >= b.cfg.maxFailures
    && if n == 0 then Run(b, es) == b else Run(b, es).state == HalfOpen
  }

  ghost predicate ReadyForRound(b: Breaker, start: nat, n: nat, es: seq<Event>)
    requires n > 0
  {
    && FailingFrom(start, es)
    && End(start, es) == RoundAt(b.cfg, start, n - 1)
    && Admitted(b, es) == (b.cfg.halfOpenAttempts + 1) * (n - 1)
    && var c := Run(b, es);
       c.cfg == b.cfg && c.state == Open && c.failureCount >= b.cfg.maxFailures
       && c.openUntil == RoundAt(b.cfg, start, n)
  }

  /** One more failure opens a breaker that has had its fill, and admits nobody. */
  lemma OneMoreFailure(b: Breaker, es: seq<Event>, at: nat)
    requires Run(b, es).failureCount >= Run(b, es).cfg.maxFailures
    ensures Run(b, es + [Failure(at)]) == Failed(Run(b, es), at)
    ensures Run(b, es + [Failure(at)]).state == Open
    ensures Run(b, es + [Failure(at)]).openUntil == at + Run(b, es).cfg.resetTimeout
    ensures Admitted(b, es + [Failure(at)]) == Admitted(b, es)
  {
    assert (es + [Failure(at)])[..|es + [Failure(at)]| - 1] == es;
  }

  /** The failure after the attempts of round n - 1 opens the breaker until the instant of round n. */
  lemma Reopen(b: Breaker, start: nat, n: nat)
    requires n > 0 && OpenedAt(b, start) && WorstCaseReached(b, start, n - 1)
    ensures ReadyForRound(b, start, n, UpToRound(b.cfg, start, n))
  {
    NextRoundAt(b.cfg, start, n);
    var es, at := WorstCase(b.cfg, start, n - 1), RoundAt(b.cfg, start, n - 1);
    if n == 1 {
      assert es + [] == [];
    } else {
      OneMoreFailure(b, es, at);
      FailingConcat(start, es, [Failure(at)]);
    }
  }

  lemma NextRoundAt(cfg: Config, start: nat, n: nat)
    requires n > 0
    ensures RoundAt(cfg, start, n) == RoundAt(cfg, start, n - 1) + cfg.resetTimeout
  {
    MulStep(n - 1, cfg.resetTimeout);
  }

  /** As many attempts as it takes on a breaker whose time is up are all admitted. */
  lemma AppendAttempts(b: Breaker, start: nat, es: seq<Event>, at: nat)
    requires Run(b, es).state == Open && Run(b, es).openUntil <= at
    requires FailingFrom(start, es) && End(start, es) <= at
    ensures
      var c, n := Run(b, es), Run(b, es).cfg.halfOpenAttempts + 1;
      var fs := es + Attempts(at, n);
      && FailingFrom(start, fs) && End(start, fs) == at
      && Admitted(b, fs) == Admitted(b, es) + n
      && Run(b, fs) == c.(state := HalfOpen, halfOpenAttempts := n - 1)
  {
    var n := Run(b, es).cfg.halfOpenAttempts + 1;
    var gs := Attempts(at, n);
    AttemptsAdmitted(Run(b, es), at, n);
    AdmittedConcat(b, es, gs);
    RunConcat(b, es, gs);
    AttemptsFailing(End(start, es), at, n);
    FailingConcat(start, es, gs);
    EndConcat(start, es, gs);
  }

  lemma Round(b: Breaker, start: nat, n: nat, es: seq<Event>)
    requires n > 0 && ReadyForRound(b, start, n, es) && es == UpToRound(b.cfg, start, n)
    ensures WorstCaseReached(b, start, n)
  {
    NextRoundAt(b.cfg, start, n);
    MulStep(n - 1, b.cfg.halfOpenAttempts + 1);
    AppendAttempts(b, start, es, RoundAt(b.cfg, start, n));
  }

  lemma EndConcat(start: nat, es: seq<Event>, gs: seq<Event>)
    requires gs != []
    ensures End(start, es + gs) == gs[|gs| - 1].at
  {
  }

  lemma {:induction false} WorstCaseRun(b: Breaker, start: nat, n: nat)
    requires OpenedAt(b, start)
    ensures WorstCaseReached(b, start, n)
    decreases n
  {
    if n == 0 {
      assert b.failureCount >= b.cfg.maxFailures;
    } else {
      WorstCaseRun(b, start, n - 1);
      Reopen(b, start, n);
      Round(b, start, n, UpToRound(b.cfg, start, n));
    }
  }

  lemma AttemptsFailing(start: nat, at: nat, n: nat)
    requires start <= at
    ensures FailingFrom(start, Attempts(at, n))
  {
  }

  /** The bound cannot be improved: after n reset timeouts some run has been let through (half_open_attempts + 1) * n
      times. */
  lemma ProbeRateBoundIsTight(b: Breaker, start: nat, n: nat)
    requires OpenedAt(b, start)
    ensures exists es ::
              && FailingFrom(start, es)
              && End(start, es) == start + n * b.cfg.resetTimeout
              && Admitted(b, es) == (b.cfg.halfOpenAttempts + 1) * n
  {
    WorstCaseRun(b, start, n);
  }
}
