/** The whole state of a breaker, and whom it admits when, told from the events it has seen. */
module BreakerHistory {
  import opened CircuitBreakers
  import opened Options

  /** The instant of the last failure, whatever came after it. */
  function LastFailure(es: seq<Event>): Option<nat> {
    if es == [] then None
    else
      var last := es[|es| - 1];
      if last.Failure? then Some(last.at) else LastFailure(es[..|es| - 1])
  }

  /** An attempt comes no earlier than the reset timeout after the last failure. */
  predicate DueAt(cfg: Config, es: seq<Event>, at: nat) {
    LastFailure(es).Some? && at >= LastFailure(es).value + cfg.resetTimeout
  }

  /** The attempts since the last outcome, counted from the first that is due. */
  function Probes(cfg: Config, es: seq<Event>): nat {
    if es == [] then 0
    else
      var before := es[..|es| - 1];
      match es[|es| - 1]
      case Attempt(at) => Probes(cfg, before) + if Probes(cfg, before) > 0 || DueAt(cfg, before, at) then 1 else 0
      case _ => 0
  }

  /** Too few failures to open a breaker: none at all, or fewer than max_failures. */
  predicate Few(cfg: Config, failures: nat) {
    failures == 0 || failures < cfg.maxFailures
  }

  /** The instant of the last failure that opened the breaker, whatever came after it. */
  function LastOpening(cfg: Config, es: seq<Event>): Option<nat> {
    if es == [] then None
    else
      var last := es[|es| - 1];
      if last.Failure? && !Few(cfg, FailuresSinceSuccess(es)) then Some(last.at)
      else LastOpening(cfg, es[..|es| - 1])
  }

  /** A breaker is what its history says: with too few failures it is closed; otherwise it is open until the reset
      timeout after the last failure, whoever asks meanwhile, and half-open from the first due attempt on, counting
      the ones after that up to the configured number. */
  ghost predicate FromHistory(cfg: Config, start: nat, es: seq<Event>, b: Breaker) {
    var probes := Probes(cfg, es);
    && b.cfg == cfg && b.failureCount == FailuresSinceSuccess(es)
    && b.lastAttempt == (if LastFailure(es).Some? then LastFailure(es).value else start)
    && b.openUntil
       == (if LastOpening(cfg, es).Some? then LastOpening(cfg, es).value + cfg.resetTimeout else start)
    && if Few(cfg, FailuresSinceSuccess(es)) then b.state == Closed && b.halfOpenAttempts == 0
       else
         && LastFailure(es).Some? && LastOpening(cfg, es) == LastFailure(es)
         && b.state == (if probes == 0 then Open else HalfOpen)
         && b.halfOpenAttempts
            == (if probes == 0 then 0
                else if probes - 1 <= cfg.halfOpenAttempts then probes - 1
                else cfg.halfOpenAttempts)
  }

  lemma {:induction false} BreakerIsHistory(cfg: Config, start: nat, es: seq<Event>)
    ensures FromHistory(cfg, start, es, Run(Fresh(cfg, start), es))
    decreases |es|
  {
    if es != [] {
      BreakerIsHistory(cfg, start, es[..|es| - 1]);
    }
  }

  /** After any events a request is admitted exactly if the failures since the last success are too few, or if the
      request is the first that is due since the last failure, or if no more than half_open_attempts + 1 have been
      let through since the first that was. */
  lemma AdmittedIff(cfg: Config, start: nat, es: seq<Event>, at: nat)
    ensures Admits(Run(Fresh(cfg, start), es), at) <==>
              || Few(cfg, FailuresSinceSuccess(es))
              || (Probes(cfg, es) == 0 && DueAt(cfg, es, at))
              || 1 <= Probes(cfg, es) <= cfg.halfOpenAttempts
  {
    BreakerIsHistory(cfg, start, es);
  }

  lemma {:induction false} RefusedAttempts(cfg: Config, es: seq<Event>, t: nat, attempts: seq<Event>)
    requires forall i :: 0 <= i < |attempts| ==> attempts[i].Attempt? && attempts[i].at < t + cfg.resetTimeout
    ensures
      var all := es + [Failure(t)] + attempts;
      && Probes(cfg, all) == 0 && LastFailure(all) == Some(t)
      && FailuresSinceSuccess(all) == FailuresSinceSuccess(es) + 1
    decreases |attempts|
  {
    var all := es + [Failure(t)] + attempts;
    if attempts == [] {
      assert all == es + [Failure(t)] && all[..|all| - 1] == es;
    } else {
      assert all[..|all| - 1] == es + [Failure(t)] + attempts[..|attempts| - 1];
      RefusedAttempts(cfg, es, t, attempts[..|attempts| - 1]);
    }
  }

  /** After a failure that is one too many, requests are refused until the reset timeout has passed and the first
      one from then on is admitted, however many were refused before. */
  lemma TriedAgainWhenDue(cfg: Config, start: nat, es: seq<Event>, t: nat, attempts: seq<Event>, at: nat)
    requires !Few(cfg, FailuresSinceSuccess(es) + 1)
    requires forall i :: 0 <= i < |attempts| ==> attempts[i].Attempt? && attempts[i].at < t + cfg.resetTimeout
    ensures Admits(Run(Fresh(cfg, start), es + [Failure(t)] + attempts), at) <==> at >= t + cfg.resetTimeout
  {
    RefusedAttempts(cfg, es, t, attempts);
    AdmittedIff(cfg, start, es + [Failure(t)] + attempts, at);
  }
}
