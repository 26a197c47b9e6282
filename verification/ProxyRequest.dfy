/** The retry loop of one admitted request: its attempts, its waits, what it records on the shared circuit breaker, and
    the reply it ends with. */
module ProxyRequests {
  import opened Backoff
  import opened CircuitBreakers
  import opened Headers
  import opened LoadBalancers
  import opened Options
  import opened Upstreams

  /** What one attempt at the upstream came to; `cached` says whether a cache entry is there to serve a 304 from. An
      attempt is not sent if it panics before, in the choice of its URL or in the rebuilt request. */
  datatype Result =
    | Response(status: nat, cached: bool)
    | TransportError
    | TimedOut
    | NotSent

  /** One turn of the loop as the outside world lets it happen: the paths for which others ask the balancer before
      it, an iteration over the original headers, the instants, the result if the attempt is sent, and what other
      requests do to the breaker before this request gets hold of it. */
  datatype Round = Round(
    asked: seq<string>,
    pairs: seq<(Name, Value)>,
    startedAt: nat,
    result: Result,
    finishedAt: nat,
    others: seq<Event>)

  /** The reply; Running when the world ends before the loop does, Crashed when the request panics. */
  datatype Reply =
    | Upstream(status: nat)
    | FromCache
    | InternalServerError
    | Timeout
    | ServiceUnavailable
    | Crashed
    | Running

  predicate RetryStatus(status: nat) {
    status in {408, 429, 500, 502, 503, 504}
  }

  const NOT_MODIFIED: nat := 304

  /** What a request starts the loop with. `delay` is the k-th delay of its strategy, None if that call panics;
      `late` is what others do to the breaker before a request that has used up its attempts records its failure at
      `lateAt`. */
  datatype Params = Params(
    maxAttempts: nat,
    timeout: nat,
    start: nat,
    delay: nat -> Option<nat>,
    late: seq<Event>,
    lateAt: nat)

  // ------------------------------------------------------------------------------------------------
  // One turn of the loop

  datatype Onward =
    | Again(retries: nat, sleeps: bool)
    | Done(reply: Reply)

  /** How the loop goes on after an attempt. */
  function Turn(p: Params, retries: nat, r: Round): Onward {
    match r.result
    case Response(status, cached) =>
      if RetryStatus(status) then Again(retries + 1, retries + 1 < p.maxAttempts)
      else if status == NOT_MODIFIED then (if cached then Done(FromCache) else Again(retries, false))
      else Done(Upstream(status))
    case TransportError =>
      if retries + 1 < p.maxAttempts then Again(retries + 1, true) else Done(InternalServerError)
    case TimedOut =>
      if r.finishedAt - p.start >= p.timeout then Done(Timeout)
      else if retries + 1 < p.maxAttempts then Again(retries + 1, true)
      else Done(Timeout)
    case NotSent => Done(Crashed)
  }

  /** What an attempt records on the breaker: a success for every response that is not retried, a failure with an error
      reply. */
  function Recorded(p: Params, retries: nat, r: Round): seq<Event> {
    match r.result
    case Response(status, _) => if RetryStatus(status) then [] else [Success(r.finishedAt)]
    case NotSent => []
    case _ => if Turn(p, retries, r).Done? then [Failure(r.finishedAt)] else []
  }

  /** A 304 with nothing cached: the loop goes round again without counting an attempt. */
  predicate Miss(r: Round) {
    r.result == Response(NOT_MODIFIED, false)
  }

  /** A failed attempt, one that counts as a retry. */
  predicate Fails(r: Round) {
    match r.result
    case Response(status, _) => RetryStatus(status)
    case NotSent => false
    case _ => true
  }

  // ------------------------------------------------------------------------------------------------
  // The whole loop

  /** The reply, the number of attempts begun, the waits, the events this request recorded, and all the events the
      breaker saw meanwhile. */
  datatype Trip = Trip(reply: Reply, calls: nat, slept: seq<nat>, own: seq<Event>, log: seq<Event>)

  const NOTHING_YET := Trip(Running, 0, [], [], [])

  /** A trip taken one turn further, with `retries` attempts used before; still Running when the loop goes on. */
  function Further(p: Params, retries: nat, t: Trip, r: Round): Trip {
    var own := Recorded(p, retries, r);
    var recorded := t.(calls := t.calls + 1, own := t.own + own, log := t.log + (r.others + own));
    match Turn(p, retries, r)
    case Done(reply) => recorded.(reply := reply)
    case Again(_, false) => recorded
    case Again(_, true) => Slept(p, recorded)
  }

  /** A trip after the wait that follows an attempt, or after the panic of its delay. */
  function Slept(p: Params, t: Trip): Trip {
    match p.delay(|t.slept| + 1)
    case None => t.(reply := Crashed)
    case Some(d) => t.(slept := t.slept + [d])
  }

  /** The end of a request that has used up its attempts. */
  function Exhausted(p: Params, t: Trip): Trip {
    t.(reply := ServiceUnavailable, own := t.own + [Failure(p.lateAt)], log := t.log + (p.late + [Failure(p.lateAt)]))
  }

  /** The attempts used after a turn. */
  function RetriesAfter(retries: nat, r: Round): nat {
    if Fails(r) then retries + 1 else retries
  }

  /** The rest of the loop, with `retries` attempts used and the trip t behind it. */
  function Travel(p: Params, retries: nat, t: Trip, rounds: seq<Round>): Trip
    decreases |rounds| - t.calls
  {
    if retries >= p.maxAttempts then Exhausted(p, t)
    else if t.calls >= |rounds| then t
    else
      var next := Further(p, retries, t, rounds[t.calls]);
      if next.reply != Running then next
      else Travel(p, RetriesAfter(retries, rounds[t.calls]), next, rounds)
  }

  // ------------------------------------------------------------------------------------------------
  // The attempts that are sent

  /** The balancer's tables after the first n attempts of a request and the calls of others between them. */
  function TablesAfter(site: Site, st: State, o: Original, rounds: seq<Round>, n: nat): State
    requires n <= |rounds|
    decreases n, 0
  {
    if n == 0 then st else Asked(site, TablesBefore(site, st, o, rounds, n - 1), o.path).0
  }

  /** The tables that attempt n, from 0, finds. */
  function TablesBefore(site: Site, st: State, o: Original, rounds: seq<Round>, n: nat): State
    requires n < |rounds|
    decreases n, 1
  {
    AskedBy(site, TablesAfter(site, st, o, rounds, n), rounds[n].asked)
  }

  /** The URL that attempt n is sent to; None if it panics before. */
  function FateOf(site: Site, st: State, o: Original, rounds: seq<Round>, n: nat): Option<string>
    requires n < |rounds|
  {
    Fate(site, TablesBefore(site, st, o, rounds, n), o)
  }

  /** The turns with what becomes of them: an attempt that panics before it is sent has no other result. */
  function Resolved(site: Site, st: State, o: Original, rounds: seq<Round>): (resolved: seq<Round>)
    ensures |resolved| == |rounds|
  {
    seq(|rounds|, n requires 0 <= n < |rounds| => ResolvedAt(site, st, o, rounds, n))
  }

  function ResolvedAt(site: Site, st: State, o: Original, rounds: seq<Round>, n: nat): Round
    requires n < |rounds|
  {
    if FateOf(site, st, o, rounds, n).None? then rounds[n].(result := NotSent) else rounds[n]
  }

  // ------------------------------------------------------------------------------------------------
  // The loop as a method

  /** Records a success the way the loop does. */
  method RecordSuccess(breaker: CircuitBreaker)
    modifies breaker
    ensures breaker.View() == Succeeded(old(breaker.View())) && Consistent(breaker.View())
  {
    if breaker.state == HalfOpen {
      breaker.TransitionToClosed();
    } else {
      breaker.RecordSuccess();
    }
  }

  /** Records the failure of a request that has used up its attempts. On a consistent breaker the failure never leaves
      it half-open, so the extra transition does not happen. */
  method RecordExhausted(breaker: CircuitBreaker, now: nat)
    modifies breaker
    ensures old(Consistent(breaker.View())) ==>
              breaker.View() == Failed(old(breaker.View()), now) && Consistent(breaker.View())
    ensures breaker.state != HalfOpen
  {
    breaker.RecordFailure(now);
    if breaker.state == HalfOpen {
      breaker.TransitionToOpen(now);
    }
  }

  /** The breaker has seen the events of `log` since it was b. */
  ghost predicate Follows(breaker: CircuitBreaker, b: Breaker, log: seq<Event>)
    reads breaker
  {
    breaker.View() == Run(b, log) && Consistent(breaker.View())
  }

  /** The effect of one attempt on the breaker, after what others did to it; b is the breaker before the events of
      `log`. */
  method RecordAttempt(
      p: Params, retries: nat, r: Round, breaker: CircuitBreaker, ghost b: Breaker, ghost log: seq<Event>)
    requires Follows(breaker, b, log)
    modifies breaker
    ensures Follows(breaker, b, log + (r.others + Recorded(p, retries, r)))
  {
    breaker.Replay(r.others);
    ghost var mid := breaker.View();
    match r.result {
      case Response(status, _) =>
        if !RetryStatus(status) {
          RecordSuccess(breaker);
        }
      case NotSent =>
      case _ =>
        if Turn(p, retries, r).Done? {
          breaker.RecordFailure(r.finishedAt);
        }
    }
    RunRecorded(mid, Recorded(p, retries, r));
    RunConcat(old(breaker.View()), r.others, Recorded(p, retries, r));
    RunConcat(b, log, r.others + Recorded(p, retries, r));
  }

  lemma RunRecorded(b: Breaker, es: seq<Event>)
    requires |es| <= 1
    ensures Run(b, es) == if es == [] then b else Apply(b, es[0])
  {
    if es != [] {
      assert es[..0] == [];
    }
  }

  /** The delays of p are those of the strategy, with what it draws. */
  ghost predicate DelaysOf(p: Params, plan: Strategy, draws: nat -> Draws) {
    forall k :: p.delay(k) == DelayOf(plan, k, draws(k))
  }

  /** Waits for the next delay of the strategy, or panics. */
  method Sleep(p: Params, t: Trip, strategy: RetryStrategy, draws: nat -> Draws) returns (next: Trip)
    requires t.reply == Running && strategy.Valid() && strategy.calls == |t.slept|
    requires DelaysOf(p, strategy.plan, draws)
    modifies strategy
    ensures strategy.Valid() && next == Slept(p, t)
    ensures next.reply == Running ==> strategy.calls == |next.slept|
  {
    assert p.delay(|t.slept| + 1) == DelayOf(strategy.plan, |t.slept| + 1, draws(|t.slept| + 1));
    var d := strategy.Delay(draws(|t.slept| + 1));
    next := if d.None? then t.(reply := Crashed) else t.(slept := t.slept + [d.value]);
  }

  /** What one attempt does to the breaker and to the strategy; b is the breaker before the trip. */
  method TakeTurn(
      p: Params, retries: nat, t: Trip, r: Round, strategy: RetryStrategy, draws: nat -> Draws,
      breaker: CircuitBreaker, ghost b: Breaker)
    returns (retries': nat, next: Trip)
    requires t.reply == Running && strategy.Valid() && strategy.calls == |t.slept|
    requires DelaysOf(p, strategy.plan, draws)
    requires Follows(breaker, b, t.log)
    modifies strategy, breaker
    ensures strategy.Valid() && (next.reply == Running ==> strategy.calls == |next.slept|)
    ensures next == Further(p, retries, t, r) && next.calls == t.calls + 1
    ensures next.reply == Running ==> retries' == RetriesAfter(retries, r)
    ensures Follows(breaker, b, next.log)
  {
    RecordAttempt(p, retries, r, breaker, b, t.log);
    var own := Recorded(p, retries, r);
    next := t.(calls := t.calls + 1, own := t.own + own, log := t.log + (r.others + own));
    retries' := retries;
    match Turn(p, retries, r) {
      case Done(reply) =>
        next := next.(reply := reply);
      case Again(n, sleeps) =>
        retries' := n;
        if sleeps {
          next := Sleep(p, next, strategy, draws);
        }
    }
  }

  /** The requests sent so far are each rebuilt from the unchanged original for the URL of their own attempt. */
  ghost predicate SentFromOriginal(site: Site, st: State, o: Original, rounds: seq<Round>, sent: seq<Outgoing>) {
    && |sent| <= |rounds|
    && forall i :: 0 <= i < |sent| ==>
         && FateOf(site, st, o, rounds, i).Some?
         && Some(sent[i]) == OutgoingTo(site, o, FateOf(site, st, o, rounds, i).value)
  }

  lemma SentMore(site: Site, st: State, o: Original, rounds: seq<Round>, sent: seq<Outgoing>, out: Outgoing)
    requires SentFromOriginal(site, st, o, rounds, sent) && |sent| < |rounds|
    requires FateOf(site, st, o, rounds, |sent|).Some?
    requires Some(out) == OutgoingTo(site, o, FateOf(site, st, o, rounds, |sent|).value)
    ensures SentFromOriginal(site, st, o, rounds, sent + [out])
  {
  }

  /** Others ask the balancer, then this attempt does; None if it panics before it is sent. */
  method Begin(site: Site, balancer: LoadBalancer?, o: Original, rounds: seq<Round>, n: nat, ghost st: State)
    returns (out: Option<Outgoing>)
    requires n < |rounds| && Serves(site, balancer) && Iterates(rounds[n].pairs, o.headers)
    requires Tables(balancer) == TablesAfter(site, st, o, rounds, n)
    modifies balancer
    ensures Tables(balancer) == TablesAfter(site, st, o, rounds, n + 1)
    ensures
      match FateOf(site, st, o, rounds, n)
      case None => out == None
      case Some(url) => out.Some? && out == OutgoingTo(site, o, url)
  {
    AskForOthers(site, balancer, rounds[n].asked);
    out := Prepare(site, balancer, o, rounds[n].pairs);
  }

  /** The loop. `sent` collects the requests sent upstream: one for each attempt begun, save a last one that panicked
      before. */
  method ProxyLoop(
      p: Params, strategy: RetryStrategy, draws: nat -> Draws, breaker: CircuitBreaker, balancer: LoadBalancer?,
      site: Site, o: Original, rounds: seq<Round>)
    returns (trip: Trip, sent: seq<Outgoing>)
    requires strategy.Valid() && strategy.calls == 0 && strategy.maxAttempts == p.maxAttempts
    requires DelaysOf(p, strategy.plan, draws)
    requires Consistent(breaker.View()) && Serves(site, balancer)
    requires forall i :: 0 <= i < |rounds| ==> Iterates(rounds[i].pairs, o.headers)
    modifies strategy, breaker, balancer
    ensures trip == Travel(p, 0, NOTHING_YET, Resolved(site, old(Tables(balancer)), o, rounds))
    ensures Follows(breaker, old(breaker.View()), trip.log)
    ensures trip.calls <= |rounds|
    ensures Tables(balancer) == TablesAfter(site, old(Tables(balancer)), o, rounds, trip.calls)
    ensures SentFromOriginal(site, old(Tables(balancer)), o, rounds, sent)
    ensures
      var fell := trip.calls > 0 && FateOf(site, old(Tables(balancer)), o, rounds, trip.calls - 1).None?;
      |sent| == (if fell then trip.calls - 1 else trip.calls) && (fell ==> trip.reply == Crashed)
  {
    ghost var st := Tables(balancer);
    ghost var resolved := Resolved(site, st, o, rounds);
    var retries: nat := 0;
    trip, sent := NOTHING_YET, [];
    while retries < strategy.maxAttempts && trip.calls < |rounds|
      invariant trip.reply == Running && |sent| == trip.calls <= |rounds|
      invariant SentFromOriginal(site, st, o, rounds, sent)
      invariant strategy.Valid() && strategy.calls == |trip.slept|
      invariant Tables(balancer) == TablesAfter(site, st, o, rounds, trip.calls)
      invariant Travel(p, 0, NOTHING_YET, resolved) == Travel(p, retries, trip, resolved)
      invariant Follows(breaker, old(breaker.View()), trip.log)
      decreases |rounds| - trip.calls
    {
      var out := Begin(site, balancer, o, rounds, trip.calls, st);
      var r := rounds[trip.calls];
      if out.None? {
        r := r.(result := NotSent);
      } else {
        SentMore(site, st, o, rounds, sent, out.value);
        sent := sent + [out.value];
      }
      assert r == resolved[trip.calls];
      retries, trip := TakeTurn(p, retries, trip, r, strategy, draws, breaker, old(breaker.View()));
      if trip.reply != Running {
        return;
      }
    }
    if strategy.maxAttempts <= retries {
      trip := UseUp(p, trip, breaker, old(breaker.View()));
    }
  }

  /** Records the failure of a request that has used up its attempts. */
  method UseUp(p: Params, t: Trip, breaker: CircuitBreaker, ghost b: Breaker) returns (end: Trip)
    requires Follows(breaker, b, t.log)
    modifies breaker
    ensures end == Exhausted(p, t)
    ensures Follows(breaker, b, end.log)
  {
    ghost var before := breaker.View();
    breaker.Replay(p.late);
    RunRecorded(breaker.View(), [Failure(p.lateAt)]);
    RecordExhausted(breaker, p.lateAt);
    RunConcat(before, p.late, [Failure(p.lateAt)]);
    RunConcat(b, t.log, p.late + [Failure(p.lateAt)]);
    end := Exhausted(p, t);
  }
}
