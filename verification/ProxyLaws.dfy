/** What the retry loop guarantees on every course of events: termination, the calls, waits and outcomes it accounts
    for, and what its error replies mean. */
module ProxyLaws {
  import opened Backoff
  import opened BackoffTotals
  import opened CircuitBreakers
  import opened Options
  import opened ProxyRequests
  import opened Units

  /** How many of the first n attempts were a 304 that found nothing cached. */
  function Misses(rounds: seq<Round>, n: nat): nat
    requires n <= |rounds|
  {
    if n == 0 then 0 else Misses(rounds, n - 1) + if Miss(rounds[n - 1]) then 1 else 0
  }

  /** How many of the first n attempts failed. */
  function Failures(rounds: seq<Round>, n: nat): nat
    requires n <= |rounds|
  {
    if n == 0 then 0 else Failures(rounds, n - 1) + if Fails(rounds[n - 1]) then 1 else 0
  }

  /** A trip that came to its reply. */
  predicate Ended(t: Trip) {
    t.reply != Running && t.reply != Crashed
  }

  /** Attempts start no earlier than the loop, and an attempt times out no earlier than the timeout after its start. */
  predicate WellTimed(p: Params, r: Round) {
    && p.start <= r.startedAt <= r.finishedAt
    && (r.result.TimedOut? ==> r.finishedAt >= r.startedAt + p.timeout)
  }

  /** The delays from the first on. */
  ghost predicate Delays(delay: nat -> Option<nat>, slept: seq<nat>) {
    forall i :: 0 <= i < |slept| ==> delay(i + 1) == Some(slept[i])
  }

  /** What holds each time round the loop. */
  ghost predicate Invariant(p: Params, retries: nat, t: Trip, rounds: seq<Round>) {
    && t.reply == Running && t.calls <= |rounds| && retries <= p.maxAttempts
    && retries == Failures(rounds, t.calls)
    && t.calls == retries + Misses(rounds, t.calls)
    && |t.own| == Misses(rounds, t.calls)
    && (forall i :: 0 <= i < |t.own| ==> t.own[i].Success?)
    && |t.slept| == (if retries < p.maxAttempts || retries == 0 then retries else retries - 1)
    && Delays(p.delay, t.slept)
    && (retries == p.maxAttempts > 0 ==> t.calls > 0 && AnsweredForRetry(rounds[t.calls - 1].result))
    && (p.maxAttempts == 0 ==> t.calls == 0)
    && (t.calls > 0 ==> Fails(rounds[t.calls - 1]) || Miss(rounds[t.calls - 1]))
    && (forall i :: 0 <= i < t.calls && WellTimed(p, rounds[i]) ==> !rounds[i].result.TimedOut?)
  }

  predicate AnsweredForRetry(result: Result) {
    result.Response? && RetryStatus(result.status)
  }

  /** The three ways a trip t comes to an end, from the invariant: attempts used up, no more turns to take, or a last
      turn. */
  ghost predicate EndsFrom(p: Params, rounds: seq<Round>, end: Trip, retries: nat, t: Trip) {
    && Invariant(p, retries, t, rounds)
    && if retries == p.maxAttempts then end == Exhausted(p, t)
       else if t.calls == |rounds| then end == t
       else end == Further(p, retries, t, rounds[t.calls]) && end.reply != Running
  }

  lemma TurnKeeps(p: Params, retries: nat, t: Trip, rounds: seq<Round>)
    requires Invariant(p, retries, t, rounds) && retries < p.maxAttempts && t.calls < |rounds|
    requires Further(p, retries, t, rounds[t.calls]).reply == Running
    ensures Invariant(p, RetriesAfter(retries, rounds[t.calls]), Further(p, retries, t, rounds[t.calls]), rounds)
  {
  }

  lemma {:induction false} TravelEnds(p: Params, retries: nat, t: Trip, rounds: seq<Round>)
    returns (retries': nat, t': Trip)
    requires Invariant(p, retries, t, rounds)
    ensures EndsFrom(p, rounds, Travel(p, retries, t, rounds), retries', t')
    decreases |rounds| - t.calls
  {
    retries', t' := retries, t;
    if retries < p.maxAttempts && t.calls < |rounds| {
      var next := Further(p, retries, t, rounds[t.calls]);
      if next.reply == Running {
        TurnKeeps(p, retries, t, rounds);
        retries', t' := TravelEnds(p, RetriesAfter(retries, rounds[t.calls]), next, rounds);
      }
    }
  }

  /** The whole loop on given turns. */
  function Whole(p: Params, rounds: seq<Round>): Trip {
    Travel(p, 0, NOTHING_YET, rounds)
  }

  // ------------------------------------------------------------------------------------------------
  // Termination and accounting

  /** The measure of the loop is max_attempts - retries, apart from 304 responses that found nothing cached: given
      enough turns the loop ends, having made at most max_attempts calls plus one for each such miss and waited at
      most max_attempts - 1 times. */
  lemma CallsAndWaits(p: Params, rounds: seq<Round>)
    ensures Bounded(p, rounds, Whole(p, rounds))
  {
    var retries, t := TravelEnds(p, 0, NOTHING_YET, rounds);
    if retries < p.maxAttempts && t.calls < |rounds| {
      TurnBounded(p, retries, t, rounds);
    }
  }

  ghost predicate Bounded(p: Params, rounds: seq<Round>, t: Trip) {
    && t.calls <= |rounds|
    && t.calls <= p.maxAttempts + Misses(rounds, t.calls)
    && (t.reply == Running ==> t.calls == |rounds| && |rounds| < p.maxAttempts + Misses(rounds, |rounds|))
    && (if p.maxAttempts == 0 then t.slept == [] else |t.slept| <= p.maxAttempts - 1)
  }

  lemma TurnBounded(p: Params, retries: nat, t: Trip, rounds: seq<Round>)
    requires Invariant(p, retries, t, rounds) && retries < p.maxAttempts && t.calls < |rounds|
    requires Further(p, retries, t, rounds[t.calls]).reply != Running
    ensures Bounded(p, rounds, Further(p, retries, t, rounds[t.calls]))
  {
  }

  /** Outcome accounting: a request that ends has recorded one outcome for its reply, a success for a response and a
      failure for an error, and before it one success for each 304 that found nothing cached. A request that crashes
      in a delay has recorded no outcome for its end. */
  lemma OutcomesRecorded(p: Params, rounds: seq<Round>)
    ensures Accounted(rounds, Whole(p, rounds))
  {
    var retries, t := TravelEnds(p, 0, NOTHING_YET, rounds);
    if retries < p.maxAttempts && t.calls < |rounds| {
      TurnAccounted(p, retries, t, rounds);
    }
  }

  ghost predicate Accounted(rounds: seq<Round>, t: Trip) {
    && t.calls <= |rounds|
    && var misses := Misses(rounds, t.calls);
       && |t.own| == misses + (if Ended(t) then 1 else 0)
       && (forall i :: 0 <= i < misses ==> t.own[i].Success?)
       && (Ended(t) ==> !t.own[misses].Attempt?)
       && (Ended(t) ==> (t.own[misses].Success? <==> t.reply.Upstream? || t.reply.FromCache?))
  }

  lemma TurnAccounted(p: Params, retries: nat, t: Trip, rounds: seq<Round>)
    requires Invariant(p, retries, t, rounds) && retries < p.maxAttempts && t.calls < |rounds|
    requires Further(p, retries, t, rounds[t.calls]).reply != Running
    ensures Accounted(rounds, Further(p, retries, t, rounds[t.calls]))
  {
  }

  /** The successes recorded for those of the first n attempts that were a 304 with nothing cached, each when its
      attempt finished. */
  function MissSuccesses(rounds: seq<Round>, n: nat): seq<Event>
    requires n <= |rounds|
  {
    if n == 0 then []
    else MissSuccesses(rounds, n - 1) + if Miss(rounds[n - 1]) then [Success(rounds[n - 1].finishedAt)] else []
  }

  /** The outcome that goes with a reply: of the last attempt and at the instant at which it finished, or at the
      instant at which a request that has used up its attempts leaves. */
  function OutcomeOf(p: Params, rounds: seq<Round>, t: Trip): seq<Event>
    requires t.calls <= |rounds|
  {
    match t.reply
    case ServiceUnavailable => [Failure(p.lateAt)]
    case Running => []
    case Crashed => []
    case Upstream(_) => if t.calls == 0 then [] else [Success(rounds[t.calls - 1].finishedAt)]
    case FromCache => if t.calls == 0 then [] else [Success(rounds[t.calls - 1].finishedAt)]
    case _ => if t.calls == 0 then [] else [Failure(rounds[t.calls - 1].finishedAt)]
  }

  ghost predicate OutcomesAre(p: Params, rounds: seq<Round>, t: Trip) {
    t.calls <= |rounds| && t.own == MissSuccesses(rounds, t.calls) + OutcomeOf(p, rounds, t)
  }

  lemma {:induction false} TravelOutcomes(p: Params, retries: nat, t: Trip, rounds: seq<Round>)
    requires t.reply == Running && OutcomesAre(p, rounds, t)
    ensures OutcomesAre(p, rounds, Travel(p, retries, t, rounds))
    decreases |rounds| - t.calls
  {
    if retries < p.maxAttempts && t.calls < |rounds| {
      TurnOutcomes(p, retries, t, rounds);
      var next := Further(p, retries, t, rounds[t.calls]);
      if next.reply == Running {
        TravelOutcomes(p, RetriesAfter(retries, rounds[t.calls]), next, rounds);
      }
    }
  }

  lemma TurnOutcomes(p: Params, retries: nat, t: Trip, rounds: seq<Round>)
    requires t.reply == Running && OutcomesAre(p, rounds, t) && t.calls < |rounds|
    ensures OutcomesAre(p, rounds, Further(p, retries, t, rounds[t.calls]))
  {
  }

  /** Exactly what a request records and when: a success for each 304 that found nothing cached and then the outcome
      of its reply, each at the instant at which its attempt finished. */
  lemma OutcomesAtTheirInstants(p: Params, rounds: seq<Round>)
    ensures OutcomesAre(p, rounds, Whole(p, rounds))
  {
    TravelOutcomes(p, 0, NOTHING_YET, rounds);
  }

  lemma {:induction false} MissesMono(rounds: seq<Round>, n: nat, m: nat)
    requires n <= m <= |rounds|
    ensures Misses(rounds, n) <= Misses(rounds, m)
    decreases m
  {
    if n < m {
      MissesMono(rounds, n, m - 1);
    }
  }

  /** Without such misses: the loop ends within max_attempts turns, with at most that many calls and one wait less,
      and has then recorded exactly one outcome unless a delay crashed it. */
  lemma ExactlyOneOutcome(p: Params, rounds: seq<Round>)
    requires Misses(rounds, |rounds|) == 0 && |rounds| >= p.maxAttempts
    ensures
      var t := Whole(p, rounds);
      && t.reply != Running
      && t.calls <= p.maxAttempts
      && (t.reply != Crashed ==> |t.own| == 1)
  {
    CallsAndWaits(p, rounds);
    OutcomesRecorded(p, rounds);
    MissesMono(rounds, Whole(p, rounds).calls, |rounds|);
  }

  /** The hypothesis is needed: with a single attempt allowed, a miss followed by an answer makes two calls and
      records two successes. */
  lemma MissRecordsTwice(start: nat, delay: nat -> Option<nat>)
    ensures
      var miss := Round([], [], start, Response(304, false), start, []);
      var answer := Round([], [], start, Response(200, false), start, []);
      var t := Whole(Params(1, 1, start, delay, [], start), [miss, answer]);
      t.calls == 2 && t.own == [Success(start), Success(start)]
  {
    var miss := Round([], [], start, Response(304, false), start, []);
    var answer := Round([], [], start, Response(200, false), start, []);
    var p := Params(1, 1, start, delay, [], start);
    var first := Further(p, 0, NOTHING_YET, miss);
    assert first == Trip(Running, 1, [], [Success(start)], [Success(start)]);
    assert Travel(p, 0, first, [miss, answer]) == Further(p, 0, first, answer);
  }

  // ------------------------------------------------------------------------------------------------
  // What the replies mean

  /** The result of the last attempt made. */
  function LastResult(t: Trip, rounds: seq<Round>): Option<Result>
    requires t.calls <= |rounds|
  {
    if t.calls == 0 then None else Some(rounds[t.calls - 1].result)
  }

  /** A timeout is always final: attempts time out no earlier than they may, so the time since the start of the loop
      has then passed the limit, and the branch that retries after a timeout is never taken. Whatever the course of
      events, an attempt that timed out was the last, recorded one failure and made the reply Timeout. */
  lemma TimeoutIsFinal(p: Params, rounds: seq<Round>, i: nat)
    requires forall j :: 0 <= j < |rounds| ==> WellTimed(p, rounds[j])
    requires i < Whole(p, rounds).calls && i < |rounds| && rounds[i].result.TimedOut?
    ensures
      var t := Whole(p, rounds);
      t.calls == i + 1 && t.reply == Timeout && t.own != [] && t.own[|t.own| - 1] == Failure(rounds[i].finishedAt)
  {
    var retries, t := TravelEnds(p, 0, NOTHING_YET, rounds);
    assert forall j :: 0 <= j < t.calls ==> !rounds[j].result.TimedOut?;
    assert i == t.calls;
    assert WellTimed(p, rounds[i]);
  }

  /** With attempts that time out no earlier than they may, the reply is Timeout exactly if some attempt timed out, and
      that attempt was the last. */
  lemma TimeoutMeans(p: Params, rounds: seq<Round>)
    requires forall i :: 0 <= i < |rounds| ==> WellTimed(p, rounds[i])
    ensures
      var t := Whole(p, rounds);
      && t.calls <= |rounds|
      && (t.reply == Timeout <==> LastResult(t, rounds) == Some(TimedOut))
      && (t.reply == Timeout <==> exists i :: 0 <= i < t.calls && rounds[i].result.TimedOut?)
  {
    var retries, t := TravelEnds(p, 0, NOTHING_YET, rounds);
    if retries < p.maxAttempts && t.calls < |rounds| {
      var r := rounds[t.calls];
      assert WellTimed(p, r);
      assert Further(p, retries, t, r).reply == Timeout <==> r.result.TimedOut?;
    }
  }

  /** However attempts are timed, the reply is Timeout exactly if the last one timed out and either the limit since the
      start of the loop had passed when it did or no attempt was left. */
  ghost predicate TimeoutIs(p: Params, rounds: seq<Round>, t: Trip) {
    && t.calls <= |rounds|
    && (t.reply == Timeout <==>
          && LastResult(t, rounds) == Some(TimedOut)
          && (rounds[t.calls - 1].finishedAt >= p.start + p.timeout || Failures(rounds, t.calls) == p.maxAttempts))
  }

  lemma TimeoutReplies(p: Params, rounds: seq<Round>)
    ensures TimeoutIs(p, rounds, Whole(p, rounds))
  {
    TravelWithin(p, 0, NOTHING_YET, rounds);
    var retries, t := TravelEnds(p, 0, NOTHING_YET, rounds);
    if retries == p.maxAttempts {
      NoTimeoutAtEnd(p, retries, t, rounds);
    } else if t.calls < |rounds| {
      TimeoutTurn(p, retries, t, rounds);
    } else {
      NoTimeoutUnfinished(p, retries, t, rounds);
    }
  }

  lemma NoTimeoutAtEnd(p: Params, retries: nat, t: Trip, rounds: seq<Round>)
    requires Invariant(p, retries, t, rounds) && retries == p.maxAttempts
    ensures TimeoutIs(p, rounds, Exhausted(p, t))
  {
  }

  lemma NoTimeoutUnfinished(p: Params, retries: nat, t: Trip, rounds: seq<Round>)
    requires Invariant(p, retries, t, rounds) && retries < p.maxAttempts && Within(p, rounds, t.calls)
    ensures TimeoutIs(p, rounds, t)
  {
  }

  /** Attempts that timed out before the last one did so within the limit, and were retried. */
  lemma EarlierTimeouts(p: Params, rounds: seq<Round>, i: nat)
    requires i < |rounds| && i + 1 < Whole(p, rounds).calls && rounds[i].result.TimedOut?
    ensures rounds[i].finishedAt < p.start + p.timeout
  {
    TravelWithin(p, 0, NOTHING_YET, rounds);
  }

  /** The attempts that timed out so far did so within the limit. */
  ghost predicate Within(p: Params, rounds: seq<Round>, n: int) {
    forall i :: 0 <= i < n && i < |rounds| && rounds[i].result.TimedOut? ==> rounds[i].finishedAt < p.start + p.timeout
  }

  lemma {:induction false} TravelWithin(p: Params, retries: nat, t: Trip, rounds: seq<Round>)
    requires t.reply == Running && t.calls <= |rounds| && Within(p, rounds, t.calls)
    ensures
      var end := Travel(p, retries, t, rounds);
      Within(p, rounds, end.calls - 1) && (end.reply == Running || end.reply == ServiceUnavailable ==>
                                             Within(p, rounds, end.calls))
    decreases |rounds| - t.calls
  {
    if retries < p.maxAttempts && t.calls < |rounds| {
      var next := Further(p, retries, t, rounds[t.calls]);
      if next.reply == Running {
        TravelWithin(p, RetriesAfter(retries, rounds[t.calls]), next, rounds);
      }
    }
  }

  lemma TimeoutTurn(p: Params, retries: nat, t: Trip, rounds: seq<Round>)
    requires t.reply == Running && retries < p.maxAttempts && t.calls < |rounds|
    requires retries == Failures(rounds, t.calls) && Further(p, retries, t, rounds[t.calls]).reply != Running
    ensures TimeoutIs(p, rounds, Further(p, retries, t, rounds[t.calls]))
  {
  }

  /** With a single attempt, its answer and nothing else is the reply, save the statuses that are retried, for which no
      attempt is left, and a 304. */
  lemma AnsweredOnce(p: Params, r: Round, status: nat, cached: bool)
    requires p.maxAttempts == 1 && r.result == Response(status, cached)
    ensures
      Whole(p, [r]).reply
      == if status == 408 || status == 429 || status == 500 || status == 502 || status == 503 || status == 504
         then ServiceUnavailable
         else if status == 304 then (if cached then FromCache else Running)
         else Upstream(status)
  {
    var next := Further(p, 0, NOTHING_YET, r);
    if next.reply == Running {
      assert Travel(p, RetriesAfter(0, r), next, [r])
             == if RetriesAfter(0, r) >= 1 then Exhausted(p, next) else next;
    }
  }

  /** InternalServerError means that all attempts failed, the last with a transport error; ServiceUnavailable that all
      failed, the last with a retry status, or that there was none to make. */
  ghost predicate ErrorsMean(p: Params, rounds: seq<Round>, end: Trip) {
    && end.calls <= |rounds|
    && var used := Failures(rounds, end.calls) == p.maxAttempts;
       && (end.reply == InternalServerError <==>
             used && end.calls > 0 && rounds[end.calls - 1].result == TransportError)
       && (end.reply == ServiceUnavailable <==>
             used && (end.calls == 0 || AnsweredForRetry(rounds[end.calls - 1].result)))
  }

  lemma ErrorReplies(p: Params, rounds: seq<Round>)
    ensures ErrorsMean(p, rounds, Whole(p, rounds))
  {
    var retries, t := TravelEnds(p, 0, NOTHING_YET, rounds);
    if retries == p.maxAttempts {
      ErrorsUsedUp(p, retries, t, rounds);
    } else if t.calls == |rounds| {
      ErrorsUnfinished(p, retries, t, rounds);
    } else {
      ErrorsLastTurn(p, retries, t, rounds);
    }
  }

  lemma ErrorsUsedUp(p: Params, retries: nat, t: Trip, rounds: seq<Round>)
    requires Invariant(p, retries, t, rounds) && retries == p.maxAttempts
    ensures ErrorsMean(p, rounds, Exhausted(p, t))
  {
  }

  lemma ErrorsUnfinished(p: Params, retries: nat, t: Trip, rounds: seq<Round>)
    requires Invariant(p, retries, t, rounds) && retries < p.maxAttempts
    ensures ErrorsMean(p, rounds, t)
  {
  }

  lemma ErrorsLastTurn(p: Params, retries: nat, t: Trip, rounds: seq<Round>)
    requires t.reply == Running && retries < p.maxAttempts && t.calls < |rounds|
    requires retries == Failures(rounds, t.calls)
    requires Further(p, retries, t, rounds[t.calls]).reply != Running
    ensures ErrorsMean(p, rounds, Further(p, retries, t, rounds[t.calls]))
  {
    var end := Further(p, retries, t, rounds[t.calls]);
    assert Failures(rounds, end.calls) == RetriesAfter(retries, rounds[t.calls]);
  }

  /** The reply is a response exactly if the last attempt was answered with a status that is not retried: the status
      itself, or for a 304 the cached response; a 304 that found nothing cached is no reply. */
  lemma ResponsesMean(p: Params, rounds: seq<Round>)
    ensures
      var t := Whole(p, rounds);
      && t.calls <= |rounds|
      && var last := LastResult(t, rounds);
         && (forall s :: t.reply == Upstream(s) <==>
               && s != NOT_MODIFIED && !RetryStatus(s)
               && (last == Some(Response(s, true)) || last == Some(Response(s, false))))
         && (t.reply == FromCache <==> last == Some(Response(NOT_MODIFIED, true)))
  {
    var retries, t := TravelEnds(p, 0, NOTHING_YET, rounds);
    if retries < p.maxAttempts && t.calls < |rounds| {
      EndingResponse(p, retries, t, rounds[t.calls]);
    }
  }

  lemma EndingResponse(p: Params, retries: nat, t: Trip, r: Round)
    requires t.reply == Running && Further(p, retries, t, r).reply != Running
    ensures
      var reply := Further(p, retries, t, r).reply;
      && (forall s :: reply == Upstream(s) <==>
            && s != NOT_MODIFIED && !RetryStatus(s)
            && (r.result == Response(s, true) || r.result == Response(s, false)))
      && (reply == FromCache <==> r.result == Response(NOT_MODIFIED, true))
  {
  }

  // ------------------------------------------------------------------------------------------------
  // Waiting

  function Total(slept: seq<nat>): nat {
    if slept == [] then 0 else Total(slept[..|slept| - 1]) + slept[|slept| - 1]
  }

  lemma {:induction false} TotalOfDelays(kind: Kind, delay: nat -> Option<nat>, slept: seq<nat>)
    requires forall k :: delay(k) == DelayNo(kind, k)
    requires Delays(delay, slept)
    ensures TotalDelay(kind, |slept|) == Some(Total(slept))
    decreases |slept|
  {
    if slept != [] {
      TotalOfDelays(kind, delay, slept[..|slept| - 1]);
      assert delay(|slept|) == DelayNo(kind, |slept|);
    }
  }

  /** The waits are the strategy's delays in order; a request that used up its attempts has waited after each of them
      but the last. */
  lemma WaitsAreDelays(p: Params, rounds: seq<Round>)
    ensures
      var t := Whole(p, rounds);
      && Delays(p.delay, t.slept)
      && (p.maxAttempts > 0 && (t.reply == ServiceUnavailable || t.reply == InternalServerError) ==>
            |t.slept| == p.maxAttempts - 1)
  {
    var retries, t := TravelEnds(p, 0, NOTHING_YET, rounds);
  }

  /** The total wait of an exhausted request is the sum of the strategy's first max_attempts - 1 delays. */
  lemma ExhaustedTotal(p: Params, kind: Kind, rounds: seq<Round>)
    requires p.maxAttempts > 0 && forall k :: p.delay(k) == DelayNo(kind, k)
    requires Whole(p, rounds).reply == ServiceUnavailable || Whole(p, rounds).reply == InternalServerError
    ensures TotalDelay(kind, p.maxAttempts - 1) == Some(Total(Whole(p, rounds).slept))
  {
    WaitsAreDelays(p, rounds);
    TotalOfDelays(kind, p.delay, Whole(p, rounds).slept);
  }

  /** With Fibonacci backoff an exhausted request with m attempts has waited base * (F(m + 1) - 1). */
  lemma ExhaustedFibonacci(p: Params, seconds: nat, rounds: seq<Round>)
    requires p.maxAttempts > 0 && forall k :: p.delay(k) == DelayNo(Fibonacci(seconds * NANOS), k)
    requires seconds * Fib(p.maxAttempts - 1) < TWO_64
    requires Whole(p, rounds).reply == ServiceUnavailable || Whole(p, rounds).reply == InternalServerError
    ensures Total(Whole(p, rounds).slept) == seconds * (Fib(p.maxAttempts + 1) - 1) * NANOS
  {
    ExhaustedTotal(p, Fibonacci(seconds * NANOS), rounds);
    FibonacciTotal(seconds, p.maxAttempts - 1);
  }
}
