# Road7 control logic, modelled and proved in Dafny

Road7 is a reverse proxy. This project models the state machines that decide what happens to a request: the load
balancer, the circuit breaker, the token-bucket rate limiter, the retry loop with its backoff strategies, the prefix
routing and the header transforms. Each machine is a class or a method with the fields, branches and constants of the
source, proved against a specification function on values; the properties are lemmas about those functions over every
run, every interleaving and every input.

`dafny verify dfyconfig.toml` checks the whole project.

| file | content |
|---|---|
| `CircuitBreaker.dfy`, `BreakerHistory.dfy` | the breaker; its whole state and whom it admits, told from the events it has seen |
| `BreakerProbes.dfy` | the probe-rate bound and its tightness |
| `Selection.dfy`, `BalancerFairness.dfy` | the four balancing algorithms as picks on one path; fairness, exact shares, equivalence |
| `LoadBalancer.dfy`, `BalancerRuns.dfy` | the balancer's tables and `get_target`; runs over many paths seen from one |
| `BalancerAnswers.dfy` | what `get_target` can answer, panics included, told from the configuration |
| `ConcurrentBalancer.dfy` | least connections as interleaved scan, release and increment; bounded spread and its tightness |
| `RateLimiter.dfy` | the bucket; sliding windows; long-run rate |
| `Backoff.dfy`, `BackoffTotals.dfy` | the strategies with 32- and 64-bit arithmetic; closed forms and exactness conditions |
| `Headers.dfy`, `Routing.dfy` | transforms and the rebuilt request; routing and limiter lookup |
| `Upstream.dfy` | where an attempt goes: the balancer's choice and the rebuilt request |
| `ProxyRequest.dfy`, `ProxyLaws.dfy`, `LoopCalls.dfy` | the retry loop, its accounting, and what it finds of the balancer |
| `ProxySystem.dfy`, `ProxyDraining.dfy` | many requests around their breakers and one balancer; time, draining and recovery |
| `ProxyWedging.dfy`, `WedgingConfigs.dfy` | exactly when a breaker can be left half-open for good; in terms of configurations |
| `ProxyAccounts.dfy`, `UpstreamFairness.dfy` | each of those requests as a run of the loop, with all outcomes in balance; their attempts as picks of the balancer |
| `Numerics.dfy`, `Options.dfy`, `Units.dfy` | arithmetic facts; the option type; nanoseconds and integer widths |

## Modelling decisions

- Instants and durations are natural numbers of nanoseconds. A breaker or limiter call reads the clock once; it holds
  its lock for its whole duration.
- 64-bit arithmetic in the Fibonacci and Harmonic strategies wraps around, as in a release build; casts to 32 bits
  truncate. Counters that would need 2^64 events to overflow are unbounded.
- A panic is an outcome (`Panicked`, `NotSent`, `Crashed`, `None`), not a precondition. A request can panic in a delay,
  in the balancer's choice of a URL, and in the request rebuilt for it. It waits after each attempt but its last, so it
  asks its strategy for delays 1 to max_attempts - 1 at most, and only those matter to its breaker.
- Random draws are parameters: every result holds for all of them. Jitter is a real factor whose product is rounded
  down to nanoseconds.
- The f64 score of weighted least connections is compared by exact cross-multiplication, which agrees with the float
  comparison while count times weight stays below about 2^52. A weight of zero gives an infinite or undefined score, so
  such a target is never chosen. Exponential and geometric factors are whole numbers.
- HashMap and DashMap iteration is a parameter: a sequence that visits each key once, in any order. In the concurrent
  system the balancer's table, which nothing changes, is iterated in one order, whichever it is.
- The connection counts are never decremented, so they count assignments made.
- The cache is the flag that says whether an entry is there to answer a 304 from. The retry loop runs on a finite
  stream of rounds chosen by the outside world, each with the calls of others to the balancer, the result of the
  attempt if it is sent, and what other requests did to the shared breaker meanwhile; a loop that is not over when the
  stream ends is `Running`.
- In the concurrent system requests arrive for any breakers. Those of other breakers use the same balancer and even the
  same paths, as header routing and nested keys allow; where a choice or a rebuilding can panic, the runs that wedge a
  breaker use them to turn the balancer. They are not needed where only delays panic (`ProxyWedging.RecoversIffAlone`),
  nor by one configuration in `WedgingConfigs.SpareWeightWedgesAlone`.
- Header-name parsing is a function parameter. A header value may hold tab and any byte from 32 on save 127, and reads
  as text if it also stays below 127.

## Where the code and its documentation differ

- `README.md:157-159` describes `half_open_attempts` as the number of successes that close the circuit. In the code one
  success closes it, and `half_open_attempts + 1` requests are let through per half-open period.
- `README.md:167-170` describes `max_rate` as requests per second and `capacity` as requests per period. In the code
  `capacity + burst_capacity` is the size of the bucket, and `max_rate` tokens are added per `every` seconds.
- The retry after a timeout (`src/main.rs:610-624`) and the extra half-open transition (`src/main.rs:633-635`) are
  unreachable (`ProxyLaws.TimeoutIsFinal`, `ProxyRequests.RecordExhausted`).
- A 304 that finds nothing cached records a success and goes round the loop again without using up an attempt
  (`src/main.rs:519-545`), so a request can record several outcomes; `ProxyLaws.OutcomesRecorded` counts them exactly.
- `README.md:158` gives the reset timeout as the time until an open breaker is tried again. It can then stay half-open
  for good exactly if a request can record a failure and a request can panic (`ProxyWedging.RecoversIff`), because a
  panic ends a request without an outcome. Configurations that allow it: exponential backoff on 2 seconds with a factor
  of 10^19, a random delay on a base of 0 seconds, and weighted round robin with more weights than URLs (nothing checks
  the lengths).
- With nested keys, such as a limiter on a target and one on an endpoint below it (`src/main.rs:92-121`), the limiter
  that a path gets depends on the iteration order (`Routing.LimiterOrderIndependentIffPrefixFree`).

## Model

| member | source | states |
|---|---|---|
| `CircuitBreakers.CircuitBreaker.constructor` | src/circuit_breaker.rs:44-56 | a new breaker is closed with nothing counted, and consistent |
| `CircuitBreakers.CircuitBreaker.RecordSuccess` | src/circuit_breaker.rs:58-63 | a success closes the breaker and forgets all failures and probes |
| `CircuitBreakers.CircuitBreaker.RecordFailure` | src/circuit_breaker.rs:65-72 | a failure is counted and opens the breaker from the threshold on; a consistent breaker is never half-open afterwards |
| `CircuitBreakers.CircuitBreaker.CanAttempt` | src/circuit_breaker.rs:74-95 | who is admitted in each state, and the probe count that admission changes; consistency is kept |
| `CircuitBreakers.CircuitBreaker.TransitionToClosed` | src/circuit_breaker.rs:97-102 | has exactly the effect of a success |
| `CircuitBreakers.CircuitBreaker.TransitionToOpen` | src/circuit_breaker.rs:104-109 | opens until one reset timeout from now |
| `CircuitBreakers.CircuitBreaker.TransitionToHalfOpen` | src/circuit_breaker.rs:111-115 | becomes half-open with no probe counted, and keeps the failure count |
| `CircuitBreakers.StateIsOutcomeHistory` | src/circuit_breaker.rs:58-115 | in every run of attempts and outcomes the failure count is the failures since the last success, and Closed means that this is below the threshold (a threshold of 0 acts as 1) |
| `CircuitBreakers.OutcomeLeavesHalfOpen` | src/circuit_breaker.rs:58-72 | no outcome, stale or not, leaves a breaker half-open |
| `BreakerHistory.BreakerIsHistory` | src/circuit_breaker.rs:44-115 | in every run every field of the breaker is a function of the events: with too few failures it is closed, otherwise open until the reset timeout after the last failure whoever asks meanwhile, and half-open from the first due attempt on |
| `BreakerHistory.AdmittedIff` | src/circuit_breaker.rs:74-95 | after any events a request is admitted exactly if the failures since the last success are too few, or it is the first due since the last failure, or at most half_open_attempts have come since that one, it included |
| `BreakerHistory.TriedAgainWhenDue` | src/circuit_breaker.rs:77-85 | after the failure that opens it, an attempt is admitted exactly from the reset timeout on, however many were refused before |
| `BreakerProbes.FailureOpens` | src/circuit_breaker.rs:65-72 | a failure after which the breaker is open has opened it at that very instant, in every run |
| `BreakerProbes.ProbeRateBound` | src/circuit_breaker.rs:65-115 | once open and with no success recorded, admissions number at most (half_open_attempts + 1) times the whole reset timeouts elapsed, whatever failures arrive; none before the first timeout |
| `BreakerProbes.ProbeRateBoundIsTight` | src/circuit_breaker.rs:65-115 | for every number of timeouts some run reaches the bound |
| `Selection.OwnerUnique` | src/load_balancer.rs:120-127 | each slot below the sum of the weights has one owner in the cumulative scan |
| `Selection.LowestScoreIsFirstLowest` | src/load_balancer.rs:159-169 | the strict running minimum finds the earliest target of the lowest count per weight, and none only if all weights are zero |
| `BalancerFairness.WeightedPick` | src/load_balancer.rs:113-128 | pick n of weighted round robin goes to the one target that owns slot n mod W |
| `BalancerFairness.WeightedShare` | src/load_balancer.rs:113-128 | after any n picks each target has its weight per full period plus the slots it owns among those used in the current one |
| `BalancerFairness.WeightedWindow` | src/load_balancer.rs:113-128 | every window of W consecutive picks, aligned or not, goes to each target exactly as often as its weight |
| `BalancerFairness.AlgorithmsAgree` | src/load_balancer.rs:44-50 | from a fresh start and on the default weights all four algorithms send pick n to target n mod k |
| `BalancerFairness.WeightedLeastProportional` | src/load_balancer.rs:147-176 | in every serialised run no target is more than one assignment ahead of another per weight, and a weight of zero gets none |
| `BalancerFairness.WeightedLeastShare` | src/load_balancer.rs:147-176 | after n picks over k targets: n*w - (k-1)*w <= c*W <= n*w + W - w |
| `BalancerFairness.WeightedLeastPeriod` | src/load_balancer.rs:147-176 | after m*W picks every target has exactly m*w, the totals of weighted round robin |
| `LoadBalancers.LoadBalancer.constructor` | src/load_balancer.rs:39-65 | missing weights become ones per target, the sums match, and both tables start empty |
| `LoadBalancers.LoadBalancer.GetTarget` | src/load_balancer.rs:67-181 | the loop over the paths: who answers, with what, falls through, returns nothing or panics, and both tables afterwards |
| `LoadBalancers.LoadBalancer.RoundRobinTurn` | src/load_balancer.rs:71-80 | the round-robin branch, the empty list included |
| `LoadBalancers.LoadBalancer.LeastTurn` | src/load_balancer.rs:85-112 | the entry insertion, scan and increment pick the first of the fewest |
| `LoadBalancers.LoadBalancer.WeightedTurn` | src/load_balancer.rs:113-128 | the cumulative scan finds the owner of the counter's slot; missing weights and lists that are too long |
| `LoadBalancers.LoadBalancer.WeightedLeastTurn` | src/load_balancer.rs:147-176 | the scan picks the first of the lowest scores; missing and short weight lists |
| `BalancerRuns.RunSeenFromPath` | src/load_balancer.rs:67-181 | after any run of calls over any paths and iteration orders, a path's tables are those of its own picks alone |
| `BalancerRuns.CallGetsPick` | src/load_balancer.rs:67-181 | the n-th call under a path gets that path's pick n, so all fairness results hold of `get_target` |
| `BalancerAnswers.CallIsTurn` | src/load_balancer.rs:67-181 | a call is the turn of the first path above the requested one that has somebody to choose; the paths before it leave the tables reading the same |
| `BalancerAnswers.AnswersRecur` | src/load_balancer.rs:67-181 | from every state that calls lead to, every answer that the configuration allows for a path comes up after some more calls for it |
| `BalancerAnswers.AnswersExact` | src/load_balancer.rs:67-181 | what a call can answer after some calls, over all paths and orders, is exactly what the configuration allows |
| `BalancerAnswers.PanicsIff` | src/load_balancer.rs:71-169 | some call for a path panics exactly if the path that answers it is round robin over no URL, weighted round robin with a positive weight beyond the URLs, or weighted least connections with too few weights |
| `ConcurrentBalancer.WeightedSpreadBound` | src/load_balancer.rs:147-176 | with at most p requests inside, in every interleaving (committed - p) * w_j <= count_j * w |
| `ConcurrentBalancer.SpreadBound` | src/load_balancer.rs:85-112 | plain least connections: counts plus pending choices never exceed any other count by more than p; p is 1 under the write lock of src/main.rs:483-485 and the pool size without it |
| `ConcurrentBalancer.SpreadBoundIsTight` | src/load_balancer.rs:85-112 | without the write lock some interleaving of p requests reaches a spread of p |
| `ConcurrentBalancer.SerialisedStep` | src/main.rs:483-485 | a choice and increment that nobody disturbs are one step of the serialised balancer |
| `RateLimiters.RateLimiter.New` | src/rate_limiter.rs:36-54 | panics exactly for a capacity of zero or a rate that is zero in its lower 32 bits, and otherwise starts full |
| `RateLimiters.RateLimiter.Refill` | src/rate_limiter.rs:59-63 | one tick of the refill task, as an event of the run that the counter is a function of |
| `RateLimiters.RateLimiter.Acquire` | src/rate_limiter.rs:89-100 | grants exactly if no window ending now has used up the burst and its own refills |
| `RateLimiters.TokensAreLeastAllowance` | src/rate_limiter.rs:41-63 | after any events the counter is the least of (burst + refills - grants) over all windows ending now |
| `RateLimiters.WindowBound` | src/rate_limiter.rs:89-100 | every window of every run grants at most the burst plus its refills |
| `RateLimiters.DeniedIffSaturated` | src/rate_limiter.rs:89-100 | a request is denied exactly when some window ending now is saturated |
| `RateLimiters.FirstGrants` | src/rate_limiter.rs:41-100 | a new limiter grants its first capacity + burst_capacity requests and denies the rest until a refill |
| `RateLimiters.DurationDivision` | src/rate_limiter.rs:54 | dividing a Duration by fields is the floor of the whole in nanoseconds |
| `RateLimiters.LongRunRate` | src/rate_limiter.rs:52-63 | grants in the first k periods are at most burst + k*rate + the drift of the rounded interval + 1, with no drift in the first period when the rate is at most the interval; the rate is max_rate cast to 32 bits |
| `RateLimiters.NoRefillsNoGrants` | src/rate_limiter.rs:54-56 | a limiter that could be created never grants more than its burst exactly if its period in nanoseconds is below its rate, so that the interval rounds to zero and the refill task dies |
| `Backoff.RetryStrategy.Delay` | src/retry.rs:52-272 | the k-th call returns the k-th delay of its kind or a random one, with jitter if configured, or panics where a Duration overflows, the 32-bit divisor is zero, or a random range is empty |
| `Backoff.RetryStrategy.FibonacciSeconds` | src/retry.rs:172-179 | despite wrap-around the delay is base*F(k) modulo 2^64 |
| `Backoff.RetryStrategy.HarmonicNanos` | src/retry.rs:233-240 | splitting and recombining the Duration loses nothing |
| `Backoff.ToStrategy` | src/retry.rs:286-337 | a fresh strategy of the kind, with the jitter and the attempts that the configuration names |
| `BackoffTotals.FibonacciDelayExact` | src/retry.rs:172-179 | call k returns base*F(k) if and only if that fits 64 bits |
| `BackoffTotals.FibonacciCountersFit` | src/retry.rs:174-176 | the strategy's counters do not overflow for exactly the first 91 calls |
| `BackoffTotals.FibonacciTotal` | src/retry.rs:171-179 | n delays come to base * (F(n+2) - 1) |
| `BackoffTotals.LinearTotal` | src/retry.rs:82-87 | n linear or incremental delays come to n*base + step*n(n+1)/2 |
| `BackoffTotals.ExponentialTotal` | src/retry.rs:52-57 | n exponential or geometric delays with factor f come to base*(f^(n+1) - f)/(f - 1) |
| `BackoffTotals.HarmonicDelayExact` | src/retry.rs:232-240 | call k returns floor(T/k) nanoseconds, and delays never increase |
| `BackoffTotals.HarmonicTotal` | src/retry.rs:232-240 | n harmonic delays come to at most T * (1 + floor(log2 n)) |
| `BackoffTotals.LastDelayDecides` | src/retry.rs:52-245 | up to 2^32 attempts, a strategy without random draws panics in none of the delays of a request exactly if it does not panic in the last |
| `BackoffTotals.MayPanicExact` | src/retry.rs:52-272 | some random draw makes a call panic exactly if a condition on its parameters holds: the range of delays is empty, or the jitter bound at its least or greatest delay is no positive Duration or overflows the sum |
| `BackoffTotals.DelaysExact` | src/retry.rs:111-116 | a call can come to exactly the delays d <= x < d + floor(d * jitter factor) for the base delays d, which for a random delay are those between its two bounds, each for some draws |
| `BackoffTotals.PanicsIffUndefined` | src/retry.rs:52-245 | before jitter exactly the delays of 2^64 seconds or more panic, and the harmonic ones whose count is a multiple of 2^32 |
| `BackoffTotals.LowerBitsDecide` | src/retry.rs:84-236 | linear, incremental and harmonic delays repeat with the lower 32 bits of the count, harmonic ones also with the lower 64 bits of the base |
| `BackoffTotals.RandomDelayPanics` | src/retry.rs:111-116 | without jitter a random delay panics in every call or in none: exactly if its upper bound is not above its lower one |
| `BackoffTotals.LastCallDecides` | src/retry.rs:52-245 | without jitter and up to 2^32 attempts some call of a request may panic exactly if its last may |
| `BackoffTotals.DefaultTotals` | src/retry.rs:287-323 | the totals under the default factor and the default steps of `to_strategy` |
| `BackoffTotals.ConfiguredTotals` | src/retry.rs:286-331 | the total of n delays for every strategy name, with the factor and the step that are configured or their defaults, and a fixed interval under any other name |
| `BackoffTotals.ConfiguredRandomDelay` | src/retry.rs:303-337 | a configured random delay comes to exactly the delays between the base and the configured or doubled bound, and what its jitter makes of them |
| `Headers.HeaderMap.ApplyTransforms` | src/transform.rs:26-58 | the loop in place has the result of the transforms applied in order |
| `Headers.TransformsFactorPerHeader` | src/transform.rs:26-58 | each header's final values are the fold of only the transforms that name it |
| `Headers.PruningPreservesMeaning` | src/transform.rs:26-58 | deleting every transform before a later Set or Remove of its header never changes the result |
| `Headers.PrunedHasOneReset` | src/transform.rs:26-58 | what is left for each header has no reset except at its front |
| `Headers.FinalValue` | src/transform.rs:29-53 | a header ends as the last value set followed by the readable values appended since, whatever it was before |
| `Headers.SetAndAppend` | src/transform.rs:29-53 | what Set, Append and Remove leave, byte by byte: values that no header may hold become empty, and an unreadable one is appended to as if empty |
| `Headers.UnknownOperations` | src/transform.rs:28-54 | transforms with another operation, or whose name is no header name, change nothing |
| `Headers.RebuildHeaders` | src/main.rs:744-765 | the rebuilt headers keep the last value of each name, extend X-Forwarded-For, and set Host and X-Proxy, under any iteration order |
| `Headers.UpstreamHeadersAre` | src/main.rs:744-765 | what each rebuilt header holds: the client after a readable X-Forwarded-For, the authority as Host, the proxy mark, the last of the other values |
| `Routing.FindTarget` | src/main.rs:659-717 | returns an entry that matches the path and the routing header, and none only if no entry does |
| `Routing.SelectsTo` | src/main.rs:676-716 | a table entry selects its own URLs if it has no routing header, and otherwise exactly the URL configured for the text of that header |
| `Routing.FoundIsFirst` | src/main.rs:659-717 | nested keys or not, the target found is that of the first entry in the iteration that selects one |
| `Routing.FirstPrefixIsFirst` | src/rate_limiter.rs:131-136 | the key found for a path is the first prefix of it in the iteration |
| `Routing.FindTargetOrderIndependent` | src/main.rs:659-717 | without nested keys the target is the same under every iteration order, header routing included |
| `Routing.HeaderRouting` | src/main.rs:676-695 | without nested keys and under every order, a target with a routing header sends a request to the URL configured for its text, and nowhere if it is missing or not configured |
| `Routing.OrderIndependentIffPrefixFree` | src/load_balancer.rs:67-69 | the key found for a path is independent of the order for exactly the tables without nested keys |
| `Routing.RoutingAgreement` | src/main.rs:726-734 | without nested keys a target without a routing header and the balancer select the same key, and key plus forwarded suffix is the path |
| `Routing.RateLimiterManager.GetLimiter` | src/rate_limiter.rs:124-140 | the exact match or else the first prefix in iteration order |
| `Routing.LimiterFor` | src/rate_limiter.rs:124-140 | the limiter configured for the very path wins under every order, and there is none only if no key is a prefix of the path |
| `Routing.RateLimiterManager.AddLimiter` | src/rate_limiter.rs:142-150 | creates a full limiter and inserts or replaces one entry, or panics for a configuration that no limiter is created from |
| `Routing.LimiterOrderIndependentIffPrefixFree` | src/rate_limiter.rs:124-140 | the limiter of a path is independent of the order for exactly the tables without nested keys, the exact match notwithstanding |
| `ProxyRequests.ProxyLoop` | src/main.rs:469-638 | the retry loop: reply, waits, outcomes; the breaker and the balancer have seen exactly the events and calls of the request and of others; each attempt is sent to the URL that its own call chose, rebuilt from the unchanged original, or ends the loop in a panic |
| `ProxyRequests.TakeTurn` | src/main.rs:497-626 | one attempt: what it records, whether it waits, and how the loop goes on |
| `ProxyRequests.RecordSuccess` | src/main.rs:511-517 | both branches have the effect of a success |
| `ProxyRequests.RecordExhausted` | src/main.rs:631-636 | on a consistent breaker the whole block is one recorded failure, and the half-open check never fires |
| `Upstreams.Rebuild` | src/main.rs:491-494 | URI and headers of an attempt depend on the original request and the chosen URL only; a panic if they make no URI |
| `Upstreams.UriKeepsSuffix` | src/main.rs:728-735 | an attempt asks its URL for the path without the matched key, with the query if there is one, and panics exactly if that is no URI |
| `Upstreams.RoutedUri` | src/main.rs:659-735 | composed with routing: the key taken off is the one under which the target was found |
| `Upstreams.OutgoingHeaders` | src/main.rs:491-494 | each header of an attempt is the fold of its transforms over the rebuilt value, with the host of the URI it is sent to |
| `Upstreams.GoesToFirstUrl` | src/main.rs:483-489 | without a balancer, or where it has nobody to choose, an attempt goes to the first URL of the target |
| `Upstreams.GoesToTaken` | src/main.rs:483-489 | otherwise to a URL that the answering path can take, or to the first URL if that path has no weights |
| `Upstreams.Prepare` | src/main.rs:483-494 | an attempt's URL is the balancer's choice or the first URL of the target, and its request is the one rebuilt for it; a panic in either |
| `Upstreams.FateRecurs` | src/main.rs:483-494 | from every sound state some calls lead to an attempt that is sent, if the configuration allows one, and to one that panics, if it allows one |
| `ProxyLaws.TravelEnds` | src/main.rs:480-627 | the invariant of the loop: attempts used, calls, waits and outcomes in step, up to whichever end is reached |
| `ProxyLaws.CallsAndWaits` | src/main.rs:480-627 | at most max_attempts calls plus one per uncached 304, at most max_attempts - 1 waits, and an end within that many turns |
| `ProxyLaws.OutcomesRecorded` | src/main.rs:511-636 | one outcome for the reply, a success for a response and a failure for an error, and before it one success per uncached 304 |
| `ProxyLaws.OutcomesAtTheirInstants` | src/main.rs:497-636 | exactly the outcomes recorded and their instants: a success for each uncached 304, then the outcome of the reply, each when its attempt finished, or when a request without attempts left leaves |
| `ProxyLaws.ExactlyOneOutcome` | src/main.rs:480-638 | without uncached 304s the loop ends within max_attempts turns and records exactly one outcome |
| `ProxyLaws.MissRecordsTwice` | src/main.rs:519-545 | a concrete request that records two outcomes because of an uncached 304 |
| `ProxyLaws.TimeoutIsFinal` | src/main.rs:602-624 | in every run an attempt that timed out was the last, recorded one failure and made the reply Timeout, so the retrying branch is never taken |
| `ProxyLaws.TimeoutMeans` | src/main.rs:602-624 | the reply is Timeout exactly if some attempt timed out, which is then the last |
| `ProxyLaws.TimeoutReplies` | src/main.rs:602-624 | however attempts are timed, the reply is Timeout exactly if the last one timed out and the limit had passed or no attempt was left |
| `ProxyLaws.EarlierTimeouts` | src/main.rs:602-615 | an attempt that timed out and was retried did so within the limit since the start of the loop |
| `ProxyLaws.ErrorReplies` | src/main.rs:587-637 | InternalServerError exactly if all attempts failed and the last with a transport error; ServiceUnavailable exactly if all failed and the last with a retry status, or none was allowed |
| `ProxyLaws.ResponsesMean` | src/main.rs:498-585 | a response exactly if the last attempt was answered with a status that is not retried, a cached one for a 304 |
| `ProxyLaws.AnsweredOnce` | src/main.rs:471-545 | the reply to a single answer for each status: 408, 429, 500, 502, 503 and 504 are retried, 304 comes from the cache |
| `ProxyLaws.WaitsAreDelays` | src/main.rs:499-592 | the waits are the strategy's delays in order, max_attempts - 1 of them for an exhausted request |
| `LoopCalls.TablesAreRuns` | src/main.rs:482-489 | each attempt finds the balancer as the calls of its own request and of the others have left it, in their order |
| `LoopCalls.AttemptAsksAfter` | src/main.rs:482-494 | so it is sent to what the balancer answers after those calls, or to the first URL, or panics |
| `ProxyLaws.ExhaustedTotal` | src/main.rs:480-592 | an exhausted request has waited the sum of the first max_attempts - 1 delays |
| `ProxyLaws.ExhaustedFibonacci` | src/retry.rs:171-179 | with Fibonacci backoff an exhausted request with m attempts has waited base * (F(m+1) - 1) |
| `ProxySystem.AlwaysOccupied` | src/main.rs:286-637 | in every interleaving, whatever panics, no more requests are inside than permits, and each has waited once per attempt used |
| `ProxySystem.AlwaysWatched` | src/main.rs:442-637 | in every interleaving, if no request of a breaker can panic, the breaker when half-open has at least half_open_attempts counted + 1 of its requests in flight, whatever those of other breakers do |
| `ProxySystem.NeverWedges` | src/main.rs:450-456 | once none of them is in flight and an open breaker's time is up, the next request is admitted, whatever happened before |
| `ProxyDraining.DrainsWithin` | src/main.rs:482-637 | from every reachable state, panics included, the requests in flight take at most 2 * max_attempts + 1 steps per permit, uncached 304s apart, and as long as one is in flight a step can be taken |
| `ProxyDraining.CanAlwaysRecover` | src/circuit_breaker.rs:74-95 | from every reachable state and from any instant on, the requests in flight can end, each step on time, so that an admission follows |
| `ProxyWedging.StuckWithoutOutcome` | src/circuit_breaker.rs:86-93 | a half-open breaker out of probes admits nobody until an outcome is recorded |
| `ProxyWedging.SpentForGood` | src/main.rs:450-466 | with none of its requests in flight such a breaker stays as it is whatever arrives, and never admits again |
| `ProxyWedging.CrashWedges` | src/main.rs:483-503 | if one request of a breaker can record a failure and one can panic, some run of such requests, with every wait and timeout on time, ends in that state |
| `ProxyWedging.RecoversIff` | src/main.rs:442-637 | for every family of requests that a breaker gets: it admits again in every run on time, once none of them is in flight and its time is up, exactly if none can record a failure or none can panic |
| `ProxyWedging.RecoversIffAlone` | src/main.rs:442-637 | if attempts are always sent, so that only delays panic, the same holds of the runs in which all requests are those of the breaker |
| `WedgingConfigs.RecoversIffConfigured` | src/main.rs:442-637 | for a configured target: exactly if there are no permits or attempts, no attempt can be sent, or neither the strategy nor the balancer nor the rebuilding can panic |
| `WedgingConfigs.RecoversIffLastDelay` | src/retry.rs:52-245 | if attempts are always sent and there is no jitter: exactly if the last delay of the strategy does not panic |
| `WedgingConfigs.SteepBackoffWedges` | src/retry.rs:52-57 | a configuration that wedges: exponential backoff on 2 seconds with a factor of 10^19 |
| `WedgingConfigs.EmptyRandomRangeWedges` | src/retry.rs:111-116 | a configuration that wedges: a random delay on a base of 0 seconds |
| `WedgingConfigs.SpareWeightWedges` | src/load_balancer.rs:113-128 | a configuration that wedges under any strategy: weighted round robin over one URL with a second weight |
| `WedgingConfigs.SpareWeightWedgesAlone` | src/load_balancer.rs:113-128 | with a second weight above half_open_attempts, requests of that target alone do it |
| `ProxyAccounts.FlightsAreWhole` | src/main.rs:469-638 | in every interleaving a request in flight has done what the loop does on its own turns, and its breaker is the one that admitted it after the loop's log and what others did since |
| `ProxyAccounts.DeparturesAreEnds` | src/main.rs:511-637 | a request leaves only when the loop on its own turns ends; its last step records its one final outcome on its breaker and nothing else, no outcome if it crashes, and the breaker has seen exactly the loop's log |
| `ProxyAccounts.OutcomesBalance` | src/main.rs:511-637 | in every interleaving admissions plus uncached 304s equal requests in flight plus outcomes recorded plus crashes |
| `ProxyAccounts.BreakersAreHistoric` | src/main.rs:442-456 | in every interleaving a breaker is there from its first request on, under that configuration, and does what all its requests together do to it |
| `ProxyAccounts.LetInIff` | src/main.rs:450-456 | so a request is let in exactly as the history of its breaker says |
| `UpstreamFairness.AttemptsArePicks` | src/main.rs:482-489 | in every run over all breakers the picks of a target equal its attempts under way, finished and not rebuilt, retries included |
| `UpstreamFairness.FinishedWithinPermits` | src/main.rs:482-489 | so the attempts finished or not rebuilt are the picks, less at most one per permit |
| `UpstreamFairness.AttemptsByWeight` | src/main.rs:482-489 | with either weighted algorithm, m full periods of attempts give each target m times its weight when nothing is in flight |

## Left out

- `Backoff.RetryStrategy.Delay`: exponential and geometric delays are exact integer products, because the rounding of
  `powf` and `mul_f64` and non-integer factors are not the point of the totals; the jitter factor is any real number.
- `BackoffTotals.ExponentialTotal`: whole-number factors of at least 2 only, for the same reason; a factor of 1 makes
  every delay the base.
- `LoadBalancers.LoadBalancer.GetTarget`: the Random, IPHash and ConsistentHashing branches are missing, because
  hashing and random numbers leave only an index bound to state; counters and counts are unbounded, and overflow would
  need 2^64 picks.
- `ProxyWedging.RecoversIff`: where the balancer or the rebuilding can panic, the condition is exact for runs that may
  include requests of other breakers, because with those of one breaker alone it would also depend on how its bad
  choices follow one another.
- `src/cache.rs` and the cache contents: only whether a 304 finds an entry matters to the loop.
- Validation, bot detection, authentication, CORS, security headers, metrics, logging, static files and configuration
  parsing: library calls and tables with little control logic.
- The shutdown of the refill task, and the `ongoing_requests` counter.
- The overflow of an Instant or of `capacity + burst_capacity`, and panics while a reply is built: further panics of
  the source, the last of them after the outcome is recorded.
