/** Any number of concurrent requests, their circuit breakers and the balancer they share: each request is admitted
    by the breaker of its target, holds a permit of the concurrency limiter, goes round its retry loop at its own
    pace, asks the balancer before each attempt, and records its outcomes on its breaker. */
module ProxySystem {
  import LoadBalancers
  import opened CircuitBreakers
  import opened Options
  import opened ProxyRequests
  import opened Upstreams

  /** A request, with what it starts its loop with and the configuration of its target's breaker. */
  datatype Request = Request(o: Original, p: Params, cfg: Config)

  /** A request inside its retry loop: the URL of an attempt under way, and the instant before which nothing more of it
      happens. */
  datatype Flight = Flight(req: Request, retries: nat, trip: Trip, url: Option<string>, at: nat)

  /** The breakers under the first URLs of their targets, the balancer's tables, and the requests inside. */
  datatype System = System(breakers: map<string, Breaker>, tables: LoadBalancers.State, inflight: map<nat, Flight>)

  /** The permits of the concurrency limiter, and what all requests share. */
  datatype Proxy = Proxy(pool: nat, site: Site)

  datatype Step =
    | Arrive(id: nat, req: Request, at: nat)  // asks the breaker, and enters the loop if admitted
    | Choose(id: nat, at: nat)                // begins an attempt: asks the balancer and rebuilds the request
    | Finish(id: nat, r: Round)               // gets the result of the attempt and records what it does
    | UseUp(id: nat, at: nat)                 // leaves the loop with its attempts used up

  function Key(req: Request): string {
    req.o.firstUrl
  }

  /** A step can be taken by a request that is where the step starts; arriving takes a free permit. */
  predicate Enabled(w: Proxy, s: System, step: Step) {
    match step
    case Arrive(id, _, _) => id !in s.inflight && |s.inflight| < w.pool
    case Choose(id, _) =>
      id in s.inflight && s.inflight[id].url.None? && s.inflight[id].retries < s.inflight[id].req.p.maxAttempts
    case Finish(id, r) => id in s.inflight && s.inflight[id].url.Some? && !r.result.NotSent?
    case UseUp(id, _) =>
      id in s.inflight && s.inflight[id].url.None? && s.inflight[id].retries >= s.inflight[id].req.p.maxAttempts
  }

  /** The breaker of a request; the first request of a target creates it. */
  function BreakerOf(s: System, req: Request, now: nat): Breaker {
    if Key(req) in s.breakers then s.breakers[Key(req)] else Fresh(req.cfg, now)
  }

  function Arrived(s: System, id: nat, req: Request, at: nat): System {
    var b := BreakerOf(s, req, at);
    System(s.breakers[Key(req) := Attempted(b, at)], s.tables,
           if Admits(b, at) then s.inflight[id := Flight(req, 0, NOTHING_YET, None, at)] else s.inflight)
  }

  /** A request whose choice or rebuilding panics just disappears. */
  function Chose(w: Proxy, s: System, id: nat, at: nat): System
    requires id in s.inflight
  {
    var f := s.inflight[id];
    var fate := Fate(w.site, s.tables, f.req.o);
    System(s.breakers, Asked(w.site, s.tables, f.req.o.path).0,
           if fate.Some? then s.inflight[id := f.(url := fate, at := at)] else s.inflight - {id})
  }

  /** A trip without the events of others: what they were is up to the run. */
  function Quiet(t: Trip): Trip {
    t.(log := [])
  }

  /** A request after a turn: it goes on once it has waited. */
  function Onwards(f: Flight, r: Round): Flight {
    var trip := Quiet(Further(f.req.p, f.retries, f.trip, r));
    var wait := if |trip.slept| > |f.trip.slept| then trip.slept[|trip.slept| - 1] else 0;
    Flight(f.req, RetriesAfter(f.retries, r), trip, None, r.finishedAt + wait)
  }

  /** A request whose delay panics just disappears too. */
  function Finished(s: System, id: nat, r: Round): System
    requires id in s.inflight
  {
    var f := s.inflight[id];
    var b := Run(BreakerOf(s, f.req, r.finishedAt), Recorded(f.req.p, f.retries, r));
    System(s.breakers[Key(f.req) := b], s.tables,
           if Onwards(f, r).trip.reply == Running then s.inflight[id := Onwards(f, r)] else s.inflight - {id})
  }

  function UsedUp(s: System, id: nat, at: nat): System
    requires id in s.inflight
  {
    var req := s.inflight[id].req;
    System(s.breakers[Key(req) := Failed(BreakerOf(s, req, at), at)], s.tables, s.inflight - {id})
  }

  /** The effect of a step; one that is not enabled changes nothing. */
  function Next(w: Proxy, s: System, step: Step): System {
    if !Enabled(w, s, step) then s
    else match step
      case Arrive(id, req, at) => Arrived(s, id, req, at)
      case Choose(id, at) => Chose(w, s, id, at)
      case Finish(id, r) => Finished(s, id, r)
      case UseUp(id, at) => UsedUp(s, id, at)
  }

  function Reach(w: Proxy, s: System, steps: seq<Step>): System {
    if steps == [] then s else Next(w, Reach(w, s, steps[..|steps| - 1]), steps[|steps| - 1])
  }

  const START := System(map[], NO_TABLES, map[])

  lemma ReachSnoc(w: Proxy, s: System, steps: seq<Step>, step: Step)
    ensures Reach(w, s, steps + [step]) == Next(w, Reach(w, s, steps), step)
  {
    assert (steps + [step])[..|steps + [step]| - 1] == steps;
  }

  lemma {:induction false} ReachConcat(w: Proxy, s: System, a: seq<Step>, b: seq<Step>)
    ensures Reach(w, s, a + b) == Reach(w, Reach(w, s, a), b)
    decreases |b|
  {
    if b == [] {
      assert a + b == a;
    } else {
      assert (a + b)[..|a + b| - 1] == a + b[..|b| - 1];
      ReachConcat(w, s, a, b[..|b| - 1]);
    }
  }

  // ------------------------------------------------------------------------------------------------
  // What every run keeps

  /** A request that goes round its loop has waited once for each attempt it has used. */
  predicate Looping(f: Flight) {
    && f.trip.reply == Running && f.trip.log == []
    && (f.retries < f.req.p.maxAttempts ==> |f.trip.slept| == f.retries)
    && f.retries <= f.req.p.maxAttempts
    && (f.url.Some? ==> f.retries < f.req.p.maxAttempts)
  }

  /** Every request inside goes round its loop, and has its breaker. */
  ghost predicate AllLooping(m: map<nat, Flight>, breakers: map<string, Breaker>) {
    forall id :: id in m ==> Looping(m[id]) && Key(m[id].req) in breakers
  }

  ghost predicate Occupied(w: Proxy, s: System) {
    |s.inflight| <= w.pool && TablesSound(w.site, s.tables) && AllLooping(s.inflight, s.breakers)
  }

  lemma Removed(m: map<nat, Flight>, id: nat)
    requires id in m
    ensures |m - {id}| == |m| - 1
  {
    assert (m - {id}).Keys == m.Keys - {id};
    assert |m.Keys - {id}| == |m.Keys| - 1;
  }

  lemma Inserted(m: map<nat, Flight>, id: nat, f: Flight)
    ensures |m[id := f]| == |m| + if id in m then 0 else 1
  {
    assert m[id := f].Keys == m.Keys + {id};
    if id in m {
      assert m.Keys + {id} == m.Keys;
    }
  }

  /** One request changes or enters, or leaves, and no breaker goes away. */
  lemma StillLooping(m: map<nat, Flight>, id: nat, f: Flight, before: map<string, Breaker>, after: map<string, Breaker>)
    requires AllLooping(m, before) && before.Keys <= after.Keys
    ensures Looping(f) && Key(f.req) in after ==> AllLooping(m[id := f], after)
    ensures AllLooping(m - {id}, after) && AllLooping(m, after)
  {
  }

  lemma LoopsOn(f: Flight, r: Round)
    requires Looping(f) && f.url.Some? && Onwards(f, r).trip.reply == Running
    ensures Looping(Onwards(f, r))
  {
  }

  lemma ArriveOccupies(w: Proxy, s: System, id: nat, req: Request, at: nat)
    requires Occupied(w, s) && Enabled(w, s, Arrive(id, req, at))
    ensures Occupied(w, Arrived(s, id, req, at))
  {
    var f := Flight(req, 0, NOTHING_YET, None, at);
    StillLooping(s.inflight, id, f, s.breakers, Arrived(s, id, req, at).breakers);
    Inserted(s.inflight, id, f);
  }

  lemma ChooseOccupies(w: Proxy, s: System, id: nat, at: nat)
    requires Occupied(w, s) && Enabled(w, s, Choose(id, at))
    ensures Occupied(w, Chose(w, s, id, at))
  {
    var f := s.inflight[id];
    var next := f.(url := Fate(w.site, s.tables, f.req.o), at := at);
    AskedAllowed(w.site, s.tables, f.req.o);
    StillLooping(s.inflight, id, next, s.breakers, s.breakers);
    Inserted(s.inflight, id, next);
    Removed(s.inflight, id);
  }

  lemma FinishOccupies(w: Proxy, s: System, id: nat, r: Round)
    requires Occupied(w, s) && Enabled(w, s, Finish(id, r))
    ensures Occupied(w, Finished(s, id, r))
  {
    var next := Onwards(s.inflight[id], r);
    if next.trip.reply == Running {
      LoopsOn(s.inflight[id], r);
    }
    StillLooping(s.inflight, id, next, s.breakers, Finished(s, id, r).breakers);
    Inserted(s.inflight, id, next);
    Removed(s.inflight, id);
  }

  lemma UseUpOccupies(w: Proxy, s: System, id: nat, at: nat)
    requires Occupied(w, s) && Enabled(w, s, UseUp(id, at))
    ensures Occupied(w, UsedUp(s, id, at))
  {
    StillLooping(s.inflight, id, s.inflight[id], s.breakers, UsedUp(s, id, at).breakers);
    Removed(s.inflight, id);
  }

  lemma OccupiedNext(w: Proxy, s: System, step: Step)
    requires Occupied(w, s)
    ensures Occupied(w, Next(w, s, step))
  {
    if Enabled(w, s, step) {
      match step {
        case Arrive(id, req, at) => ArriveOccupies(w, s, id, req, at);
        case Choose(id, at) => ChooseOccupies(w, s, id, at);
        case Finish(id, r) => FinishOccupies(w, s, id, r);
        case UseUp(id, at) => UseUpOccupies(w, s, id, at);
      }
    }
  }

  /** Whatever panics, the requests inside are in step with their waits and no more than there are permits, each has its
      breaker, and the balancer's tables are such as calls lead to. */
  lemma {:induction false} AlwaysOccupied(w: Proxy, steps: seq<Step>)
    ensures Occupied(w, Reach(w, START, steps))
    decreases |steps|
  {
    if steps != [] {
      AlwaysOccupied(w, steps[..|steps| - 1]);
      OccupiedNext(w, Reach(w, START, steps[..|steps| - 1]), steps[|steps| - 1]);
    }
  }

  // ------------------------------------------------------------------------------------------------
  // Half-open breakers are watched

  /** None of the delays that a request can ask for panics: it waits after each attempt but the last. */
  ghost predicate DelaysSome(p: Params) {
    forall k :: 1 <= k < p.maxAttempts ==> p.delay(k).Some?
  }

  /** A request that cannot panic: neither in a delay nor in the choice of a URL nor in the request rebuilt for it. */
  ghost predicate Steadfast(w: Proxy, req: Request) {
    req.p.maxAttempts > 0 ==> DelaysSome(req.p) && !CanFall(w.site, req.o)
  }

  /** No request of a breaker can panic. */
  ghost predicate NoPanic(w: Proxy, key: string, steps: seq<Step>) {
    forall i :: 0 <= i < |steps| && steps[i].Arrive? && Key(steps[i].req) == key ==> Steadfast(w, steps[i].req)
  }

  /** The requests of a breaker that are inside. */
  function Guests(m: map<nat, Flight>, key: string): set<nat> {
    set id | id in m && Key(m[id].req) == key
  }

  ghost predicate AllSteadfast(w: Proxy, m: map<nat, Flight>, key: string) {
    forall id :: id in m && Key(m[id].req) == key ==> Steadfast(w, m[id].req)
  }

  lemma GuestEnters(w: Proxy, m: map<nat, Flight>, id: nat, f: Flight, key: string)
    requires AllSteadfast(w, m, key) && id !in m && (Key(f.req) == key ==> Steadfast(w, f.req))
    ensures AllSteadfast(w, m[id := f], key)
    ensures |Guests(m[id := f], key)| == |Guests(m, key)| + if Key(f.req) == key then 1 else 0
  {
    var guests := Guests(m, key);
    assert Guests(m[id := f], key) == if Key(f.req) == key then guests + {id} else guests;
    assert id !in guests;
  }

  lemma GuestStays(w: Proxy, m: map<nat, Flight>, id: nat, f: Flight, key: string)
    requires AllSteadfast(w, m, key) && id in m && f.req == m[id].req
    ensures AllSteadfast(w, m[id := f], key)
    ensures Guests(m[id := f], key) == Guests(m, key)
  {
  }

  lemma GuestLeaves(w: Proxy, m: map<nat, Flight>, id: nat, key: string)
    requires AllSteadfast(w, m, key) && id in m
    ensures AllSteadfast(w, m - {id}, key)
    ensures |Guests(m - {id}, key)| == |Guests(m, key)| - if Key(m[id].req) == key then 1 else 0
  {
    var guests := Guests(m, key);
    assert Guests(m - {id}, key) == guests - {id};
    if Key(m[id].req) == key {
      assert id in guests;
    } else {
      assert guests - {id} == guests;
    }
  }

  /** A half-open breaker has let at least half_open_attempts + 1 requests through that are all still on their way to an
      outcome. */
  ghost predicate Watched(w: Proxy, s: System, key: string) {
    && (key in s.breakers ==> BreakerWatched(s.breakers[key], |Guests(s.inflight, key)|))
    && AllSteadfast(w, s.inflight, key)
  }

  predicate BreakerWatched(b: Breaker, guests: nat) {
    Consistent(b) && (b.state == HalfOpen ==> guests >= b.halfOpenAttempts + 1)
  }

  lemma AttemptWatched(b: Breaker, guests: nat, at: nat)
    requires BreakerWatched(b, guests)
    ensures BreakerWatched(Attempted(b, at), if Admits(b, at) then guests + 1 else guests)
  {
  }

  /** A turn after which the loop goes round again records nothing or a success; one that ends it records an outcome. */
  lemma TurnRecords(f: Flight, r: Round)
    requires Looping(f) && f.url.Some? && DelaysSome(f.req.p) && !r.result.NotSent?
    ensures
      var own := Recorded(f.req.p, f.retries, r);
      && (own == [] || (|own| == 1 && !own[0].Attempt?))
      && (Onwards(f, r).trip.reply != Running ==> own != [])
  {
  }

  lemma OutcomeSettles(b: Breaker, own: seq<Event>)
    requires Consistent(b) && |own| == 1 && !own[0].Attempt?
    ensures Consistent(Run(b, own)) && Run(b, own).state != HalfOpen
  {
    RunRecorded(b, own);
  }

  lemma ArriveWatched(w: Proxy, s: System, key: string, id: nat, req: Request, at: nat)
    requires Watched(w, s, key) && Occupied(w, s) && Enabled(w, s, Arrive(id, req, at))
    requires Key(req) == key ==> Steadfast(w, req)
    ensures Watched(w, Arrived(s, id, req, at), key)
  {
    GuestEnters(w, s.inflight, id, Flight(req, 0, NOTHING_YET, None, at), key);
    if Key(req) == key {
      AttemptWatched(BreakerOf(s, req, at), |Guests(s.inflight, key)|, at);
    }
  }

  lemma ChooseWatched(w: Proxy, s: System, key: string, id: nat, at: nat)
    requires Watched(w, s, key) && Occupied(w, s) && Enabled(w, s, Choose(id, at))
    ensures Watched(w, Chose(w, s, id, at), key)
  {
    var f := s.inflight[id];
    AskedAllowed(w.site, s.tables, f.req.o);
    GuestStays(w, s.inflight, id, f.(url := Fate(w.site, s.tables, f.req.o), at := at), key);
    GuestLeaves(w, s.inflight, id, key);
  }

  lemma FinishWatched(w: Proxy, s: System, key: string, id: nat, r: Round)
    requires Watched(w, s, key) && Occupied(w, s) && Enabled(w, s, Finish(id, r))
    ensures Watched(w, Finished(s, id, r), key)
  {
    var f := s.inflight[id];
    GuestStays(w, s.inflight, id, Onwards(f, r), key);
    GuestLeaves(w, s.inflight, id, key);
    if Key(f.req) == key {
      FinishSettles(s.breakers[key], f, r);
    }
  }

  lemma FinishSettles(b: Breaker, f: Flight, r: Round)
    requires Looping(f) && f.url.Some? && DelaysSome(f.req.p) && !r.result.NotSent? && Consistent(b)
    ensures
      var own := Recorded(f.req.p, f.retries, r);
      && Consistent(Run(b, own))
      && (Run(b, own).state != HalfOpen || (Run(b, own) == b && Onwards(f, r).trip.reply == Running))
  {
    var own := Recorded(f.req.p, f.retries, r);
    TurnRecords(f, r);
    if own != [] {
      OutcomeSettles(b, own);
    }
  }

  lemma UseUpWatched(w: Proxy, s: System, key: string, id: nat, at: nat)
    requires Watched(w, s, key) && Occupied(w, s) && Enabled(w, s, UseUp(id, at))
    ensures Watched(w, UsedUp(s, id, at), key)
  {
    GuestLeaves(w, s.inflight, id, key);
  }

  /** In every interleaving of arrivals, attempts and outcomes, stale ones included, whatever the requests of other
      breakers do, a half-open breaker is watched. */
  lemma {:induction false} AlwaysWatched(w: Proxy, key: string, steps: seq<Step>)
    requires NoPanic(w, key, steps)
    ensures Watched(w, Reach(w, START, steps), key)
    decreases |steps|
  {
    if steps != [] {
      var before, step := steps[..|steps| - 1], steps[|steps| - 1];
      AlwaysWatched(w, key, before);
      AlwaysOccupied(w, before);
      var s := Reach(w, START, before);
      if Enabled(w, s, step) {
        match step {
          case Arrive(id, req, at) => ArriveWatched(w, s, key, id, req, at);
          case Choose(id, at) => ChooseWatched(w, s, key, id, at);
          case Finish(id, r) => FinishWatched(w, s, key, id, r);
          case UseUp(id, at) => UseUpWatched(w, s, key, id, at);
        }
      }
    }
  }

  /** No request of the breaker is in flight, and if it is open its time is up. */
  ghost predicate Settled(s: System, key: string, at: nat) {
    && Guests(s.inflight, key) == {}
    && (key in s.breakers && s.breakers[key].state == Open ==> at >= s.breakers[key].openUntil)
  }

  /** The breaker lets the next request in; one that is not there yet would be new. */
  predicate LetsIn(s: System, key: string, at: nat) {
    key in s.breakers ==> Admits(s.breakers[key], at)
  }

  /** A breaker whose requests cannot panic never wedges: whatever has happened, once none of them is in flight and
      an open breaker's time is up, the next request is admitted. */
  lemma NeverWedges(w: Proxy, key: string, steps: seq<Step>, at: nat)
    requires NoPanic(w, key, steps)
    requires Settled(Reach(w, START, steps), key, at)
    ensures LetsIn(Reach(w, START, steps), key, at)
  {
    AlwaysWatched(w, key, steps);
  }
}
