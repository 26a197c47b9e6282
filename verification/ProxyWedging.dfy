/** Exactly when the requests around a breaker can leave it half-open for good: when one of them can record a failure
    and one of them can panic, in a delay, in the choice of a URL or in the request rebuilt for it. */
module ProxyWedging {
  import opened CircuitBreakers
  import opened Options
  import opened ProxyDraining
  import opened ProxyRequests
  import opened ProxySystem
  import opened Upstreams

  /** A request apart from when it comes. */
  function Template(req: Request): Request {
    req.(p := req.p.(start := 0, late := [], lateAt := 0))
  }

  /** The requests that a breaker may get: a family of requests that come at any time. */
  predicate Belongs(fam: Request -> bool, req: Request) {
    fam(Template(req))
  }

  /** All requests that come to a breaker are of its family; those of other breakers are any requests. */
  ghost predicate Members(fam: Request -> bool, key: string, steps: seq<Step>) {
    forall i :: 0 <= i < |steps| && steps[i].Arrive? && Key(steps[i].req) == key ==> Belongs(fam, steps[i].req)
  }

  /** All requests that come are those of one breaker. */
  ghost predicate AllOn(key: string, steps: seq<Step>) {
    forall i :: 0 <= i < |steps| && steps[i].Arrive? ==> Key(steps[i].req) == key
  }

  /** A request can record a failure: an attempt of it can be sent, or it leaves without one. */
  ghost predicate CanFail(w: Proxy, req: Request) {
    req.p.maxAttempts == 0 || CanGo(w.site, req.o)
  }

  /** A request can panic. */
  ghost predicate CanCrash(w: Proxy, req: Request) {
    req.p.maxAttempts > 0 && (CanFall(w.site, req.o) || !DelaysSome(req.p))
  }

  // ------------------------------------------------------------------------------------------------
  // A breaker without probes

  /** Nobody of the breaker is inside, and it has no probe left. */
  ghost predicate Spent(s: System, key: string) {
    && Guests(s.inflight, key) == {} && key in s.breakers
    && s.breakers[key].state == HalfOpen
    && s.breakers[key].halfOpenAttempts == s.breakers[key].cfg.halfOpenAttempts
  }

  /** A half-open breaker that has let all its probes through lets nobody else in until an outcome is recorded. */
  lemma {:induction false} StuckWithoutOutcome(b: Breaker, es: seq<Event>, at: nat)
    requires b.state == HalfOpen && b.halfOpenAttempts == b.cfg.halfOpenAttempts
    requires forall i :: 0 <= i < |es| ==> es[i].Attempt?
    ensures Run(b, es) == b && !Admits(Run(b, es), at)
    decreases |es|
  {
    if es != [] {
      StuckWithoutOutcome(b, es[..|es| - 1], at);
    }
  }

  lemma SpentNext(w: Proxy, s: System, key: string, step: Step)
    requires Spent(s, key)
    ensures Spent(Next(w, s, step), key) && Next(w, s, step).breakers[key] == s.breakers[key]
  {
    if Enabled(w, s, step) {
      assert step.id !in Guests(s.inflight, key);
      assert Guests(Next(w, s, step).inflight, key) <= Guests(s.inflight, key);
    }
  }

  /** A spent breaker never lets a request in again, whatever happens to it and to the others. */
  lemma {:induction false} SpentForGood(w: Proxy, s: System, key: string, more: seq<Step>, at: nat)
    requires Spent(s, key)
    ensures Spent(Reach(w, s, more), key) && !LetsIn(Reach(w, s, more), key, at)
    decreases |more|
  {
    if more != [] {
      SpentForGood(w, s, key, more[..|more| - 1], at);
      SpentNext(w, Reach(w, s, more[..|more| - 1]), key, more[|more| - 1]);
    }
  }

  // ------------------------------------------------------------------------------------------------
  // Steps of a request that is alone

  /** Steps on time, by requests of the family, from one state to another. */
  ghost predicate Scene(
      w: Proxy, fam: Request -> bool, key: string, s: System, lo: nat, steps: seq<Step>, t: System, hi: nat) {
    Course(w, s, lo, steps, t, hi) && Members(fam, key, steps)
  }

  lemma SceneConcat(
      w: Proxy, fam: Request -> bool, key: string, s: System, lo: nat, a: seq<Step>, t: System, mid: nat, b: seq<Step>,
      u: System, hi: nat)
    requires Scene(w, fam, key, s, lo, a, t, mid) && Scene(w, fam, key, t, mid, b, u, hi)
    ensures Scene(w, fam, key, s, lo, a + b, u, hi)
  {
    CourseConcat(w, s, lo, a, t, mid, b, u, hi);
  }

  lemma SceneStep(w: Proxy, fam: Request -> bool, key: string, s: System, lo: nat, step: Step)
    requires OnTime(w, s, step) && lo <= Instant(step)
    requires step.Arrive? && Key(step.req) == key ==> Belongs(fam, step.req)
    ensures Scene(w, fam, key, s, lo, [step], Next(w, s, step), Instant(step))
  {
    CourseStep(w, s, lo, step);
  }

  function Alone(f: Flight): map<nat, Flight> {
    map[0 := f]
  }

  function Entering(req: Request, at: nat): Flight {
    Flight(req, 0, NOTHING_YET, None, at)
  }

  lemma EntersAlone(w: Proxy, s: System, req: Request, t: nat)
    requires w.pool > 0 && s.inflight == map[] && Admits(BreakerOf(s, req, t), t) && req.p.start == t
    ensures OnTime(w, s, Arrive(0, req, t))
    ensures Next(w, s, Arrive(0, req, t))
            == System(s.breakers[Key(req) := Attempted(BreakerOf(s, req, t), t)], s.tables, Alone(Entering(req, t)))
  {
  }

  lemma ChoosesAlone(w: Proxy, s: System, f: Flight, t: nat)
    requires s.inflight == Alone(f) && f.url.None? && f.retries < f.req.p.maxAttempts && f.at <= t
    ensures OnTime(w, s, Choose(0, t))
    ensures
      var fate := Fate(w.site, s.tables, f.req.o);
      Next(w, s, Choose(0, t))
      == System(s.breakers, Asked(w.site, s.tables, f.req.o.path).0,
                if fate.Some? then Alone(f.(url := fate, at := t)) else map[])
  {
    assert Alone(f) - {0} == map[];
  }

  lemma FinishesAlone(w: Proxy, s: System, f: Flight, r: Round)
    requires s.inflight == Alone(f) && f.url.Some? && !r.result.NotSent? && r.startedAt == f.at
    requires r.finishedAt >= f.at + if r.result.TimedOut? then f.req.p.timeout else 0
    requires Key(f.req) in s.breakers
    ensures OnTime(w, s, Finish(0, r))
    ensures
      var b := Run(s.breakers[Key(f.req)], Recorded(f.req.p, f.retries, r));
      Next(w, s, Finish(0, r))
      == System(s.breakers[Key(f.req) := b], s.tables,
                if Onwards(f, r).trip.reply == Running then Alone(Onwards(f, r)) else map[])
  {
    assert Alone(f) - {0} == map[];
  }

  // ------------------------------------------------------------------------------------------------
  // Turning the balancer

  /** A target that the breaker of `key` has nothing to do with. */
  function Elsewhere(key: string): string {
    key + "/"
  }

  /** Nobody is inside, and the other target works. */
  ghost predicate Calm(w: Proxy, s: System, key: string) {
    && s.inflight == map[] && TablesSound(w.site, s.tables)
    && (Elsewhere(key) in s.breakers ==> s.breakers[Elsewhere(key)].state == Closed)
  }

  predicate SameBreaker(s: System, t: System, key: string) {
    && (key in s.breakers <==> key in t.breakers)
    && (key in s.breakers ==> s.breakers[key] == t.breakers[key])
  }

  function Visitor(key: string, req: Request, t: nat): Request {
    Request(req.o.(firstUrl := Elsewhere(key)), Params(1, 0, t, req.p.delay, [], 0), req.cfg)
  }

  /** A request to the other target asks the balancer for the same path. */
  lemma VisitorAsks(w: Proxy, fam: Request -> bool, key: string, s: System, req: Request, t: nat)
    returns (steps: seq<Step>, end: System)
    requires w.pool > 0 && Calm(w, s, key)
    ensures Scene(w, fam, key, s, t, steps, end, t) && Calm(w, end, key) && SameBreaker(s, end, key)
    ensures end.tables == Asked(w.site, s.tables, req.o.path).0
  {
    var v := Visitor(key, req, t);
    EntersAlone(w, s, v, t);
    SceneStep(w, fam, key, s, t, Arrive(0, v, t));
    var s1 := Next(w, s, Arrive(0, v, t));
    ChoosesAlone(w, s1, Entering(v, t), t);
    SceneStep(w, fam, key, s1, t, Choose(0, t));
    AskedAllowed(w.site, s.tables, v.o);
    end := Next(w, s1, Choose(0, t));
    steps := [Arrive(0, v, t)] + [Choose(0, t)];
    SceneConcat(w, fam, key, s, t, [Arrive(0, v, t)], s1, t, [Choose(0, t)], end, t);
    if end.inflight != map[] {
      var last := VisitorLeaves(w, fam, key, end, v, t);
      SceneConcat(w, fam, key, s, t, steps, end, t, [last], Next(w, end, last), t);
      steps, end := steps + [last], Next(w, end, last);
    }
  }

  lemma VisitorLeaves(w: Proxy, fam: Request -> bool, key: string, s: System, v: Request, t: nat)
    returns (last: Step)
    requires Key(v) == Elsewhere(key) && Key(v) in s.breakers
    requires exists url :: s.inflight == Alone(Entering(v, t).(url := Some(url)))
    ensures Scene(w, fam, key, s, t, [last], Next(w, s, last), t)
    ensures
      var end := Next(w, s, last);
      && end.inflight == map[] && end.tables == s.tables && SameBreaker(s, end, key)
      && Elsewhere(key) in end.breakers && end.breakers[Elsewhere(key)].state == Closed
  {
    var url :| s.inflight == Alone(Entering(v, t).(url := Some(url)));
    var f, r := Entering(v, t).(url := Some(url)), Round([], [], t, Response(200, false), t, []);
    FinishesAlone(w, s, f, r);
    RunRecorded(s.breakers[Key(v)], [Success(t)]);
    last := Finish(0, r);
    SceneStep(w, fam, key, s, t, last);
  }

  /** Any number of such requests, one after the other, at one instant. */
  lemma {:induction false} Rotation(
      w: Proxy, fam: Request -> bool, key: string, s: System, req: Request, t: nat, n: nat)
    returns (steps: seq<Step>, end: System)
    requires w.pool > 0 && Calm(w, s, key)
    ensures Scene(w, fam, key, s, t, steps, end, t) && Calm(w, end, key) && SameBreaker(s, end, key)
    ensures end.tables == AskedTimes(w.site, s.tables, req.o.path, n)
    decreases n
  {
    steps, end := [], s;
    if n > 0 {
      var a, mid := VisitorAsks(w, fam, key, s, req, t);
      var b, last := Rotation(w, fam, key, mid, req, t, n - 1);
      SceneConcat(w, fam, key, s, t, a, mid, t, b, last, t);
      steps, end := a + b, last;
    }
  }

  /** The balancer is turned until an attempt of the request would be sent, or would panic. */
  lemma TurnTo(w: Proxy, fam: Request -> bool, key: string, s: System, req: Request, t: nat, goes: bool)
    returns (steps: seq<Step>, end: System)
    requires w.pool > 0 && Calm(w, s, key)
    requires if goes then CanGo(w.site, req.o) else CanFall(w.site, req.o)
    ensures Scene(w, fam, key, s, t, steps, end, t) && Calm(w, end, key) && SameBreaker(s, end, key)
    ensures Fate(w.site, end.tables, req.o).Some? <==> goes
  {
    var n := FateRecurs(w.site, s.tables, req.o, goes);
    steps, end := Rotation(w, fam, key, s, req, t, n);
  }

  // ------------------------------------------------------------------------------------------------
  // Failures that open the breaker

  function StartedAt(req: Request, t: nat): Request {
    req.(p := req.p.(start := t))
  }

  /** One request records a failure: its only attempt times out, or it has none. */
  lemma FailsOnce(w: Proxy, fam: Request -> bool, key: string, s: System, req: Request, t: nat)
    returns (steps: seq<Step>, end: System, u: nat)
    requires w.pool > 0 && Calm(w, s, key) && Key(req) == key && Belongs(fam, req) && CanFail(w, req)
    requires BreakerOf(s, req, t).state == Closed
    ensures Scene(w, fam, key, s, t, steps, end, u) && Calm(w, end, key)
    ensures key in end.breakers && end.breakers[key] == Failed(BreakerOf(s, req, t), u)
    ensures !CanFall(w.site, req.o) ==> AllOn(key, steps)
  {
    if req.p.maxAttempts == 0 {
      steps, end := LeavesAtOnce(w, fam, key, s, req, t);
      u := t;
    } else if !CanFall(w.site, req.o) {
      AskedAllowed(w.site, s.tables, req.o);
      steps, end := TimesOut(w, fam, key, s, req, t);
      u := t + req.p.timeout;
    } else {
      var a, ready := TurnTo(w, fam, key, s, req, t, true);
      var b, last := TimesOut(w, fam, key, ready, req, t);
      u := t + req.p.timeout;
      SceneConcat(w, fam, key, s, t, a, ready, t, b, last, u);
      steps, end := a + b, last;
    }
  }

  lemma LeavesAtOnce(w: Proxy, fam: Request -> bool, key: string, s: System, req: Request, t: nat)
    returns (steps: seq<Step>, end: System)
    requires w.pool > 0 && Calm(w, s, key) && Key(req) == key && Belongs(fam, req) && req.p.maxAttempts == 0
    requires BreakerOf(s, req, t).state == Closed
    ensures Scene(w, fam, key, s, t, steps, end, t) && Calm(w, end, key) && AllOn(key, steps)
    ensures key in end.breakers && end.breakers[key] == Failed(BreakerOf(s, req, t), t)
  {
    var q := StartedAt(req, t);
    EntersAlone(w, s, q, t);
    SceneStep(w, fam, key, s, t, Arrive(0, q, t));
    var s1 := Next(w, s, Arrive(0, q, t));
    SceneStep(w, fam, key, s1, t, UseUp(0, t));
    end := Next(w, s1, UseUp(0, t));
    assert Alone(Entering(q, t)) - {0} == map[];
    SceneConcat(w, fam, key, s, t, [Arrive(0, q, t)], s1, t, [UseUp(0, t)], end, t);
    steps := [Arrive(0, q, t)] + [UseUp(0, t)];
  }

  /** A request enters and begins an attempt, or panics in it. */
  lemma BeginsAttempt(w: Proxy, fam: Request -> bool, key: string, s: System, q: Request, t: nat)
    returns (steps: seq<Step>, end: System)
    requires w.pool > 0 && Calm(w, s, key) && Key(q) == key && Belongs(fam, q) && q.p.start == t
    requires q.p.maxAttempts > 0 && Admits(BreakerOf(s, q, t), t)
    ensures Scene(w, fam, key, s, t, steps, end, t) && AllOn(key, steps)
    ensures end.tables == Asked(w.site, s.tables, q.o.path).0
    ensures
      var fate := Fate(w.site, s.tables, q.o);
      && end.breakers == s.breakers[key := Attempted(BreakerOf(s, q, t), t)] && TablesSound(w.site, end.tables)
      && end.inflight == if fate.Some? then Alone(Entering(q, t).(url := fate)) else map[]
  {
    EntersAlone(w, s, q, t);
    SceneStep(w, fam, key, s, t, Arrive(0, q, t));
    var s1 := Next(w, s, Arrive(0, q, t));
    ChoosesAlone(w, s1, Entering(q, t), t);
    SceneStep(w, fam, key, s1, t, Choose(0, t));
    AskedAllowed(w.site, s.tables, q.o);
    end := Next(w, s1, Choose(0, t));
    SceneConcat(w, fam, key, s, t, [Arrive(0, q, t)], s1, t, [Choose(0, t)], end, t);
    steps := [Arrive(0, q, t)] + [Choose(0, t)];
  }

  lemma Restarted(fam: Request -> bool, s: System, req: Request, t: nat)
    requires Belongs(fam, req)
    ensures Belongs(fam, StartedAt(req, t)) && BreakerOf(s, StartedAt(req, t), t) == BreakerOf(s, req, t)
  {
    assert Template(StartedAt(req, t)) == Template(req);
  }

  lemma TimesOut(w: Proxy, fam: Request -> bool, key: string, s: System, req: Request, t: nat)
    returns (steps: seq<Step>, end: System)
    requires w.pool > 0 && Calm(w, s, key) && Key(req) == key && Belongs(fam, req) && req.p.maxAttempts > 0
    requires BreakerOf(s, req, t).state == Closed && Fate(w.site, s.tables, req.o).Some?
    ensures Scene(w, fam, key, s, t, steps, end, t + req.p.timeout) && Calm(w, end, key) && AllOn(key, steps)
    ensures end.tables == Asked(w.site, s.tables, req.o.path).0
    ensures key in end.breakers && end.breakers[key] == Failed(BreakerOf(s, req, t), t + req.p.timeout)
  {
    var q, u := StartedAt(req, t), t + req.p.timeout;
    Restarted(fam, s, req, t);
    var a, mid := BeginsAttempt(w, fam, key, s, q, t);
    var b, last := EndsInTimeout(w, fam, key, mid, Entering(q, t).(url := Fate(w.site, s.tables, q.o)), u);
    SceneConcat(w, fam, key, s, t, a, mid, t, b, last, u);
    AllOnConcat(key, a, b);
    steps, end := a + b, last;
  }

  lemma AllOnConcat(key: string, a: seq<Step>, b: seq<Step>)
    requires AllOn(key, a) && AllOn(key, b)
    ensures AllOn(key, a + b)
  {
  }

  lemma EndsInTimeout(w: Proxy, fam: Request -> bool, key: string, s: System, f: Flight, u: nat)
    returns (steps: seq<Step>, end: System)
    requires s.inflight == Alone(f) && f.url.Some? && Key(f.req) == key && key in s.breakers
    requires f.at == f.req.p.start && u == f.at + f.req.p.timeout
    ensures Scene(w, fam, key, s, f.at, steps, end, u) && AllOn(key, steps)
    ensures end == System(s.breakers[key := Failed(s.breakers[key], u)], s.tables, map[])
  {
    var r := Round([], [], f.at, TimedOut, u, []);
    FinishesAlone(w, s, f, r);
    TimeoutRecorded(f, u, s.breakers[key]);
    SceneStep(w, fam, key, s, f.at, Finish(0, r));
    steps, end := [Finish(0, r)], Next(w, s, Finish(0, r));
  }

  lemma TimeoutRecorded(f: Flight, u: nat, b: Breaker)
    requires f.req.p.start + f.req.p.timeout == u
    ensures
      var r := Round([], [], f.req.p.start, TimedOut, u, []);
      Onwards(f, r).trip.reply == Timeout && Run(b, Recorded(f.req.p, f.retries, r)) == Failed(b, u)
  {
    RunRecorded(b, [Failure(u)]);
  }

  lemma OneFailure(b: Breaker, at: nat)
    requires b.state == Closed && Consistent(b)
    ensures
      var next := Failed(b, at);
      && next.cfg == b.cfg && Consistent(next) && next.failureCount == b.failureCount + 1
      && (next.state == Closed || next.state == Open) && b.failureCount < Threshold(b.cfg)
  {
  }

  /** One request after another fails until the breaker opens. */
  lemma {:induction false} Opens(w: Proxy, fam: Request -> bool, key: string, s: System, req: Request, t: nat)
    returns (steps: seq<Step>, end: System, u: nat)
    requires w.pool > 0 && Calm(w, s, key) && Key(req) == key && Belongs(fam, req) && CanFail(w, req)
    requires BreakerOf(s, req, t).state == Closed && Consistent(BreakerOf(s, req, t))
    ensures Scene(w, fam, key, s, t, steps, end, u) && Calm(w, end, key)
    ensures key in end.breakers && end.breakers[key].state == Open
    ensures !CanFall(w.site, req.o) ==> AllOn(key, steps)
    decreases Threshold(BreakerOf(s, req, t).cfg) - BreakerOf(s, req, t).failureCount
  {
    steps, end, u := FailsOnce(w, fam, key, s, req, t);
    OneFailure(BreakerOf(s, req, t), u);
    if end.breakers[key].state == Closed {
      var more, last, v := Opens(w, fam, key, end, req, u);
      SceneConcat(w, fam, key, s, t, steps, end, u, more, last, v);
      if !CanFall(w.site, req.o) {
        AllOnConcat(key, steps, more);
      }
      steps, end, u := steps + more, last, v;
    }
  }

  // ------------------------------------------------------------------------------------------------
  // Probes that crash

  /** The smallest number of a delay that panics. */
  lemma LeastPanic(p: Params) returns (k: nat)
    requires !DelaysSome(p)
    ensures 1 <= k < p.maxAttempts && p.delay(k).None? && forall j :: 1 <= j < k ==> p.delay(j).Some?
  {
    k := 1;
    while p.delay(k).Some?
      invariant 1 <= k < p.maxAttempts && forall j :: 1 <= j < k ==> p.delay(j).Some?
      decreases p.maxAttempts - k
    {
      k := k + 1;
    }
  }

  function Answer(t: nat): Round {
    Round([], [], t, Response(500, false), t, [])
  }

  /** An attempt that is answered with a 500 and then waits for delay n, or panics in it. */
  lemma WaitsOn(f: Flight, n: nat, t: nat)
    requires Looping(f) && f.url.Some? && f.retries == n - 1 && n < f.req.p.maxAttempts && f.at == t
    ensures Recorded(f.req.p, f.retries, Answer(t)) == []
    ensures
      var next := Onwards(f, Answer(t));
      match f.req.p.delay(n)
      case None => next.trip.reply == Crashed
      case Some(d) => Looping(next) && next.req == f.req && next.retries == n && next.url.None? && next.at == t + d
  {
  }

  /** A request under way that panics in delay k is answered with 500s, waits, and disappears there. */
  lemma {:induction false} CrashesInDelay(w: Proxy, fam: Request -> bool, key: string, s: System, f: Flight, k: nat)
    returns (steps: seq<Step>, end: System, u: nat)
    requires s.inflight == Alone(f) && Looping(f) && f.url.Some? && Key(f.req) == key && key in s.breakers
    requires TablesSound(w.site, s.tables) && !CanFall(w.site, f.req.o)
    requires f.retries < k < f.req.p.maxAttempts && f.req.p.delay(k).None?
    requires forall j :: 1 <= j < k ==> f.req.p.delay(j).Some?
    ensures Scene(w, fam, key, s, f.at, steps, end, u) && AllOn(key, steps)
    ensures end.inflight == map[] && end.breakers == s.breakers && TablesSound(w.site, end.tables)
    decreases k - f.retries
  {
    var n := f.retries + 1;
    WaitsOn(f, n, f.at);
    steps, end := IsAnswered(w, fam, key, s, f, n);
    u := f.at;
    if n < k {
      var g := Onwards(f, Answer(f.at));
      var a, mid := NextAttempt(w, fam, key, end, g, f.at);
      SceneConcat(w, fam, key, s, f.at, steps, end, f.at, a, mid, g.at);
      AllOnConcat(key, steps, a);
      var b, last, v := CrashesInDelay(w, fam, key, mid, g.(url := Fate(w.site, end.tables, g.req.o)), k);
      SceneConcat(w, fam, key, s, f.at, steps + a, mid, g.at, b, last, v);
      AllOnConcat(key, steps + a, b);
      steps, end, u := steps + a + b, last, v;
    }
  }

  lemma IsAnswered(w: Proxy, fam: Request -> bool, key: string, s: System, f: Flight, n: nat)
    returns (steps: seq<Step>, end: System)
    requires s.inflight == Alone(f) && Looping(f) && f.url.Some? && Key(f.req) == key && key in s.breakers
    requires f.retries + 1 == n < f.req.p.maxAttempts
    ensures Scene(w, fam, key, s, f.at, steps, end, f.at) && AllOn(key, steps)
    ensures
      end == System(s.breakers, s.tables,
                    if f.req.p.delay(n).Some? then Alone(Onwards(f, Answer(f.at))) else map[])
  {
    var r := Answer(f.at);
    WaitsOn(f, n, f.at);
    FinishesAlone(w, s, f, r);
    SceneStep(w, fam, key, s, f.at, Finish(0, r));
    assert s.breakers[key := s.breakers[key]] == s.breakers;
    steps, end := [Finish(0, r)], Next(w, s, Finish(0, r));
  }

  lemma NextAttempt(w: Proxy, fam: Request -> bool, key: string, s: System, g: Flight, lo: nat)
    returns (steps: seq<Step>, end: System)
    requires lo <= g.at
    requires s.inflight == Alone(g) && g.url.None? && g.retries < g.req.p.maxAttempts
    requires TablesSound(w.site, s.tables) && !CanFall(w.site, g.req.o)
    ensures Scene(w, fam, key, s, lo, steps, end, g.at) && AllOn(key, steps)
    ensures end.breakers == s.breakers && TablesSound(w.site, end.tables)
    ensures Fate(w.site, s.tables, g.req.o).Some?
    ensures end.inflight == Alone(g.(url := Fate(w.site, s.tables, g.req.o)))
  {
    ChoosesAlone(w, s, g, g.at);
    AskedAllowed(w.site, s.tables, g.req.o);
    steps, end := [Choose(0, g.at)], Next(w, s, Choose(0, g.at));
    SceneStep(w, fam, key, s, lo, Choose(0, g.at));
  }

  /** One request is admitted and panics; all that is left of it is its admission. */
  lemma CrashesOnce(w: Proxy, fam: Request -> bool, key: string, s: System, req: Request, t: nat)
    returns (steps: seq<Step>, end: System, u: nat)
    requires w.pool > 0 && Calm(w, s, key) && Key(req) == key && Belongs(fam, req) && CanCrash(w, req)
    requires key in s.breakers && Admits(s.breakers[key], t)
    ensures Scene(w, fam, key, s, t, steps, end, u) && Calm(w, end, key)
    ensures key in end.breakers && end.breakers[key] == Attempted(s.breakers[key], t)
    ensures !CanFall(w.site, req.o) ==> AllOn(key, steps)
  {
    var q := StartedAt(req, t);
    if CanFall(w.site, req.o) {
      var a, ready := TurnTo(w, fam, key, s, req, t, false);
      var b, last := BeginsAttempt(w, fam, key, ready, q, t);
      SceneConcat(w, fam, key, s, t, a, ready, t, b, last, t);
      steps, end, u := a + b, last, t;
    } else {
      var k := LeastPanic(q.p);
      var a, mid := BeginsAttempt(w, fam, key, s, q, t);
      AskedAllowed(w.site, s.tables, q.o);
      var f := Entering(q, t).(url := Fate(w.site, s.tables, q.o));
      var b, last, v := CrashesInDelay(w, fam, key, mid, f, k);
      SceneConcat(w, fam, key, s, t, a, mid, t, b, last, v);
      AllOnConcat(key, a, b);
      steps, end, u := a + b, last, v;
    }
  }

  /** One probe after another crashes until none is left. */
  lemma {:induction false} Spends(w: Proxy, fam: Request -> bool, key: string, s: System, req: Request, t: nat)
    returns (steps: seq<Step>, end: System, u: nat)
    requires w.pool > 0 && Calm(w, s, key) && Key(req) == key && Belongs(fam, req) && CanCrash(w, req)
    requires key in s.breakers && s.breakers[key].state == HalfOpen
    requires s.breakers[key].halfOpenAttempts <= s.breakers[key].cfg.halfOpenAttempts
    ensures Scene(w, fam, key, s, t, steps, end, u) && Spent(end, key)
    ensures !CanFall(w.site, req.o) ==> AllOn(key, steps)
    decreases s.breakers[key].cfg.halfOpenAttempts - s.breakers[key].halfOpenAttempts
  {
    steps, end, u := [], s, t;
    if Admits(s.breakers[key], t) {
      var a, mid, v := CrashesOnce(w, fam, key, s, req, t);
      var b, last, x := Spends(w, fam, key, mid, req, v);
      SceneConcat(w, fam, key, s, t, a, mid, v, b, last, x);
      if !CanFall(w.site, req.o) {
        AllOnConcat(key, a, b);
      }
      steps, end, u := a + b, last, x;
    }
  }

  lemma StartCalm(w: Proxy, key: string)
    ensures Calm(w, START, key)
  {
    AlwaysOccupied(w, []);
  }

  /** If one request of a breaker can record a failure and one can panic, some course of events of such requests, on
      time, spends the breaker: failures open it, and from when its time is up every probe crashes. */
  lemma CrashWedges(w: Proxy, fam: Request -> bool, key: string, failing: Request, crashing: Request)
    returns (steps: seq<Step>, end: nat)
    requires w.pool > 0
    requires Key(failing) == key && Belongs(fam, failing) && CanFail(w, failing)
    requires Key(crashing) == key && Belongs(fam, crashing) && CanCrash(w, crashing)
    ensures Clocked(w, START, 0, steps, end) && Members(fam, key, steps) && Spent(Reach(w, START, steps), key)
    ensures !CanFall(w.site, failing.o) && !CanFall(w.site, crashing.o) ==> AllOn(key, steps)
  {
    StartCalm(w, key);
    var a, open, u := Opens(w, fam, key, START, failing, 0);
    var t := if open.breakers[key].openUntil > u then open.breakers[key].openUntil else u;
    var b, half, v := CrashesOnce(w, fam, key, open, crashing, t);
    var c, spent, x := Spends(w, fam, key, half, crashing, v);
    SceneConcat(w, fam, key, open, t, b, half, v, c, spent, x);
    Later(w, fam, key, START, 0, a, open, u, t);
    SceneConcat(w, fam, key, START, 0, a, open, t, b + c, spent, x);
    if !CanFall(w.site, failing.o) && !CanFall(w.site, crashing.o) {
      AllOnConcat(key, b, c);
      AllOnConcat(key, a, b + c);
    }
    steps, end := a + (b + c), x;
  }

  lemma Later(
      w: Proxy, fam: Request -> bool, key: string, s: System, lo: nat, steps: seq<Step>, t: System, hi: nat, at: nat)
    requires Scene(w, fam, key, s, lo, steps, t, hi) && hi <= at
    ensures Scene(w, fam, key, s, lo, steps, t, at)
  {
  }

  // ------------------------------------------------------------------------------------------------
  // The exact condition

  /** In every run on time in which the breaker gets requests of a family, once none of them is in flight and an open
      breaker's time is up, the next request is admitted. */
  ghost predicate AlwaysRecovers(w: Proxy, key: string, fam: Request -> bool) {
    forall steps: seq<Step>, hi: nat, at: nat ::
      Clocked(w, START, 0, steps, hi) && Members(fam, key, steps) && Settled(Reach(w, START, steps), key, at) ==>
        LetsIn(Reach(w, START, steps), key, at)
  }

  lemma {:induction false} NoPermits(w: Proxy, steps: seq<Step>)
    requires w.pool == 0
    ensures Reach(w, START, steps) == START
    decreases |steps|
  {
    if steps != [] {
      NoPermits(w, steps[..|steps| - 1]);
    }
  }

  /** Requests that can record no failure come to nothing: they have attempts, and panic in the first. */
  ghost predicate Futile(w: Proxy, s: System, key: string) {
    (key in s.breakers ==> s.breakers[key].state == Closed) && AllFutile(w, s.inflight, key)
  }

  ghost predicate AllFutile(w: Proxy, m: map<nat, Flight>, key: string) {
    forall id :: id in m && Key(m[id].req) == key ==> FutileFlight(w, m[id])
  }

  ghost predicate FutileFlight(w: Proxy, f: Flight) {
    !CanFail(w, f.req) && f.url.None? && f.retries == 0
  }

  lemma StillFutile(w: Proxy, m: map<nat, Flight>, id: nat, f: Flight, key: string)
    requires AllFutile(w, m, key)
    ensures AllFutile(w, m - {id}, key)
    ensures (Key(f.req) == key ==> FutileFlight(w, f)) ==> AllFutile(w, m[id := f], key)
  {
  }

  lemma FutileNext(w: Proxy, s: System, key: string, step: Step)
    requires Futile(w, s, key) && Occupied(w, s)
    requires step.Arrive? && Key(step.req) == key ==> !CanFail(w, step.req)
    ensures Futile(w, Next(w, s, step), key)
  {
    if Enabled(w, s, step) {
      match step {
        case Arrive(id, req, at) => StillFutile(w, s.inflight, id, Entering(req, at), key);
        case Choose(id, at) =>
          var f := s.inflight[id];
          AskedAllowed(w.site, s.tables, f.req.o);
          StillFutile(w, s.inflight, id, f.(url := Fate(w.site, s.tables, f.req.o), at := at), key);
        case Finish(id, r) => StillFutile(w, s.inflight, id, Onwards(s.inflight[id], r), key);
        case UseUp(id, _) => StillFutile(w, s.inflight, id, s.inflight[id], key);
      }
    }
  }

  lemma {:induction false} AlwaysFutile(w: Proxy, key: string, fam: Request -> bool, steps: seq<Step>)
    requires Members(fam, key, steps)
    requires forall req :: Belongs(fam, req) && Key(req) == key ==> !CanFail(w, req)
    ensures Futile(w, Reach(w, START, steps), key)
    decreases |steps|
  {
    if steps != [] {
      var before := steps[..|steps| - 1];
      AlwaysFutile(w, key, fam, before);
      AlwaysOccupied(w, before);
      FutileNext(w, Reach(w, START, before), key, steps[|steps| - 1]);
    }
  }

  lemma MembersNoPanic(w: Proxy, key: string, fam: Request -> bool, steps: seq<Step>)
    requires Members(fam, key, steps)
    requires forall req :: Belongs(fam, req) && Key(req) == key ==> !CanCrash(w, req)
    ensures NoPanic(w, key, steps)
  {
  }

  /** The breaker recovers in every run exactly if none of its requests can record a failure, or none of them can
      panic. */
  lemma RecoversIff(w: Proxy, key: string, fam: Request -> bool)
    ensures AlwaysRecovers(w, key, fam) <==>
              || w.pool == 0
              || (forall req :: Belongs(fam, req) && Key(req) == key ==> !CanFail(w, req))
              || (forall req :: Belongs(fam, req) && Key(req) == key ==> !CanCrash(w, req))
  {
    if w.pool > 0 && (exists req :: Belongs(fam, req) && Key(req) == key && CanFail(w, req))
       && (exists req :: Belongs(fam, req) && Key(req) == key && CanCrash(w, req)) {
      var failing :| Belongs(fam, failing) && Key(failing) == key && CanFail(w, failing);
      var crashing :| Belongs(fam, crashing) && Key(crashing) == key && CanCrash(w, crashing);
      var steps, end := CrashWedges(w, fam, key, failing, crashing);
      SpentForGood(w, Reach(w, START, steps), key, [], 0);
      assert Settled(Reach(w, START, steps), key, 0);
    } else {
      forall steps: seq<Step>, hi: nat, at: nat |
        Clocked(w, START, 0, steps, hi) && Members(fam, key, steps) && Settled(Reach(w, START, steps), key, at)
        ensures LetsIn(Reach(w, START, steps), key, at)
      {
        if w.pool == 0 {
          NoPermits(w, steps);
        } else if forall req :: Belongs(fam, req) && Key(req) == key ==> !CanFail(w, req) {
          AlwaysFutile(w, key, fam, steps);
        } else {
          MembersNoPanic(w, key, fam, steps);
          NeverWedges(w, key, steps, at);
        }
      }
    }
  }

  /** The same of the runs in which all requests are those of the breaker. */
  ghost predicate AloneRecovers(w: Proxy, key: string, fam: Request -> bool) {
    forall steps: seq<Step>, hi: nat, at: nat ::
      Clocked(w, START, 0, steps, hi) && AllOn(key, steps) && Members(fam, key, steps)
      && Settled(Reach(w, START, steps), key, at) ==>
        LetsIn(Reach(w, START, steps), key, at)
  }

  /** If attempts are always sent, so that only delays panic, the requests of other breakers make no difference. */
  lemma RecoversIffAlone(w: Proxy, key: string, fam: Request -> bool)
    requires forall req :: Belongs(fam, req) && Key(req) == key ==> !CanFall(w.site, req.o)
    ensures AloneRecovers(w, key, fam) <==> AlwaysRecovers(w, key, fam)
  {
    if !AlwaysRecovers(w, key, fam) {
      RecoversIff(w, key, fam);
      var failing :| Belongs(fam, failing) && Key(failing) == key && CanFail(w, failing);
      var crashing :| Belongs(fam, crashing) && Key(crashing) == key && CanCrash(w, crashing);
      var steps, end := CrashWedges(w, fam, key, failing, crashing);
      SpentForGood(w, Reach(w, START, steps), key, [], 0);
      assert Settled(Reach(w, START, steps), key, 0);
    }
  }
}
