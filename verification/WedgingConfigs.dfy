/** Which configurations let a breaker wedge: the exact condition in terms of the retry strategy and of what the
    balancer can answer. */
module WedgingConfigs {
  import CB = CircuitBreakers
  import LB = LoadBalancers
  import opened Backoff
  import opened BackoffTotals
  import opened BalancerAnswers
  import opened Options
  import opened ProxyDraining
  import opened ProxyRequests
  import opened ProxySystem
  import opened ProxyWedging
  import opened Selection
  import opened Units
  import opened Upstreams

  /** The delays of a request are its strategy's, for some random draws. */
  ghost predicate Drawn(req: Request, plan: Strategy) {
    exists draws: nat -> Draws :: DelaysOf(req.p, plan, draws)
  }

  /** A request and the configuration it comes under: the retry strategy with its attempts, the timeout, the breaker. */
  datatype Target = Target(o: Original, plan: Strategy, attempts: nat, timeout: nat, breaker: CB.Config)

  /** The requests of a target, whatever their strategy draws. */
  ghost function Configured(c: Target): Request -> bool {
    (req: Request) =>
      && req.o == c.o && req.cfg == c.breaker && Drawn(req, c.plan)
      && req.p.maxAttempts == c.attempts && req.p.timeout == c.timeout
  }

  lemma TemplateDrawn(req: Request, plan: Strategy)
    ensures Drawn(Template(req), plan) <==> Drawn(req, plan)
  {
    if Drawn(req, plan) {
      var draws: nat -> Draws :| DelaysOf(req.p, plan, draws);
      assert DelaysOf(Template(req).p, plan, draws);
    }
    if Drawn(Template(req), plan) {
      var draws: nat -> Draws :| DelaysOf(Template(req).p, plan, draws);
      assert DelaysOf(req.p, plan, draws);
    }
  }

  /** A request of a target that draws the same numbers in every call. */
  lemma SomeRequest(c: Target, d: Draws) returns (req: Request)
    ensures Belongs(Configured(c), req) && req.o == c.o && req.p.maxAttempts == c.attempts
    ensures forall k: nat :: req.p.delay(k) == DelayOf(c.plan, k, d)
  {
    var delay := (k: nat) => DelayOf(c.plan, k, d);
    var draws := (k: nat) => d;
    req := Request(c.o, Params(c.attempts, c.timeout, 0, delay, [], 0), c.breaker);
    assert DelaysOf(req.p, c.plan, draws);
    TemplateDrawn(req, c.plan);
  }

  /** Some request of a target can be made to panic in a delay exactly if its strategy may. */
  lemma DelaysPanicIff(c: Target)
    ensures (exists req :: Belongs(Configured(c), req) && !DelaysSome(req.p)) <==> MayPanicWithin(c.plan, c.attempts)
  {
    if MayPanicWithin(c.plan, c.attempts) {
      var k: nat :| 1 <= k < c.attempts && MayPanic(c.plan, k);
      MayPanicExact(c.plan, k);
      var d: Draws :| DelayOf(c.plan, k, d).None?;
      var req := SomeRequest(c, d);
      assert req.p.delay(k).None?;
    }
    forall req | Belongs(Configured(c), req) && !DelaysSome(req.p)
      ensures MayPanicWithin(c.plan, c.attempts)
    {
      TemplateDrawn(req, c.plan);
      var draws: nat -> Draws :| DelaysOf(req.p, c.plan, draws);
      var k: nat :| 1 <= k < req.p.maxAttempts && req.p.delay(k).None?;
      assert DelayOf(c.plan, k, draws(k)).None?;
      MayPanicExact(c.plan, k);
    }
  }

  /** The breaker of a target recovers in every run exactly if there is no permit or no attempt, or no attempt can be
      sent, or nothing can panic: no call of the strategy, no call of get_target, no rebuilt request. */
  lemma RecoversIffConfigured(w: Proxy, c: Target)
    ensures AlwaysRecovers(w, c.o.firstUrl, Configured(c)) <==>
              || w.pool == 0 || c.attempts == 0
              || !CanGo(w.site, c.o)
              || (!CanFall(w.site, c.o) && !MayPanicWithin(c.plan, c.attempts))
  {
    var fam := Configured(c);
    RecoversIff(w, c.o.firstUrl, fam);
    DelaysPanicIff(c);
    var req := SomeRequest(c, Draws(0, 0));
    assert Belongs(fam, req) && Key(req) == c.o.firstUrl;
    if c.attempts > 0 && MayPanicWithin(c.plan, c.attempts) {
      var late :| Belongs(fam, late) && !DelaysSome(late.p);
      assert Key(late) == c.o.firstUrl && CanCrash(w, late);
    }
  }

  /** Without jitter and up to 2^32 attempts, the last call of the strategy decides. */
  lemma RecoversIffLastDelay(w: Proxy, c: Target)
    requires w.pool > 0 && c.plan.jitter.None? && c.attempts <= TWO_32 && CanGo(w.site, c.o) && !CanFall(w.site, c.o)
    ensures AlwaysRecovers(w, c.o.firstUrl, Configured(c)) <==> c.attempts <= 1 || !MayPanic(c.plan, c.attempts - 1)
  {
    RecoversIffConfigured(w, c);
    LastCallDecides(c.plan.base, c.attempts);
    assert c.plan == Strategy(c.plan.base, None);
  }

  // ------------------------------------------------------------------------------------------------
  // Configurations that let it wedge

  /** Where there is no balancer, a request whose only URL makes a URI can be sent. */
  lemma GoesWithoutBalancer(site: Site, o: Original)
    requires site.balancer.None? && Rebuilds(site, o, o.firstUrl)
    ensures CanGo(site, o)
  {
    assert Allowed(site, o.path, LB.NoTarget) && Goes(site, o, LB.NoTarget);
  }

  /** Exponential backoff on 2 seconds with a factor of 10^19, from the second attempt on. */
  lemma SteepBackoffWedges(w: Proxy, c: Target)
    requires w.pool > 0 && w.site.balancer.None? && Rebuilds(w.site, c.o, c.o.firstUrl) && c.attempts >= 2
    requires
      var retries := RetryConfig("ExponentialBackoff", 2, c.attempts, Some(10_000_000_000_000_000_000), None, None);
      c.plan == ToPlan(retries)
    ensures !AlwaysRecovers(w, c.o.firstUrl, Configured(c))
  {
    assert Pow(10_000_000_000_000_000_000, 1) == 10_000_000_000_000_000_000 * Pow(10_000_000_000_000_000_000, 0);
    assert MayPanic(c.plan, 1);
    GoesWithoutBalancer(w.site, c.o);
    RecoversIffConfigured(w, c);
  }

  /** Random delays on a base of no seconds, whose range is empty. */
  lemma EmptyRandomRangeWedges(w: Proxy, c: Target)
    requires w.pool > 0 && w.site.balancer.None? && Rebuilds(w.site, c.o, c.o.firstUrl) && c.attempts >= 2
    requires c.plan == ToPlan(RetryConfig("RandomDelay", 0, c.attempts, None, None, None))
    ensures !AlwaysRecovers(w, c.o.firstUrl, Configured(c))
  {
    assert MayPanic(c.plan, 1);
    GoesWithoutBalancer(w.site, c.o);
    RecoversIffConfigured(w, c);
  }

  /** A balancer with one URL and a second weight, over the one path that a target has. */
  ghost predicate Spare(w: Proxy, c: Target, second: nat) {
    && w.pool > 0 && c.attempts > 0 && second > 0
    && c.o.path == "/api" && w.site.order == ["/api"] && Rebuilds(w.site, c.o, c.o.firstUrl)
    && w.site.balancer
       == Some(LB.Config(map["/api" := [c.o.firstUrl]], WeightedRoundRobin, map["/api" := [1, second]]))
  }

  /** Weighted round robin over one URL with a second weight, under any strategy and any breaker. */
  lemma SpareWeightWedges(w: Proxy, c: Target, second: nat)
    requires Spare(w, c, second)
    ensures !AlwaysRecovers(w, c.o.firstUrl, Configured(c))
  {
    var cfg := w.site.balancer.value;
    var ws := cfg.weights["/api"];
    assert ws[1] == second && Sum(ws) == Prefix(ws, 1) + second;
    assert Decisive(cfg, c.o.path, w.site.order) == Some("/api");
    assert Takes(cfg, "/api", 0) && cfg.targets["/api"][0] == c.o.firstUrl;
    assert Faulty(cfg, "/api");
    assert Allowed(w.site, c.o.path, LB.Chosen(c.o.firstUrl)) && Goes(w.site, c.o, LB.Chosen(c.o.firstUrl));
    assert Allowed(w.site, c.o.path, LB.Panicked) && !Goes(w.site, c.o, LB.Panicked);
    RecoversIffConfigured(w, c);
  }

  // ------------------------------------------------------------------------------------------------
  // Without requests of other breakers

  /** The slot of the next call. */
  function SlotNow(s: System): nat {
    LB.CountOf(s.tables.counters, "/api")
  }

  /** Slot 0 has the URL, all others panic. */
  lemma SpareCall(w: Proxy, c: Target, second: nat, s: System)
    requires Spare(w, c, second) && TablesSound(w.site, s.tables)
    ensures SlotNow(s) <= second
    ensures Fate(w.site, s.tables, c.o).Some? <==> SlotNow(s) == 0
    ensures LB.CountOf(Asked(w.site, s.tables, "/api").0.counters, "/api")
            == if SlotNow(s) == second then 0 else SlotNow(s) + 1
  {
    var cfg, slot := w.site.balancer.value, SlotNow(s);
    var ws := cfg.weights["/api"];
    assert ws[0] == 1 && ws[1] == second;
    assert Prefix(ws, 1) == 1 && Prefix(ws, 2) == 1 + second == Sum(ws);
    assert CounterSound(cfg, s.tables, "/api");
    OwnerFound(ws, slot);
    NextSlot(slot, 1 + second);
    assert Owner(ws, slot, 2) == Some(if slot == 0 then 0 else 1);
    assert w.site.order[0] == "/api" && "/api" <= c.o.path;
  }

  /** One request of the target while the breaker is closed: in a slot without a URL it crashes unnoticed, in the first
      slot it times out. */
  lemma OneAlone(w: Proxy, c: Target, second: nat, s: System, req: Request, t: nat)
    returns (steps: seq<Step>, end: System, u: nat)
    requires Spare(w, c, second) && Calm(w, s, c.o.firstUrl)
    requires Belongs(Configured(c), req) && BreakerOf(s, req, t).state == CB.Closed
    ensures Scene(w, Configured(c), c.o.firstUrl, s, t, steps, end, u) && AllOn(c.o.firstUrl, steps)
    ensures Calm(w, end, c.o.firstUrl) && c.o.firstUrl in end.breakers && TablesSound(w.site, s.tables)
    ensures SlotNow(s) <= second && SlotNow(end) == if SlotNow(s) == second then 0 else SlotNow(s) + 1
    ensures end.breakers[c.o.firstUrl]
            == if SlotNow(s) == 0 then CB.Failed(BreakerOf(s, req, t), u) else BreakerOf(s, req, t)
  {
    var key, fam := c.o.firstUrl, Configured(c);
    SpareCall(w, c, second, s);
    if SlotNow(s) == 0 {
      u := t + c.timeout;
      steps, end := TimesOut(w, fam, key, s, req, t);
    } else {
      u := t;
      Restarted(fam, s, req, t);
      steps, end := BeginsAttempt(w, fam, key, s, StartedAt(req, t), t);
    }
  }

  /** The slots are used up by requests of the target alone until the breaker opens, with the first slot just used. */
  lemma {:induction false} OpensAlone(w: Proxy, c: Target, second: nat, s: System, req: Request, t: nat)
    returns (steps: seq<Step>, end: System, u: nat)
    requires Spare(w, c, second) && Calm(w, s, c.o.firstUrl)
    requires Belongs(Configured(c), req) && Key(req) == c.o.firstUrl
    requires BreakerOf(s, req, t).state == CB.Closed && CB.Consistent(BreakerOf(s, req, t))
    requires BreakerOf(s, req, t).cfg == c.breaker
    ensures Scene(w, Configured(c), c.o.firstUrl, s, t, steps, end, u) && AllOn(c.o.firstUrl, steps)
    ensures Calm(w, end, c.o.firstUrl) && c.o.firstUrl in end.breakers
    ensures end.breakers[c.o.firstUrl].state == CB.Open && end.breakers[c.o.firstUrl].cfg == c.breaker
    ensures SlotNow(end) == 1
    decreases
      CB.Threshold(c.breaker) - BreakerOf(s, req, t).failureCount,
      if SlotNow(s) == 0 then 0 else second + 1 - SlotNow(s)
  {
    steps, end, u := OneAlone(w, c, second, s, req, t);
    OneFailure(BreakerOf(s, req, t), u);
    if end.breakers[c.o.firstUrl].state == CB.Closed {
      var more, last, v := OpensAlone(w, c, second, end, req, u);
      SceneConcat(w, Configured(c), c.o.firstUrl, s, t, steps, end, u, more, last, v);
      AllOnConcat(c.o.firstUrl, steps, more);
      steps, end, u := steps + more, last, v;
    }
  }

  lemma {:induction false} SpendsAlone(w: Proxy, c: Target, second: nat, s: System, req: Request, t: nat)
    returns (steps: seq<Step>, end: System)
    requires Spare(w, c, second) && Calm(w, s, c.o.firstUrl) && Belongs(Configured(c), req)
    requires c.o.firstUrl in s.breakers && s.breakers[c.o.firstUrl].state == CB.HalfOpen
    requires
      var b := s.breakers[c.o.firstUrl];
      && b.halfOpenAttempts <= b.cfg.halfOpenAttempts
      && (b.halfOpenAttempts < b.cfg.halfOpenAttempts ==>
            0 < SlotNow(s) <= second - (b.cfg.halfOpenAttempts - b.halfOpenAttempts) + 1)
    ensures Scene(w, Configured(c), c.o.firstUrl, s, t, steps, end, t) && AllOn(c.o.firstUrl, steps)
    ensures Spent(end, c.o.firstUrl)
    decreases s.breakers[c.o.firstUrl].cfg.halfOpenAttempts - s.breakers[c.o.firstUrl].halfOpenAttempts
  {
    var key, fam := c.o.firstUrl, Configured(c);
    steps, end := [], s;
    if CB.Admits(s.breakers[key], t) {
      SpareCall(w, c, second, s);
      Restarted(fam, s, req, t);
      steps, end := BeginsAttempt(w, fam, key, s, StartedAt(req, t), t);
      var more, last := SpendsAlone(w, c, second, end, req, t);
      SceneConcat(w, fam, key, s, t, steps, end, t, more, last, t);
      steps, end := steps + more, last;
    }
  }

  /** With a second weight above half_open_attempts no other breaker is needed: requests of the target alone spend
      it. */
  lemma SpareWeightWedgesAlone(w: Proxy, c: Target, second: nat) returns (steps: seq<Step>, end: nat)
    requires Spare(w, c, second) && second > c.breaker.halfOpenAttempts
    ensures Clocked(w, START, 0, steps, end) && AllOn(c.o.firstUrl, steps)
    ensures Members(Configured(c), c.o.firstUrl, steps) && Spent(Reach(w, START, steps), c.o.firstUrl)
  {
    var key, fam := c.o.firstUrl, Configured(c);
    var req := SomeRequest(c, Draws(0, 0));
    StartCalm(w, key);
    var a, open, u := OpensAlone(w, c, second, START, req, 0);
    var t := if open.breakers[key].openUntil > u then open.breakers[key].openUntil else u;
    SpareCall(w, c, second, open);
    Restarted(fam, open, req, t);
    var b, half := BeginsAttempt(w, fam, key, open, StartedAt(req, t), t);
    var d, spent := SpendsAlone(w, c, second, half, req, t);
    SceneConcat(w, fam, key, open, t, b, half, t, d, spent, t);
    Later(w, fam, key, START, 0, a, open, u, t);
    SceneConcat(w, fam, key, START, 0, a, open, t, b + d, spent, t);
    AllOnConcat(key, b, d);
    AllOnConcat(key, a, b + d);
    steps, end := a + (b + d), t;
  }
}
