/** What the retry loop of one request finds of the balancer, when other requests ask it in between. */
module LoopCalls {
  import LoadBalancers
  import opened BalancerRuns
  import opened Options
  import opened ProxyRequests
  import opened Upstreams

  /** The calls of get_target while a request makes its first n attempts: before each its own one, those of others. */
  function CallsDuring(site: Site, o: Original, rounds: seq<Round>, n: nat): seq<Call>
    requires n <= |rounds|
  {
    if n == 0 then []
    else CallsDuring(site, o, rounds, n - 1) + CallsFor(site, rounds[n - 1].asked) + [Call(o.path, site.order)]
  }

  function CallsFor(site: Site, paths: seq<string>): seq<Call> {
    if paths == [] then [] else CallsFor(site, paths[..|paths| - 1]) + [Call(paths[|paths| - 1], site.order)]
  }

  lemma CallLast(cfg: LoadBalancers.Config, calls: seq<Call>, call: Call)
    ensures RunCalls(cfg, calls + [call]) == LoadBalancers.Called(cfg, RunCalls(cfg, calls), call.path, call.order).0
  {
    assert (calls + [call])[..|calls + [call]| - 1] == calls;
  }

  lemma {:induction false} OthersRun(site: Site, calls: seq<Call>, paths: seq<string>)
    requires site.balancer.Some?
    ensures AskedBy(site, RunCalls(site.balancer.value, calls), paths)
            == RunCalls(site.balancer.value, calls + CallsFor(site, paths))
    decreases |paths|
  {
    if paths == [] {
      assert calls + [] == calls;
    } else {
      var before, call := paths[..|paths| - 1], Call(paths[|paths| - 1], site.order);
      OthersRun(site, calls, before);
      CallLast(site.balancer.value, calls + CallsFor(site, before), call);
      assert calls + CallsFor(site, before) + [call] == calls + CallsFor(site, paths);
    }
  }

  /** The calls that attempt n finds made: those of its own request before it, and all those of others until then. */
  function CallsBefore(site: Site, o: Original, rounds: seq<Round>, n: nat): seq<Call>
    requires n < |rounds|
  {
    CallsDuring(site, o, rounds, n) + CallsFor(site, rounds[n].asked)
  }

  /** From a fresh balancer, the tables after n attempts are as the calls of the request and of the others have left
      them, in their order. */
  lemma {:induction false} TablesAreRuns(site: Site, o: Original, rounds: seq<Round>, n: nat)
    requires site.balancer.Some? && n <= |rounds|
    ensures TablesAfter(site, NO_TABLES, o, rounds, n)
            == RunCalls(site.balancer.value, CallsDuring(site, o, rounds, n))
    decreases n
  {
    if n > 0 {
      TablesAreRuns(site, o, rounds, n - 1);
      OthersRun(site, CallsDuring(site, o, rounds, n - 1), rounds[n - 1].asked);
      OwnCall(site, o, CallsBefore(site, o, rounds, n - 1));
    }
  }

  lemma OwnCall(site: Site, o: Original, calls: seq<Call>)
    requires site.balancer.Some?
    ensures Asked(site, RunCalls(site.balancer.value, calls), o.path).0
            == RunCalls(site.balancer.value, calls + [Call(o.path, site.order)])
  {
    CallLast(site.balancer.value, calls, Call(o.path, site.order));
  }

  /** So attempt n is sent to what the balancer answers after those calls, or to the first URL, or panics. */
  lemma AttemptAsksAfter(site: Site, o: Original, rounds: seq<Round>, n: nat)
    requires site.balancer.Some? && n < |rounds|
    ensures
      var cfg := site.balancer.value;
      var answer := LoadBalancers.Called(cfg, RunCalls(cfg, CallsBefore(site, o, rounds, n)), o.path, site.order).1;
      var url := match answer case Chosen(url) => Some(url) case NoTarget => Some(o.firstUrl) case Panicked => None;
      FateOf(site, NO_TABLES, o, rounds, n) == if url.Some? && Rebuilds(site, o, url.value) then url else None
  {
    TablesAreRuns(site, o, rounds, n);
    OthersRun(site, CallsDuring(site, o, rounds, n), rounds[n].asked);
  }
}
