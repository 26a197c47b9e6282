/** How the attempts of all requests spread over the targets of a path: in the concurrent system each attempt goes to
    the URL that its own call of get_target chose, and retries of all requests together take the balancer's picks in
    turn. */
module UpstreamFairness {
  import LB = LoadBalancers
  import opened BalancerFairness
  import opened BalancerRuns
  import opened Options
  import opened ProxyRequests
  import opened ProxySystem
  import opened Routing
  import opened Selection
  import opened Upstreams

  /** The calls of get_target in a run, in their order. */
  function CallsOf(w: Proxy, steps: seq<Step>): seq<Call> {
    if steps == [] then []
    else
      var before, step := steps[..|steps| - 1], steps[|steps| - 1];
      CallsOf(w, before) + CallsIn(w, Reach(w, START, before), step)
  }

  function CallsIn(w: Proxy, s: System, step: Step): seq<Call> {
    if step.Choose? && Enabled(w, s, step) then [Call(s.inflight[step.id].req.o.path, w.site.order)] else []
  }

  lemma CallsSnoc(cfg: LB.Config, calls: seq<Call>, call: Call)
    ensures RunCalls(cfg, calls + [call]) == LB.Called(cfg, RunCalls(cfg, calls), call.path, call.order).0
  {
    assert (calls + [call])[..|calls + [call]| - 1] == calls;
  }

  lemma UnderSnoc(key: string, calls: seq<Call>, call: Call)
    ensures CallsUnder(key, calls + [call]) == CallsUnder(key, calls) + if key <= call.path then 1 else 0
  {
    assert (calls + [call])[..|calls + [call]| - 1] == calls;
  }

  lemma StepAsks(w: Proxy, s: System, step: Step, calls: seq<Call>)
    requires w.site.balancer.Some? && s.tables == RunCalls(w.site.balancer.value, calls)
    ensures Next(w, s, step).tables == RunCalls(w.site.balancer.value, calls + CallsIn(w, s, step))
  {
    if step.Choose? && Enabled(w, s, step) {
      CallsSnoc(w.site.balancer.value, calls, CallsIn(w, s, step)[0]);
    } else {
      assert calls + [] == calls;
    }
  }

  lemma {:induction false} TablesAreCalls(w: Proxy, steps: seq<Step>)
    requires w.site.balancer.Some?
    ensures Reach(w, START, steps).tables == RunCalls(w.site.balancer.value, CallsOf(w, steps))
    decreases |steps|
  {
    if steps != [] {
      var before := steps[..|steps| - 1];
      TablesAreCalls(w, before);
      StepAsks(w, Reach(w, START, before), steps[|steps| - 1], CallsOf(w, before));
    }
  }

  lemma {:induction false} CallsVisit(w: Proxy, steps: seq<Step>)
    requires w.site.balancer.Some? && Visits(w.site.order, w.site.balancer.value.targets.Keys)
    ensures AllVisit(w.site.balancer.value, CallsOf(w, steps))
    decreases |steps|
  {
    if steps != [] {
      CallsVisit(w, steps[..|steps| - 1]);
    }
  }

  // ------------------------------------------------------------------------------------------------
  // Attempts at one URL for the paths under one key

  /** An attempt under way at a URL, by a request for a path under a key. */
  predicate Rides(f: Flight, key: string, url: string) {
    key <= f.req.o.path && f.url == Some(url)
  }

  function Riders(m: map<nat, Flight>, key: string, url: string): set<nat> {
    set id | id in m && Rides(m[id], key, url)
  }

  lemma RidersChange(m: map<nat, Flight>, id: nat, f: Flight, key: string, url: string)
    ensures |Riders(m[id := f], key, url)| + (if id in Riders(m, key, url) then 1 else 0)
            == |Riders(m, key, url)| + if Rides(f, key, url) then 1 else 0
  {
    var before := Riders(m, key, url);
    assert Riders(m[id := f], key, url) == if Rides(f, key, url) then before + {id} else before - {id};
    if Rides(f, key, url) && id in before {
      assert before + {id} == before;
    }
    if !Rides(f, key, url) && id !in before {
      assert before - {id} == before;
    }
  }

  lemma RidersLeave(m: map<nat, Flight>, id: nat, key: string, url: string)
    ensures |Riders(m - {id}, key, url)|
            == |Riders(m, key, url)| - if id in Riders(m, key, url) then 1 else 0
  {
    var before := Riders(m, key, url);
    assert Riders(m - {id}, key, url) == before - {id};
    if id !in before {
      assert before - {id} == before;
    }
  }

  /** What a step adds to the attempts finished at the URL. */
  function FinishedIn(w: Proxy, s: System, step: Step, key: string, url: string): nat {
    if step.Finish? && Enabled(w, s, step) && Rides(s.inflight[step.id], key, url) then 1 else 0
  }

  /** What a step adds to the attempts for which the URL was chosen, but no request could be rebuilt. */
  function LostIn(w: Proxy, s: System, step: Step, key: string, url: string): nat {
    if step.Choose? && Enabled(w, s, step) && key <= s.inflight[step.id].req.o.path
       && Asked(w.site, s.tables, s.inflight[step.id].req.o.path).1 == LB.Chosen(url)
       && !Rebuilds(w.site, s.inflight[step.id].req.o, url)
    then 1 else 0
  }

  function Finished(w: Proxy, steps: seq<Step>, key: string, url: string): nat {
    if steps == [] then 0
    else
      var before := steps[..|steps| - 1];
      Finished(w, before, key, url) + FinishedIn(w, Reach(w, START, before), steps[|steps| - 1], key, url)
  }

  function Lost(w: Proxy, steps: seq<Step>, key: string, url: string): nat {
    if steps == [] then 0
    else
      var before := steps[..|steps| - 1];
      Lost(w, before, key, url) + LostIn(w, Reach(w, START, before), steps[|steps| - 1], key, url)
  }

  /** A step asks the balancer for a path under the key. */
  predicate AsksUnder(w: Proxy, s: System, step: Step, key: string) {
    step.Choose? && Enabled(w, s, step) && key <= s.inflight[step.id].req.o.path
  }

  function AnswerTo(w: Proxy, s: System, step: Step): LB.Choice
    requires step.Choose? && Enabled(w, s, step)
  {
    Asked(w.site, s.tables, s.inflight[step.id].req.o.path).1
  }

  function ChosenIn(w: Proxy, s: System, step: Step, key: string, url: string): nat {
    if AsksUnder(w, s, step, key) && AnswerTo(w, s, step) == LB.Chosen(url) then 1 else 0
  }

  /** The attempts under way, finished and lost at the URL, after a step. */
  ghost predicate Conserves(w: Proxy, s: System, step: Step, key: string, url: string) {
    |Riders(Next(w, s, step).inflight, key, url)| + FinishedIn(w, s, step, key, url) + LostIn(w, s, step, key, url)
    == |Riders(s.inflight, key, url)| + ChosenIn(w, s, step, key, url)
  }

  lemma ChooseConserves(w: Proxy, s: System, id: nat, at: nat, key: string, url: string)
    requires Occupied(w, s) && Enabled(w, s, Choose(id, at))
    requires AsksUnder(w, s, Choose(id, at), key) ==> AnswerTo(w, s, Choose(id, at)).Chosen?
    ensures Conserves(w, s, Choose(id, at), key, url)
  {
    var f := s.inflight[id];
    RidersChange(s.inflight, id, f.(url := Fate(w.site, s.tables, f.req.o), at := at), key, url);
    RidersLeave(s.inflight, id, key, url);
  }

  lemma FinishConserves(w: Proxy, s: System, id: nat, r: Round, key: string, url: string)
    requires Occupied(w, s) && Enabled(w, s, Finish(id, r))
    ensures Conserves(w, s, Finish(id, r), key, url)
  {
    RidersChange(s.inflight, id, Onwards(s.inflight[id], r), key, url);
    RidersLeave(s.inflight, id, key, url);
  }

  lemma StepConserves(w: Proxy, s: System, step: Step, key: string, url: string)
    requires Occupied(w, s)
    requires AsksUnder(w, s, step, key) ==> AnswerTo(w, s, step).Chosen?
    ensures Conserves(w, s, step, key, url)
  {
    if Enabled(w, s, step) {
      match step {
        case Arrive(id, req, at) => RidersChange(s.inflight, id, Flight(req, 0, NOTHING_YET, None, at), key, url);
        case Choose(id, at) => ChooseConserves(w, s, id, at, key, url);
        case Finish(id, r) => FinishConserves(w, s, id, r, key, url);
        case UseUp(id, _) => RidersLeave(s.inflight, id, key, url);
      }
    }
  }

  // ------------------------------------------------------------------------------------------------
  // Picks

  /** The site's balancer has separate paths, and the key is one of them, well configured. */
  ghost predicate Balanced(w: Proxy, key: string) {
    && w.site.balancer.Some?
    && var cfg := w.site.balancer.value;
       Visits(w.site.order, cfg.targets.Keys) && Separate(cfg) && WellConfigured(cfg, key)
  }

  /** The answer to a call for a path under the key is the key's next pick. */
  lemma CallIsPick(cfg: LB.Config, calls: seq<Call>, call: Call, key: string, i: nat)
    requires Separate(cfg) && WellConfigured(cfg, key) && AllVisit(cfg, calls)
    requires Visits(call.order, cfg.targets.Keys) && key <= call.path && i < |cfg.targets[key]|
    ensures
      var answer, n := LB.Called(cfg, RunCalls(cfg, calls), call.path, call.order).1, CallsUnder(key, calls);
      && answer.Chosen?
      && Picks(cfg.algorithm, WeightsFor(cfg, key), n + 1, i)
         == Picks(cfg.algorithm, WeightsFor(cfg, key), n, i) + if answer.url == cfg.targets[key][i] then 1 else 0
  {
    CallGetsPick(cfg, calls, call, key);
    var pick := PickAt(cfg.algorithm, WeightsFor(cfg, key), CallsUnder(key, calls)).value;
    assert cfg.targets[key][pick] == cfg.targets[key][i] ==> pick == i;
  }

  ghost function PicksIn(cfg: LB.Config, calls: seq<Call>, key: string, i: nat): nat
    requires key in cfg.targets
  {
    Picks(cfg.algorithm, WeightsFor(cfg, key), CallsUnder(key, calls), i)
  }

  lemma PicksSnoc(cfg: LB.Config, calls: seq<Call>, call: Call, key: string, i: nat)
    requires Separate(cfg) && WellConfigured(cfg, key) && AllVisit(cfg, calls)
    requires Visits(call.order, cfg.targets.Keys) && i < |cfg.targets[key]|
    ensures
      var answer := LB.Called(cfg, RunCalls(cfg, calls), call.path, call.order).1;
      && (key <= call.path ==> answer.Chosen?)
      && PicksIn(cfg, calls + [call], key, i)
         == PicksIn(cfg, calls, key, i) + if key <= call.path && answer == LB.Chosen(cfg.targets[key][i]) then 1 else 0
  {
    UnderSnoc(key, calls, call);
    if key <= call.path {
      CallIsPick(cfg, calls, call, key, i);
    }
  }

  lemma StepPicks(w: Proxy, s: System, calls: seq<Call>, step: Step, key: string, i: nat)
    requires Balanced(w, key) && i < |w.site.balancer.value.targets[key]|
    requires s.tables == RunCalls(w.site.balancer.value, calls) && AllVisit(w.site.balancer.value, calls)
    ensures AsksUnder(w, s, step, key) ==> AnswerTo(w, s, step).Chosen?
    ensures
      var cfg := w.site.balancer.value;
      PicksIn(cfg, calls + CallsIn(w, s, step), key, i)
      == PicksIn(cfg, calls, key, i) + ChosenIn(w, s, step, key, cfg.targets[key][i])
  {
    if step.Choose? && Enabled(w, s, step) {
      PicksSnoc(w.site.balancer.value, calls, CallsIn(w, s, step)[0], key, i);
    } else {
      assert calls + [] == calls;
    }
  }

  /** The picks of target i of a path in a run. */
  ghost function PicksOf(w: Proxy, steps: seq<Step>, key: string, i: nat): nat
    requires Balanced(w, key)
  {
    PicksIn(w.site.balancer.value, CallsOf(w, steps), key, i)
  }

  /** In every run, whatever breakers the requests belong to and however they interleave, the balancing algorithm's
      picks of a target are exactly the attempts under way at it, those finished, and those for which no request
      could be rebuilt. */
  lemma {:induction false} AttemptsArePicks(w: Proxy, steps: seq<Step>, key: string, i: nat)
    requires Balanced(w, key) && i < |w.site.balancer.value.targets[key]|
    ensures
      var url := w.site.balancer.value.targets[key][i];
      PicksOf(w, steps, key, i)
      == |Riders(Reach(w, START, steps).inflight, key, url)| + Finished(w, steps, key, url) + Lost(w, steps, key, url)
    decreases |steps|
  {
    var url := w.site.balancer.value.targets[key][i];
    if steps == [] {
      assert Riders(START.inflight, key, url) == {};
    } else {
      var before, step := steps[..|steps| - 1], steps[|steps| - 1];
      AttemptsArePicks(w, before, key, i);
      AlwaysOccupied(w, before);
      TablesAreCalls(w, before);
      CallsVisit(w, before);
      StepPicks(w, Reach(w, START, before), CallsOf(w, before), step, key, i);
      StepConserves(w, Reach(w, START, before), step, key, url);
    }
  }

  /** A target has finished what the algorithm picks for it in a row, less the attempts that could not be rebuilt and at
      most one for each permit. */
  lemma {:induction false} FinishedWithinPermits(w: Proxy, steps: seq<Step>, key: string, i: nat)
    requires Balanced(w, key) && i < |w.site.balancer.value.targets[key]|
    ensures
      var url := w.site.balancer.value.targets[key][i];
      var done := Finished(w, steps, key, url) + Lost(w, steps, key, url);
      done <= PicksOf(w, steps, key, i) <= done + w.pool
  {
    var m, url := Reach(w, START, steps).inflight, w.site.balancer.value.targets[key][i];
    AttemptsArePicks(w, steps, key, i);
    AlwaysOccupied(w, steps);
    SubsetSize(Riders(m, key, url), m.Keys);
  }

  lemma {:induction false} SubsetSize(a: set<nat>, b: set<nat>)
    requires a <= b
    ensures |a| <= |b|
    decreases |a|
  {
    if a != {} {
      var x :| x in a;
      SubsetSize(a - {x}, b - {x});
    }
  }

  /** With either weighted algorithm, after m full periods of attempts for the paths under a key, retries and
      attempts of all breakers included, and with none under way, each target has finished m times its weight. */
  lemma {:induction false} AttemptsByWeight(w: Proxy, steps: seq<Step>, key: string, i: nat, m: nat)
    requires Balanced(w, key) && i < |w.site.balancer.value.targets[key]| && Weighted(w.site.balancer.value)
    requires CallsUnder(key, CallsOf(w, steps)) == m * Sum(w.site.balancer.value.weights[key])
    requires Reach(w, START, steps).inflight == map[]
    ensures
      var cfg := w.site.balancer.value;
      Finished(w, steps, key, cfg.targets[key][i]) + Lost(w, steps, key, cfg.targets[key][i]) == m * cfg.weights[key][i]
  {
    var cfg := w.site.balancer.value;
    AttemptsArePicks(w, steps, key, i);
    assert Riders(map[], key, cfg.targets[key][i]) == {};
    WeightedLeastPeriod(cfg.weights[key], m, i);
  }
}
