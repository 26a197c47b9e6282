/** The load balancer: its tables of counters and connection counts, and what a call to get_target does to them. */
module LoadBalancers {
  import opened Options
  import opened Selection
  import opened BalancerFairness
  import opened Routing

  datatype Config = Config(
    targets: map<string, seq<string>>,
    algorithm: Algorithm,
    weights: map<string, seq<nat>>)

  /** The two tables that calls update: a counter per path and a count per URL. An absent entry reads as zero. */
  datatype State = State(counters: map<string, nat>, connections: map<string, nat>)

  /** What a call returns; Panicked is an index or a modulus out of range. */
  datatype Choice = Chosen(url: string) | NoTarget | Panicked

  function CountOf(m: map<string, nat>, k: string): nat {
    if k in m then m[k] else 0
  }

  function CountsOf(m: map<string, nat>, urls: seq<string>): (counts: seq<nat>)
    ensures |counts| == |urls|
  {
    seq(|urls|, i requires 0 <= i < |urls| => CountOf(m, urls[i]))
  }

  /** The table with a zero entry for each URL that had none. */
  function Touched(m: map<string, nat>, urls: seq<string>): map<string, nat> {
    map k | k in m.Keys + (set u | u in urls) :: CountOf(m, k)
  }

  function Counted(m: map<string, nat>, url: string): map<string, nat> {
    m[url := CountOf(m, url) + 1]
  }

  /** One entry's turn in the loop over the paths: the new tables, and what the call returns, or None if the loop goes
      on. */
  function KeyCall(cfg: Config, st: State, key: string): (State, Option<Choice>)
    requires key in cfg.targets
  {
    var urls := cfg.targets[key];
    var counter := CountOf(st.counters, key);
    var seen := st.(counters := st.counters[key := counter]);
    match cfg.algorithm
    case RoundRobin =>
      if urls == [] then (seen, Some(Panicked))
      else (st.(counters := st.counters[key := (counter + 1) % |urls|]), Some(Chosen(urls[counter % |urls|])))
    case LeastConnections =>
      var touched := Touched(st.connections, urls);
      (match Fewest(CountsOf(touched, urls), |urls|)
       case None => (st.(connections := touched), None)
       case Some(i) => (st.(connections := Counted(touched, urls[i])), Some(Chosen(urls[i]))))
    case WeightedRoundRobin =>
      if key !in cfg.weights then (seen, Some(NoTarget))
      else
        var ws := cfg.weights[key];
        (match Owner(ws, counter, |ws|)
         case None => (seen, None)
         case Some(i) =>
           PrefixMono(ws, i + 1, |ws|);
           (st.(counters := st.counters[key := (counter + 1) % Sum(ws)]),
            Some(if i < |urls| then Chosen(urls[i]) else Panicked)))
    case WeightedLeastConnections =>
      if key !in cfg.weights then (st, Some(NoTarget))
      else if |cfg.weights[key]| < |urls| then
        (st.(connections := Touched(st.connections, urls[..|cfg.weights[key]| + 1])), Some(Panicked))
      else
        var touched := Touched(st.connections, urls);
        (match LowestScore(CountsOf(touched, urls), cfg.weights[key][..|urls|], |urls|)
         case None => (st.(connections := touched), None)
         case Some(i) => (st.(connections := Counted(touched, urls[i])), Some(Chosen(urls[i]))))
  }

  /** A whole call, for one order of iteration over the paths. */
  function Called(cfg: Config, st: State, path: string, order: seq<string>): (State, Choice)
    decreases |order|
  {
    if order == [] then (st, NoTarget)
    else if order[0] in cfg.targets && order[0] <= path then
      var (next, choice) := KeyCall(cfg, st, order[0]);
      if choice.Some? then (next, choice.value) else Called(cfg, next, path, order[1..])
    else Called(cfg, st, path, order[1..])
  }

  lemma {:induction false} OwnerStays(ws: seq<nat>, slot: nat, n: nat, m: nat)
    requires n <= m <= |ws| && Owner(ws, slot, n).Some?
    ensures Owner(ws, slot, m) == Owner(ws, slot, n)
    decreases m
  {
    if n < m {
      OwnerStays(ws, slot, n, m - 1);
    }
  }

  class LoadBalancer {
    const targets: map<string, seq<string>>
    const algorithm: Algorithm
    const weights: map<string, seq<nat>>
    const weightsSum: map<string, nat>
    var counters: map<string, nat>
    var connections: map<string, nat>

    ghost function Cfg(): Config {
      Config(targets, algorithm, weights)
    }

    ghost function View(): State
      reads this
    {
      State(counters, connections)
    }

    ghost predicate Valid() {
      weightsSum == map k | k in weights :: Sum(weights[k])
    }

    constructor (targets: map<string, seq<string>>, algorithm: Algorithm, weights: Option<map<string, seq<nat>>>)
      ensures Valid() && View() == State(map[], map[])
      ensures this.targets == targets && this.algorithm == algorithm
      ensures this.weights == if weights.Some? then weights.value else map k | k in targets :: Ones(|targets[k]|)
    {
      var ws := if weights.Some? then weights.value else map k | k in targets :: Ones(|targets[k]|);
      this.targets, this.algorithm, this.weights := targets, algorithm, ws;
      weightsSum := map k | k in ws :: Sum(ws[k]);
      counters, connections := map[], map[];
    }

    /** A target for a path; `order` is the order in which the table of targets is iterated. */
    method GetTarget(path: string, order: seq<string>) returns (choice: Choice)
      requires Valid() && Visits(order, targets.Keys)
      modifies this
      ensures (View(), choice) == Called(Cfg(), old(View()), path, order)
    {
      VisitsMembers(order, targets.Keys);
      for i := 0 to |order|
        invariant Called(Cfg(), old(View()), path, order) == Called(Cfg(), View(), path, order[i..])
      {
        assert order[i..][0] == order[i] && order[i..][1..] == order[i + 1..];
        if order[i] <= path {
          var answer := Turn(order[i]);
          if answer.Some? {
            return answer.value;
          }
        }
      }
      choice := NoTarget;
    }

    method Turn(key: string) returns (answer: Option<Choice>)
      requires Valid() && key in targets
      modifies this
      ensures (View(), answer) == KeyCall(Cfg(), old(View()), key)
    {
      match algorithm {
        case RoundRobin => answer := RoundRobinTurn(key);
        case LeastConnections => answer := LeastTurn(key);
        case WeightedRoundRobin => answer := WeightedTurn(key);
        case WeightedLeastConnections => answer := WeightedLeastTurn(key);
      }
    }

    method RoundRobinTurn(key: string) returns (answer: Option<Choice>)
      requires key in targets && algorithm == RoundRobin
      modifies this
      ensures (View(), answer) == KeyCall(Cfg(), old(View()), key)
    {
      var counter := CountOf(counters, key);
      counters := counters[key := counter];
      if targets[key] == [] {
        return Some(Panicked);
      }
      answer := Some(Chosen(targets[key][counter % |targets[key]|]));
      counters := counters[key := (counter + 1) % |targets[key]|];
      assert counters == old(counters)[key := (counter + 1) % |targets[key]|];
    }

    method WeightedTurn(key: string) returns (answer: Option<Choice>)
      requires Valid() && key in targets && algorithm == WeightedRoundRobin
      modifies this
      ensures (View(), answer) == KeyCall(Cfg(), old(View()), key)
    {
      var counter := CountOf(counters, key);
      counters := counters[key := counter];
      if key !in weights {
        return Some(NoTarget);
      }
      var ws, sum := weights[key], weightsSum[key];
      var cumulative := 0;
      for i := 0 to |ws|
        invariant cumulative == Prefix(ws, i) && Owner(ws, counter, i) == None
        invariant counters == old(counters)[key := counter] && connections == old(connections)
      {
        cumulative := cumulative + ws[i];
        if counter < cumulative {
          OwnerStays(ws, counter, i + 1, |ws|);
          PrefixMono(ws, i + 1, |ws|);
          counters := counters[key := (counter + 1) % sum];
          assert counters == old(counters)[key := (counter + 1) % sum];
          return Some(if i < |targets[key]| then Chosen(targets[key][i]) else Panicked);
        }
      }
      answer := None;
    }

    /** Inserts a zero count for each URL that has none. */
    method Touch(urls: seq<string>)
      modifies this`connections
      ensures connections == Touched(old(connections), urls)
    {
      for i := 0 to |urls|
        invariant connections == Touched(old(connections), urls[..i])
      {
        if urls[i] !in connections {
          connections := connections[urls[i] := 0];
        }
      }
      assert urls[..|urls|] == urls;
    }

    method LeastTurn(key: string) returns (answer: Option<Choice>)
      requires key in targets && algorithm == LeastConnections
      modifies this
      ensures (View(), answer) == KeyCall(Cfg(), old(View()), key)
    {
      var urls := targets[key];
      Touch(urls);
      var minTarget: Option<nat> := None;
      var minCount := 0;
      for i := 0 to |urls|
        invariant minTarget == Fewest(CountsOf(connections, urls), i)
        invariant minTarget.Some? ==> minCount == CountOf(connections, urls[minTarget.value])
      {
        var count := CountOf(connections, urls[i]);
        if minTarget.None? || count < minCount {
          minTarget, minCount := Some(i), count;
        }
      }
      if minTarget.None? {
        return None;
      }
      connections := Counted(connections, urls[minTarget.value]);
      answer := Some(Chosen(urls[minTarget.value]));
    }

    method WeightedLeastTurn(key: string) returns (answer: Option<Choice>)
      requires key in targets && algorithm == WeightedLeastConnections
      modifies this
      ensures (View(), answer) == KeyCall(Cfg(), old(View()), key)
    {
      if key !in weights {
        return Some(NoTarget);
      }
      var urls := targets[key];
      if |weights[key]| < |urls| {
        Touch(urls[..|weights[key]| + 1]);
        return Some(Panicked);
      }
      Touch(urls);
      var ws := weights[key][..|urls|];
      var minTarget: Option<nat> := None;
      var minCount, minWeight := 0, 0;
      for i := 0 to |urls|
        invariant minTarget == LowestScore(CountsOf(connections, urls), ws, i)
        invariant minTarget.Some? ==> minCount == CountOf(connections, urls[minTarget.value])
        invariant minTarget.Some? ==> minWeight == ws[minTarget.value]
      {
        var count := CountOf(connections, urls[i]);
        if ws[i] > 0 && (minTarget.None? || count * minWeight < minCount * ws[i]) {
          minTarget, minCount, minWeight := Some(i), count, ws[i];
        }
      }
      if minTarget.None? {
        return None;
      }
      connections := Counted(connections, urls[minTarget.value]);
      answer := Some(Chosen(urls[minTarget.value]));
    }
  }
}
