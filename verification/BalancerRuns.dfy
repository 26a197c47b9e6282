/** Runs of get_target over many paths, seen from one path: the calls that fall under it pick as if it were alone. */
module BalancerRuns {
  import opened Options
  import opened Selection
  import opened BalancerFairness
  import opened Routing
  import opened LoadBalancers

  /** The weights that count for a path; the unweighted algorithms have none. */
  function WeightsFor(cfg: Config, key: string): (ws: seq<nat>)
    requires key in cfg.targets
    ensures WellConfigured(cfg, key) ==> |ws| == |cfg.targets[key]|
  {
    if Weighted(cfg) && key in cfg.weights then cfg.weights[key] else Ones(|cfg.targets[key]|)
  }

  predicate Weighted(cfg: Config) {
    cfg.algorithm == WeightedRoundRobin || cfg.algorithm == WeightedLeastConnections
  }

  /** A path with at least one target, distinct URLs and, where weights count, one weight per target and not all
      zero. */
  ghost predicate WellConfigured(cfg: Config, key: string) {
    && key in cfg.targets
    && cfg.targets[key] != []
    && (forall i, j :: 0 <= i < j < |cfg.targets[key]| ==> cfg.targets[key][i] != cfg.targets[key][j])
    && (Weighted(cfg) ==>
          key in cfg.weights && |cfg.weights[key]| == |cfg.targets[key]| && Sum(cfg.weights[key]) > 0)
  }

  /** No path is nested in another and no URL belongs to two paths. */
  ghost predicate Separate(cfg: Config) {
    && PrefixFree(cfg.targets.Keys)
    && forall j, k, u :: j in cfg.targets && k in cfg.targets && u in cfg.targets[j] && u in cfg.targets[k] ==> j == k
  }

  /** What a path sees of the tables. */
  function CellOf(cfg: Config, st: State, key: string): (cell: Cell)
    requires key in cfg.targets
    ensures |cell.counts| == |cfg.targets[key]|
  {
    Cell(CountOf(st.counters, key), CountsOf(st.connections, cfg.targets[key]))
  }

  lemma TouchedCounts(m: map<string, nat>, urls: seq<string>, more: seq<string>)
    ensures CountsOf(Touched(m, more), urls) == CountsOf(m, urls)
  {
    assert forall k :: CountOf(Touched(m, more), k) == CountOf(m, k);
  }

  lemma CountedCounts(m: map<string, nat>, urls: seq<string>, i: nat)
    requires i < |urls| && forall a, b :: 0 <= a < b < |urls| ==> urls[a] != urls[b]
    ensures CountsOf(Counted(m, urls[i]), urls) == CountsOf(m, urls)[i := CountsOf(m, urls)[i] + 1]
  {
  }

  lemma FewestIgnoresWeights(cfg: Config, st: State, key: string)
    requires WellConfigured(cfg, key) && cfg.algorithm == LeastConnections
    ensures KeyCallPicks(cfg, st, key)
  {
    var urls := cfg.targets[key];
    TouchedCounts(st.connections, urls, urls);
    var pick := Fewest(CountsOf(st.connections, urls), |urls|);
    CountedCounts(Touched(st.connections, urls), urls, pick.value);
  }

  lemma LowestPicks(cfg: Config, st: State, key: string)
    requires WellConfigured(cfg, key) && cfg.algorithm == WeightedLeastConnections
    ensures KeyCallPicks(cfg, st, key)
  {
    var urls, ws := cfg.targets[key], cfg.weights[key];
    assert ws[..|urls|] == ws;
    TouchedCounts(st.connections, urls, urls);
    SomePick(ws, CountsOf(st.connections, urls));
    var pick := LowestScore(CountsOf(st.connections, urls), ws, |urls|);
    CountedCounts(Touched(st.connections, urls), urls, pick.value);
  }

  /** The turn of a path is a pick on what it sees. */
  ghost predicate KeyCallPicks(cfg: Config, st: State, key: string)
    requires WellConfigured(cfg, key)
  {
    var (next, answer) := KeyCall(cfg, st, key);
    var ws, cell := WeightsFor(cfg, key), CellOf(cfg, st, key);
    var pick := Pick(cfg.algorithm, ws, cell);
    && CellOf(cfg, next, key) == Advanced(cfg.algorithm, ws, cell)
    && answer == if pick.Some? then Some(Chosen(cfg.targets[key][pick.value])) else None
  }

  lemma KeyCallIsPick(cfg: Config, st: State, key: string)
    requires WellConfigured(cfg, key)
    ensures KeyCallPicks(cfg, st, key)
  {
    match cfg.algorithm {
      case RoundRobin =>
      case WeightedRoundRobin =>
      case LeastConnections => FewestIgnoresWeights(cfg, st, key);
      case WeightedLeastConnections => LowestPicks(cfg, st, key);
    }
  }

  /** The turn of one path, well configured or not, leaves alone what another path sees. */
  lemma KeyCallFrame(cfg: Config, st: State, key: string, other: string)
    requires Separate(cfg) && key in cfg.targets && other in cfg.targets && key != other
    ensures CellOf(cfg, KeyCall(cfg, st, key).0, other) == CellOf(cfg, st, other)
  {
    var urls, others := cfg.targets[key], cfg.targets[other];
    TouchedCounts(st.connections, others, urls);
    match cfg.algorithm {
      case RoundRobin =>
      case WeightedRoundRobin =>
      case LeastConnections =>
        var pick := Fewest(CountsOf(Touched(st.connections, urls), urls), |urls|);
        if pick.Some? {
          CountedFrame(Touched(st.connections, urls), others, urls[pick.value]);
        }
      case WeightedLeastConnections =>
        WeightedLeastFrame(cfg, st, key, other);
    }
  }

  lemma CountedFrame(m: map<string, nat>, urls: seq<string>, url: string)
    requires url !in urls
    ensures CountsOf(Counted(m, url), urls) == CountsOf(m, urls)
  {
  }

  lemma WeightedLeastFrame(cfg: Config, st: State, key: string, other: string)
    requires Separate(cfg) && key in cfg.targets && other in cfg.targets && key != other
    requires cfg.algorithm == WeightedLeastConnections
    ensures CellOf(cfg, KeyCall(cfg, st, key).0, other) == CellOf(cfg, st, other)
  {
    var urls, others := cfg.targets[key], cfg.targets[other];
    if key in cfg.weights {
      var ws := cfg.weights[key];
      if |ws| < |urls| {
        TouchedCounts(st.connections, others, urls[..|ws| + 1]);
      } else {
        TouchedCounts(st.connections, others, urls);
        var pick := LowestScore(CountsOf(Touched(st.connections, urls), urls), ws[..|urls|], |urls|);
        if pick.Some? {
          CountedFrame(Touched(st.connections, urls), others, urls[pick.value]);
        }
      }
    }
  }

  /** With separate paths a call takes the turn of the one path above it, or none. */
  lemma {:induction false} CalledIsTurn(cfg: Config, st: State, path: string, order: seq<string>)
    requires Separate(cfg) && forall k :: k in order ==> k in cfg.targets
    requires NoRepeats(order)
    ensures
      match FirstPrefix(order, path)
      case None => Called(cfg, st, path, order) == (st, NoTarget)
      case Some(k) =>
        && k in cfg.targets
        && var (next, answer) := KeyCall(cfg, st, k);
           Called(cfg, st, path, order) == (next, if answer.Some? then answer.value else NoTarget)
    decreases |order|
  {
    if order != [] {
      assert order[0] in order;
      if order[0] <= path {
        var next := KeyCall(cfg, st, order[0]).0;
        CalledIsTurn(cfg, next, path, order[1..]);
        FirstPrefixFound(order[1..], path);
        if FirstPrefix(order[1..], path).Some? {
          OnePrefix(cfg.targets.Keys, FirstPrefix(order[1..], path).value, order[0], path);
          assert false;
        }
      } else {
        CalledIsTurn(cfg, st, path, order[1..]);
      }
    }
  }

  ghost predicate NoRepeats(order: seq<string>) {
    forall i, j :: 0 <= i < j < |order| ==> order[i] != order[j]
  }

  lemma TwoOccurrences(order: seq<string>, i: nat, j: nat)
    requires i < j < |order| && order[i] == order[j]
    ensures multiset(order)[order[i]] >= 2
  {
    assert order == order[..j] + order[j..];
    assert order[i] in order[..j] && order[i] in order[j..] by {
      assert order[..j][i] == order[i] && order[j..][0] == order[j];
    }
    assert multiset(order) == multiset(order[..j]) + multiset(order[j..]);
  }

  lemma VisitsOnce(order: seq<string>, keys: set<string>)
    requires Visits(order, keys)
    ensures NoRepeats(order)
  {
    forall i, j | 0 <= i < j < |order|
      ensures order[i] != order[j]
    {
      if order[i] == order[j] {
        TwoOccurrences(order, i, j);
        assert false;
      }
    }
  }

  // ------------------------------------------------------------------------------------------------
  // Runs

  /** A call for a path, with the order in which it happens to iterate. */
  datatype Call = Call(path: string, order: seq<string>)

  function RunCalls(cfg: Config, calls: seq<Call>): State {
    if calls == [] then State(map[], map[])
    else
      var last := calls[|calls| - 1];
      Called(cfg, RunCalls(cfg, calls[..|calls| - 1]), last.path, last.order).0
  }

  function CallsUnder(key: string, calls: seq<Call>): nat {
    if calls == [] then 0
    else CallsUnder(key, calls[..|calls| - 1]) + if key <= calls[|calls| - 1].path then 1 else 0
  }

  ghost predicate AllVisit(cfg: Config, calls: seq<Call>) {
    forall i :: 0 <= i < |calls| ==> Visits(calls[i].order, cfg.targets.Keys)
  }

  lemma CallFromPath(cfg: Config, st: State, call: Call, key: string)
    requires Separate(cfg) && WellConfigured(cfg, key) && Visits(call.order, cfg.targets.Keys)
    ensures
      var (next, choice) := Called(cfg, st, call.path, call.order);
      var ws, cell := WeightsFor(cfg, key), CellOf(cfg, st, key);
      var pick := Pick(cfg.algorithm, ws, cell);
      if key <= call.path then
        && CellOf(cfg, next, key) == Advanced(cfg.algorithm, ws, cell)
        && choice == (if pick.Some? then Chosen(cfg.targets[key][pick.value]) else NoTarget)
      else CellOf(cfg, next, key) == cell
  {
    VisitsMembers(call.order, cfg.targets.Keys);
    VisitsOnce(call.order, cfg.targets.Keys);
    CalledIsTurn(cfg, st, call.path, call.order);
    FirstPrefixFound(call.order, call.path);
    var first := FirstPrefix(call.order, call.path);
    if key <= call.path {
      OnePrefix(cfg.targets.Keys, first.value, key, call.path);
      KeyCallIsPick(cfg, st, key);
    } else if first.Some? {
      KeyCallFrame(cfg, st, first.value, key);
    }
  }

  lemma {:induction false} RunSeenFromPath(cfg: Config, calls: seq<Call>, key: string)
    requires Separate(cfg) && WellConfigured(cfg, key) && AllVisit(cfg, calls)
    ensures CellOf(cfg, RunCalls(cfg, calls), key)
            == After(cfg.algorithm, WeightsFor(cfg, key), CallsUnder(key, calls))
    decreases |calls|
  {
    if calls != [] {
      var before := calls[..|calls| - 1];
      RunSeenFromPath(cfg, before, key);
      CallFromPath(cfg, RunCalls(cfg, before), calls[|calls| - 1], key);
    } else {
      assert CountsOf(map[], cfg.targets[key]) == Zeros(|cfg.targets[key]|);
    }
  }

  /** Some target is always picked. */
  lemma PicksSome(alg: Algorithm, ws: seq<nat>, n: nat)
    requires ws != [] && Sum(ws) > 0
    ensures PickAt(alg, ws, n).Some?
  {
    match alg {
      case RoundRobin =>
      case LeastConnections =>
      case WeightedRoundRobin => WeightedCounter(ws, n);
      case WeightedLeastConnections => SomePick(ws, After(alg, ws, n).counts);
    }
  }

  /** In every run of calls, over any paths and in any iteration orders, the call that is number n of those under a path
      gets pick number n of that path alone. All the fairness results on picks are results on these calls. */
  lemma CallGetsPick(cfg: Config, calls: seq<Call>, call: Call, key: string)
    requires Separate(cfg) && WellConfigured(cfg, key) && AllVisit(cfg, calls)
    requires Visits(call.order, cfg.targets.Keys) && key <= call.path
    ensures
      var pick := PickAt(cfg.algorithm, WeightsFor(cfg, key), CallsUnder(key, calls));
      && pick.Some?
      && Called(cfg, RunCalls(cfg, calls), call.path, call.order).1 == Chosen(cfg.targets[key][pick.value])
  {
    RunSeenFromPath(cfg, calls, key);
    CallFromPath(cfg, RunCalls(cfg, calls), call, key);
    PrefixOnes(|cfg.targets[key]|, |cfg.targets[key]|);
    PicksSome(cfg.algorithm, WeightsFor(cfg, key), CallsUnder(key, calls));
  }
}
