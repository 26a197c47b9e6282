/** What a call of get_target can answer for a path, panics included, told from the configuration alone: every answer
    that the configuration allows can be had from every state that calls lead to, and no other. */
module BalancerAnswers {
  import opened BalancerFairness
  import opened BalancerRuns
  import opened LoadBalancers
  import opened Numerics
  import opened Options
  import opened Selection

  // ------------------------------------------------------------------------------------------------
  // The turn of one path

  /** The loop over the paths goes on after this one: there is nobody to choose. */
  ghost predicate FallsThrough(cfg: Config, key: string)
    requires key in cfg.targets
  {
    match cfg.algorithm
    case RoundRobin => false
    case LeastConnections => cfg.targets[key] == []
    case WeightedRoundRobin => key in cfg.weights && Sum(cfg.weights[key]) == 0
    case WeightedLeastConnections =>
      && key in cfg.weights && |cfg.weights[key]| >= |cfg.targets[key]|
      && forall i :: 0 <= i < |cfg.targets[key]| ==> cfg.weights[key][i] == 0
  }

  /** The turn of the path can panic: on an empty list, on a weight without a target, on a target without a weight. */
  ghost predicate Faulty(cfg: Config, key: string)
    requires key in cfg.targets
  {
    var urls := cfg.targets[key];
    match cfg.algorithm
    case RoundRobin => urls == []
    case LeastConnections => false
    case WeightedRoundRobin =>
      key in cfg.weights && exists i :: |urls| <= i < |cfg.weights[key]| && cfg.weights[key][i] > 0
    case WeightedLeastConnections => key in cfg.weights && |cfg.weights[key]| < |urls|
  }

  /** The turn of the path takes target i. */
  predicate Takes(cfg: Config, key: string, i: nat)
    requires key in cfg.targets
  {
    && i < |cfg.targets[key]|
    && match cfg.algorithm
       case RoundRobin => true
       case LeastConnections => true
       case WeightedRoundRobin => key in cfg.weights && i < |cfg.weights[key]| && cfg.weights[key][i] > 0
       case WeightedLeastConnections =>
         key in cfg.weights && |cfg.targets[key]| <= |cfg.weights[key]| && cfg.weights[key][i] > 0
  }

  predicate Unweighted(cfg: Config, key: string) {
    Weighted(cfg) && key !in cfg.weights
  }

  /** What the turn of a path can answer. */
  ghost predicate KeyAnswers(cfg: Config, key: string, c: Choice)
    requires key in cfg.targets
  {
    match c
    case NoTarget => Unweighted(cfg, key)
    case Panicked => Faulty(cfg, key)
    case Chosen(url) => exists i :: 0 <= i < |cfg.targets[key]| && Takes(cfg, key, i) && cfg.targets[key][i] == url
  }

  /** The counter of a path stays below the length of its cycle. */
  predicate CounterSound(cfg: Config, st: State, key: string)
    requires key in cfg.targets
  {
    var counter := CountOf(st.counters, key);
    match cfg.algorithm
    case RoundRobin => cfg.targets[key] != [] ==> counter < |cfg.targets[key]|
    case WeightedRoundRobin => key in cfg.weights && Sum(cfg.weights[key]) > 0 ==> counter < Sum(cfg.weights[key])
    case _ => true
  }

  ghost predicate Sound(cfg: Config, st: State) {
    forall key :: key in cfg.targets ==> CounterSound(cfg, st, key)
  }

  lemma {:induction false} OwnerFound(ws: seq<nat>, slot: nat)
    requires slot < Sum(ws)
    ensures Owner(ws, slot, |ws|).Some?
  {
  }

  lemma KeyCallAnswers(cfg: Config, st: State, key: string)
    requires key in cfg.targets && CounterSound(cfg, st, key)
    ensures
      var answer := KeyCall(cfg, st, key).1;
      && (answer.None? <==> FallsThrough(cfg, key))
      && (answer.Some? ==> KeyAnswers(cfg, key, answer.value))
  {
    match cfg.algorithm {
      case RoundRobin =>
      case LeastConnections => LeastAnswers(cfg, st, key);
      case WeightedRoundRobin => WeightedAnswers(cfg, st, key);
      case WeightedLeastConnections => WeightedLeastAnswers(cfg, st, key);
    }
  }

  lemma LeastAnswers(cfg: Config, st: State, key: string)
    requires key in cfg.targets && cfg.algorithm == LeastConnections
    ensures
      var answer := KeyCall(cfg, st, key).1;
      && (answer.None? <==> FallsThrough(cfg, key))
      && (answer.Some? ==> KeyAnswers(cfg, key, answer.value))
  {
    var urls := cfg.targets[key];
    var pick := Fewest(CountsOf(Touched(st.connections, urls), urls), |urls|);
    if pick.Some? {
      assert Takes(cfg, key, pick.value);
    }
  }

  lemma WeightedAnswers(cfg: Config, st: State, key: string)
    requires key in cfg.targets && cfg.algorithm == WeightedRoundRobin && CounterSound(cfg, st, key)
    ensures
      var answer := KeyCall(cfg, st, key).1;
      && (answer.None? <==> FallsThrough(cfg, key))
      && (answer.Some? ==> KeyAnswers(cfg, key, answer.value))
  {
    if key in cfg.weights {
      var ws, slot := cfg.weights[key], CountOf(st.counters, key);
      if Sum(ws) > 0 {
        OwnerFound(ws, slot);
        var i := Owner(ws, slot, |ws|).value;
        assert ws[i] > 0;
        if i < |cfg.targets[key]| {
          assert Takes(cfg, key, i);
        }
      } else {
        NoOwner(ws, slot);
      }
    }
  }

  lemma NoOwner(ws: seq<nat>, slot: nat)
    requires Sum(ws) == 0
    ensures Owner(ws, slot, |ws|).None?
  {
    var owner := Owner(ws, slot, |ws|);
    if owner.Some? {
      PrefixMono(ws, owner.value + 1, |ws|);
    }
  }

  lemma WeightedLeastAnswers(cfg: Config, st: State, key: string)
    requires key in cfg.targets && cfg.algorithm == WeightedLeastConnections
    ensures
      var answer := KeyCall(cfg, st, key).1;
      && (answer.None? <==> FallsThrough(cfg, key))
      && (answer.Some? ==> KeyAnswers(cfg, key, answer.value))
  {
    var urls := cfg.targets[key];
    if key in cfg.weights && |cfg.weights[key]| >= |urls| {
      var ws, counts := cfg.weights[key][..|urls|], CountsOf(Touched(st.connections, urls), urls);
      LowestScoreIsFirstLowest(counts, ws, |urls|);
      var pick := LowestScore(counts, ws, |urls|);
      if pick.Some? {
        assert Takes(cfg, key, pick.value);
      } else {
        assert forall i :: 0 <= i < |urls| ==> cfg.weights[key][i] == ws[i] == 0;
      }
    }
  }

  lemma KeyCallSound(cfg: Config, st: State, key: string)
    requires key in cfg.targets && Sound(cfg, st)
    ensures Sound(cfg, KeyCall(cfg, st, key).0)
  {
    var next := KeyCall(cfg, st, key).0;
    forall k | k in cfg.targets
      ensures CounterSound(cfg, next, k)
    {
      assert CounterSound(cfg, st, k);
      if k != key {
        assert CountOf(next.counters, k) == CountOf(st.counters, k);
      }
    }
  }

  // ------------------------------------------------------------------------------------------------
  // The loop over the paths

  /** Tables that read the same, whichever zeros they spell out. */
  ghost predicate Same(a: State, b: State) {
    SameCounts(a.counters, b.counters) && SameCounts(a.connections, b.connections)
  }

  ghost predicate SameCounts(a: map<string, nat>, b: map<string, nat>) {
    forall k :: CountOf(a, k) == CountOf(b, k)
  }

  lemma SameTouched(a: map<string, nat>, b: map<string, nat>, urls: seq<string>, more: seq<string>)
    requires SameCounts(a, b)
    ensures SameCounts(Touched(a, more), Touched(b, more)) && SameCounts(Touched(a, more), b)
    ensures CountsOf(Touched(a, more), urls) == CountsOf(Touched(b, more), urls) == CountsOf(b, urls)
  {
    assert forall k :: CountOf(Touched(a, more), k) == CountOf(a, k);
    assert forall k :: CountOf(Touched(b, more), k) == CountOf(b, k);
  }

  lemma SameSet(a: map<string, nat>, b: map<string, nat>, key: string, n: nat)
    requires SameCounts(a, b)
    ensures SameCounts(a[key := n], b[key := n])
  {
    var x, y := a[key := n], b[key := n];
    assert forall k :: CountOf(x, k) == if k == key then n else CountOf(a, k);
    assert forall k :: CountOf(y, k) == if k == key then n else CountOf(b, k);
  }

  lemma SameKeyCall(cfg: Config, a: State, b: State, key: string)
    requires key in cfg.targets && Same(a, b)
    ensures KeyCall(cfg, a, key).1 == KeyCall(cfg, b, key).1
    ensures Same(KeyCall(cfg, a, key).0, KeyCall(cfg, b, key).0)
  {
    match cfg.algorithm {
      case RoundRobin => SameCyclicCall(cfg, a, b, key);
      case WeightedRoundRobin => SameCyclicCall(cfg, a, b, key);
      case LeastConnections => SameScoreCall(cfg, a, b, key);
      case WeightedLeastConnections => SameScoreCall(cfg, a, b, key);
    }
  }

  lemma SameCyclicCall(cfg: Config, a: State, b: State, key: string)
    requires key in cfg.targets && Same(a, b)
    requires cfg.algorithm == RoundRobin || cfg.algorithm == WeightedRoundRobin
    ensures KeyCall(cfg, a, key).1 == KeyCall(cfg, b, key).1
    ensures Same(KeyCall(cfg, a, key).0, KeyCall(cfg, b, key).0)
  {
    assert CountOf(a.counters, key) == CountOf(b.counters, key);
    SameSet(a.counters, b.counters, key, CountOf(KeyCall(cfg, a, key).0.counters, key));
  }

  lemma SameScoreCall(cfg: Config, a: State, b: State, key: string)
    requires key in cfg.targets && Same(a, b)
    requires cfg.algorithm == LeastConnections || cfg.algorithm == WeightedLeastConnections
    ensures KeyCall(cfg, a, key).1 == KeyCall(cfg, b, key).1
    ensures Same(KeyCall(cfg, a, key).0, KeyCall(cfg, b, key).0)
  {
    var urls := cfg.targets[key];
    SameTouched(a.connections, b.connections, urls, urls);
    if cfg.algorithm == WeightedLeastConnections && key in cfg.weights && |cfg.weights[key]| < |urls| {
      SameTouched(a.connections, b.connections, urls, urls[..|cfg.weights[key]| + 1]);
    } else if KeyCall(cfg, a, key).1.Some? && KeyCall(cfg, a, key).1.value.Chosen? {
      var url := KeyCall(cfg, a, key).1.value.url;
      var touched, touchedB := Touched(a.connections, urls), Touched(b.connections, urls);
      assert CountOf(touched, url) == CountOf(touchedB, url);
      SameSet(touched, touchedB, url, CountOf(touched, url) + 1);
    }
  }

  /** A path with nobody to choose leaves the tables reading the same. */
  lemma FallingThroughIsSilent(cfg: Config, st: State, key: string)
    requires key in cfg.targets && FallsThrough(cfg, key) && CounterSound(cfg, st, key)
    ensures KeyCall(cfg, st, key).1.None? && Same(KeyCall(cfg, st, key).0, st)
  {
    KeyCallAnswers(cfg, st, key);
    SameTouched(st.connections, st.connections, cfg.targets[key], cfg.targets[key]);
  }

  /** The path that answers a call: the first one above the requested path that does not fall through. */
  ghost function Decisive(cfg: Config, path: string, order: seq<string>): (key: Option<string>)
    ensures key.Some? ==> key.value in cfg.targets && key.value <= path && !FallsThrough(cfg, key.value)
    decreases |order|
  {
    if order == [] then None
    else if order[0] in cfg.targets && order[0] <= path && !FallsThrough(cfg, order[0]) then Some(order[0])
    else Decisive(cfg, path, order[1..])
  }

  /** A call is the turn of the decisive path. */
  ghost predicate TurnOf(cfg: Config, st: State, path: string, order: seq<string>) {
    var (next, choice) := Called(cfg, st, path, order);
    match Decisive(cfg, path, order)
    case None => choice == NoTarget && Same(next, st)
    case Some(key) =>
      KeyCall(cfg, st, key).1 == Some(choice) && Same(next, KeyCall(cfg, st, key).0)
  }

  lemma {:induction false} CallIsTurn(cfg: Config, st: State, path: string, order: seq<string>)
    requires Sound(cfg, st)
    ensures TurnOf(cfg, st, path, order) && Sound(cfg, Called(cfg, st, path, order).0)
    decreases |order|
  {
    if order != [] {
      var key := order[0];
      if key in cfg.targets && key <= path {
        KeyCallAnswers(cfg, st, key);
        KeyCallSound(cfg, st, key);
        if FallsThrough(cfg, key) {
          FallingThroughIsSilent(cfg, st, key);
          CallIsTurn(cfg, KeyCall(cfg, st, key).0, path, order[1..]);
          var rest := Decisive(cfg, path, order[1..]);
          if rest.Some? {
            SameKeyCall(cfg, KeyCall(cfg, st, key).0, st, rest.value);
          }
        }
      } else {
        CallIsTurn(cfg, st, path, order[1..]);
      }
    }
  }

  /** What a call for a path can answer under an iteration order. */
  ghost predicate CanAnswer(cfg: Config, path: string, order: seq<string>, c: Choice) {
    match Decisive(cfg, path, order)
    case None => c == NoTarget
    case Some(key) => KeyAnswers(cfg, key, c)
  }

  lemma CallAnswers(cfg: Config, st: State, path: string, order: seq<string>)
    requires Sound(cfg, st)
    ensures CanAnswer(cfg, path, order, Called(cfg, st, path, order).1)
  {
    CallIsTurn(cfg, st, path, order);
    var key := Decisive(cfg, path, order);
    if key.Some? {
      KeyCallAnswers(cfg, st, key.value);
    }
  }

  // ------------------------------------------------------------------------------------------------
  // Every answer comes up again

  /** The tables after the path `key` has had n turns. */
  function Turned(cfg: Config, st: State, key: string, n: nat): State
    requires key in cfg.targets
    decreases n
  {
    if n == 0 then st else Turned(cfg, KeyCall(cfg, st, key).0, key, n - 1)
  }

  /** The length of the cycle of a path's counter. */
  function Cycle(cfg: Config, key: string): nat
    requires key in cfg.targets
  {
    if cfg.algorithm == WeightedRoundRobin then (if key in cfg.weights then Sum(cfg.weights[key]) else 0)
    else |cfg.targets[key]|
  }

  lemma CounterSteps(cfg: Config, st: State, key: string)
    requires key in cfg.targets && CounterSound(cfg, st, key) && Cycle(cfg, key) > 0
    requires cfg.algorithm == RoundRobin || cfg.algorithm == WeightedRoundRobin
    ensures
      var counter, n := CountOf(st.counters, key), Cycle(cfg, key);
      && counter < n && CounterSound(cfg, KeyCall(cfg, st, key).0, key)
      && CountOf(KeyCall(cfg, st, key).0.counters, key) == if counter + 1 == n then 0 else counter + 1
  {
    var counter := CountOf(st.counters, key);
    if cfg.algorithm == WeightedRoundRobin {
      OwnerFound(cfg.weights[key], counter);
    }
    NextSlot(counter, Cycle(cfg, key));
  }

  lemma NextSlot(x: nat, n: nat)
    requires x < n
    ensures (x + 1) % n == if x + 1 == n then 0 else x + 1
  {
    if x + 1 < n {
      DivUnique(0, n, x + 1);
    } else {
      DivUnique(1, n, x + 1);
    }
  }

  lemma {:induction false} SlotRecurs(cfg: Config, st: State, key: string, slot: nat) returns (n: nat)
    requires key in cfg.targets && CounterSound(cfg, st, key) && slot < Cycle(cfg, key)
    requires cfg.algorithm == RoundRobin || cfg.algorithm == WeightedRoundRobin
    ensures CountOf(Turned(cfg, st, key, n).counters, key) == slot
    decreases
      var counter := CountOf(st.counters, key);
      if counter <= slot then slot - counter else Cycle(cfg, key) - counter + slot
  {
    CounterSteps(cfg, st, key);
    if CountOf(st.counters, key) == slot {
      n := 0;
    } else {
      n := SlotRecurs(cfg, KeyCall(cfg, st, key).0, key, slot);
      n := n + 1;
    }
  }

  /** How far the score of target i is from being lower than that of target j. */
  function Lead(ci: nat, wi: nat, cj: nat, wj: nat): nat {
    if ci * wj >= cj * wi then ci * wj - cj * wi + 1 else 0
  }

  function Leads(counts: seq<nat>, ws: seq<nat>, i: nat, n: nat): nat
    requires i < |counts| == |ws| && n <= |ws|
  {
    if n == 0 then 0 else Leads(counts, ws, i, n - 1) + Lead(counts[i], ws[i], counts[n - 1], ws[n - 1])
  }

  lemma LeadShrinks(ci: nat, wi: nat, cj: nat, dj: nat, wj: nat)
    requires cj <= dj
    ensures Lead(ci, wi, dj, wj) <= Lead(ci, wi, cj, wj)
    ensures cj < dj && wi > 0 && ci * wj >= cj * wi ==> Lead(ci, wi, dj, wj) < Lead(ci, wi, cj, wj)
  {
    MulMono(cj, dj, wi);
    if cj < dj {
      MulMono(cj + 1, dj, wi);
    }
  }

  lemma {:induction false} LeadsShrink(counts: seq<nat>, next: seq<nat>, ws: seq<nat>, i: nat, j: nat, n: nat)
    requires i < |counts| == |next| == |ws| && j < |ws| && n <= |ws| && ws[i] > 0
    requires forall x :: 0 <= x < |counts| ==> counts[x] <= next[x]
    requires counts[i] == next[i] && counts[j] < next[j] && !Lower(counts, ws, i, j)
    ensures Leads(next, ws, i, n) <= Leads(counts, ws, i, n)
    ensures j < n ==> Leads(next, ws, i, n) < Leads(counts, ws, i, n)
    decreases n
  {
    if n > 0 {
      LeadsShrink(counts, next, ws, i, j, n - 1);
      LeadShrinks(counts[i], ws[i], counts[n - 1], next[n - 1], ws[n - 1]);
    }
  }

  /** The weights by which a path compares its targets. */
  function ScoreWeights(cfg: Config, key: string): (ws: seq<nat>)
    requires key in cfg.targets && ByScore(cfg, key)
    ensures |ws| == |cfg.targets[key]|
  {
    if cfg.algorithm == LeastConnections then Ones(|cfg.targets[key]|) else cfg.weights[key][..|cfg.targets[key]|]
  }

  predicate ByScore(cfg: Config, key: string)
    requires key in cfg.targets
  {
    || cfg.algorithm == LeastConnections
    || (cfg.algorithm == WeightedLeastConnections && key in cfg.weights && |cfg.targets[key]| <= |cfg.weights[key]|)
  }

  /** What a turn by scores does: it takes a first lowest target and counts it. */
  lemma ScoreTurn(cfg: Config, st: State, key: string, i: nat) returns (j: nat)
    requires key in cfg.targets && ByScore(cfg, key) && Takes(cfg, key, i)
    ensures
      var urls, ws, counts := cfg.targets[key], ScoreWeights(cfg, key), CountsOf(st.connections, cfg.targets[key]);
      var (next, answer) := KeyCall(cfg, st, key);
      && j < |urls| && answer == Some(Chosen(urls[j])) && ws[i] > 0 && !Lower(counts, ws, i, j)
      && forall x :: 0 <= x < |urls| ==>
            CountsOf(next.connections, urls)[x] == counts[x] + if urls[x] == urls[j] then 1 else 0
  {
    var urls, ws := cfg.targets[key], ScoreWeights(cfg, key);
    var counts := CountsOf(st.connections, urls);
    TouchedCounts(st.connections, urls, urls);
    if cfg.algorithm == LeastConnections {
      LowestScoreOfOnes(counts, |urls|);
    }
    LowestScoreIsFirstLowest(counts, ws, |urls|);
    j := LowestScore(counts, ws, |urls|).value;
  }

  lemma {:induction false} TargetRecurs(cfg: Config, st: State, key: string, i: nat) returns (n: nat)
    requires key in cfg.targets && ByScore(cfg, key) && Takes(cfg, key, i)
    ensures KeyCall(cfg, Turned(cfg, st, key, n), key).1 == Some(Chosen(cfg.targets[key][i]))
    decreases LeadsOver(cfg, st, key, i)
  {
    var taken := TakenOrCloser(cfg, st, key, i);
    if taken {
      n := 0;
    } else {
      n := TargetRecurs(cfg, KeyCall(cfg, st, key).0, key, i);
      n := n + 1;
    }
  }

  function LeadsOver(cfg: Config, st: State, key: string, i: nat): nat
    requires key in cfg.targets && ByScore(cfg, key) && Takes(cfg, key, i)
  {
    Leads(CountsOf(st.connections, cfg.targets[key]), ScoreWeights(cfg, key), i, |cfg.targets[key]|)
  }

  lemma TakenOrCloser(cfg: Config, st: State, key: string, i: nat) returns (taken: bool)
    requires key in cfg.targets && ByScore(cfg, key) && Takes(cfg, key, i)
    ensures taken ==> KeyCall(cfg, st, key).1 == Some(Chosen(cfg.targets[key][i]))
    ensures !taken ==> LeadsOver(cfg, KeyCall(cfg, st, key).0, key, i) < LeadsOver(cfg, st, key, i)
  {
    var urls, ws := cfg.targets[key], ScoreWeights(cfg, key);
    var j := ScoreTurn(cfg, st, key, i);
    taken := urls[j] == urls[i];
    if !taken {
      var next := KeyCall(cfg, st, key).0;
      LeadsShrink(CountsOf(st.connections, urls), CountsOf(next.connections, urls), ws, i, j, |urls|);
    }
  }

  lemma SlotOf(ws: seq<nat>, i: nat)
    requires i < |ws| && ws[i] > 0
    ensures Prefix(ws, i) < Sum(ws) && Owner(ws, Prefix(ws, i), |ws|) == Some(i)
  {
    PrefixMono(ws, i + 1, |ws|);
    OwnerFound(ws, Prefix(ws, i));
    OwnerUnique(ws, i, Owner(ws, Prefix(ws, i), |ws|).value, Prefix(ws, i));
  }

  /** From every sound state, every answer of a path comes up after some of its turns. */
  lemma AnswerRecurs(cfg: Config, st: State, key: string, c: Choice) returns (n: nat)
    requires key in cfg.targets && !FallsThrough(cfg, key) && KeyAnswers(cfg, key, c) && CounterSound(cfg, st, key)
    ensures KeyCall(cfg, Turned(cfg, st, key, n), key).1 == Some(c)
  {
    n := 0;
    match cfg.algorithm {
      case RoundRobin =>
        if c.Chosen? {
          n := RoundRobinRecurs(cfg, st, key, c.url);
        }
      case WeightedRoundRobin =>
        if key in cfg.weights {
          n := WeightedRecurs(cfg, st, key, c);
        }
      case _ =>
        if c.Chosen? {
          var i :| 0 <= i < |cfg.targets[key]| && Takes(cfg, key, i) && cfg.targets[key][i] == c.url;
          n := TargetRecurs(cfg, st, key, i);
        }
    }
  }

  lemma RoundRobinRecurs(cfg: Config, st: State, key: string, url: string) returns (n: nat)
    requires key in cfg.targets && CounterSound(cfg, st, key) && cfg.algorithm == RoundRobin && url in cfg.targets[key]
    ensures KeyCall(cfg, Turned(cfg, st, key, n), key).1 == Some(Chosen(url))
  {
    var i :| 0 <= i < |cfg.targets[key]| && cfg.targets[key][i] == url;
    n := SlotRecurs(cfg, st, key, i);
    DivUnique(0, |cfg.targets[key]|, i);
  }

  lemma WeightedRecurs(cfg: Config, st: State, key: string, c: Choice) returns (n: nat)
    requires key in cfg.targets && KeyAnswers(cfg, key, c) && CounterSound(cfg, st, key)
    requires cfg.algorithm == WeightedRoundRobin && key in cfg.weights
    ensures KeyCall(cfg, Turned(cfg, st, key, n), key).1 == Some(c)
  {
    var urls, ws := cfg.targets[key], cfg.weights[key];
    var i: nat;
    if c.Chosen? {
      i :| 0 <= i < |urls| && Takes(cfg, key, i) && urls[i] == c.url;
    } else {
      i :| |urls| <= i < |ws| && ws[i] > 0;
    }
    SlotOf(ws, i);
    n := SlotRecurs(cfg, st, key, Prefix(ws, i));
  }

  // ------------------------------------------------------------------------------------------------
  // Calls for one path

  /** The tables after n calls for a path. */
  function AskedAgain(cfg: Config, st: State, path: string, order: seq<string>, n: nat): State
    decreases n
  {
    if n == 0 then st else AskedAgain(cfg, Called(cfg, st, path, order).0, path, order, n - 1)
  }

  lemma {:induction false} SameTurned(cfg: Config, a: State, b: State, key: string, n: nat)
    requires key in cfg.targets && Same(a, b)
    ensures Same(Turned(cfg, a, key, n), Turned(cfg, b, key, n))
    decreases n
  {
    if n > 0 {
      SameKeyCall(cfg, a, b, key);
      SameTurned(cfg, KeyCall(cfg, a, key).0, KeyCall(cfg, b, key).0, key, n - 1);
    }
  }

  lemma {:induction false} AskingIsTurning(cfg: Config, st: State, path: string, order: seq<string>, n: nat)
    requires Sound(cfg, st) && Decisive(cfg, path, order).Some?
    ensures Sound(cfg, AskedAgain(cfg, st, path, order, n))
    ensures Same(AskedAgain(cfg, st, path, order, n), Turned(cfg, st, Decisive(cfg, path, order).value, n))
    decreases n
  {
    if n > 0 {
      var key, next := Decisive(cfg, path, order).value, Called(cfg, st, path, order).0;
      CallIsTurn(cfg, st, path, order);
      AskingIsTurning(cfg, next, path, order, n - 1);
      SameTurned(cfg, next, KeyCall(cfg, st, key).0, key, n - 1);
    }
  }

  /** From every sound state, every answer that the configuration allows for a path comes up after some calls for it. */
  lemma AnswersRecur(cfg: Config, st: State, path: string, order: seq<string>, c: Choice) returns (n: nat)
    requires Sound(cfg, st) && CanAnswer(cfg, path, order, c)
    ensures Called(cfg, AskedAgain(cfg, st, path, order, n), path, order).1 == c
  {
    n := 0;
    CallIsTurn(cfg, st, path, order);
    var key := Decisive(cfg, path, order);
    if key.Some? {
      n := AnswerRecurs(cfg, st, key.value, c);
      AskingIsTurning(cfg, st, path, order, n);
      CallIsTurn(cfg, AskedAgain(cfg, st, path, order, n), path, order);
      SameKeyCall(cfg, AskedAgain(cfg, st, path, order, n), Turned(cfg, st, key.value, n), key.value);
    }
  }

  // ------------------------------------------------------------------------------------------------
  // Exactly what calls can answer

  lemma {:induction false} RunsSound(cfg: Config, calls: seq<Call>)
    ensures Sound(cfg, RunCalls(cfg, calls))
    decreases |calls|
  {
    if calls != [] {
      var before, last := calls[..|calls| - 1], calls[|calls| - 1];
      RunsSound(cfg, before);
      CallIsTurn(cfg, RunCalls(cfg, before), last.path, last.order);
    }
  }

  lemma {:induction false} AskedAgainRuns(cfg: Config, calls: seq<Call>, path: string, order: seq<string>, n: nat)
    returns (more: seq<Call>)
    ensures RunCalls(cfg, more) == AskedAgain(cfg, RunCalls(cfg, calls), path, order, n)
    decreases n
  {
    if n == 0 {
      more := calls;
    } else {
      var next := calls + [Call(path, order)];
      assert next[..|next| - 1] == calls;
      more := AskedAgainRuns(cfg, next, path, order, n - 1);
    }
  }

  /** After some calls, whatever their paths and iteration orders, a call for a path can answer exactly what the
      configuration allows. */
  lemma AnswersExact(cfg: Config, path: string, order: seq<string>, c: Choice)
    ensures (exists calls :: Called(cfg, RunCalls(cfg, calls), path, order).1 == c) <==> CanAnswer(cfg, path, order, c)
  {
    forall calls: seq<Call>
      ensures CanAnswer(cfg, path, order, Called(cfg, RunCalls(cfg, calls), path, order).1)
    {
      RunsSound(cfg, calls);
      CallAnswers(cfg, RunCalls(cfg, calls), path, order);
    }
    if CanAnswer(cfg, path, order, c) {
      RunsSound(cfg, []);
      var n := AnswersRecur(cfg, RunCalls(cfg, []), path, order, c);
      var calls := AskedAgainRuns(cfg, [], path, order, n);
      assert Called(cfg, RunCalls(cfg, calls), path, order).1 == c;
    }
  }

  /** Calls for a path can panic exactly if the first path above it that does not fall through is faulty. */
  lemma PanicsIff(cfg: Config, path: string, order: seq<string>)
    ensures (exists calls :: Called(cfg, RunCalls(cfg, calls), path, order).1 == Panicked) <==>
              Decisive(cfg, path, order).Some? && Faulty(cfg, Decisive(cfg, path, order).value)
  {
    AnswersExact(cfg, path, order, Panicked);
  }

  /** Some answer is always allowed. */
  lemma SomeAnswer(cfg: Config, path: string, order: seq<string>) returns (c: Choice)
    ensures CanAnswer(cfg, path, order, c)
  {
    RunsSound(cfg, []);
    CallAnswers(cfg, RunCalls(cfg, []), path, order);
    c := Called(cfg, RunCalls(cfg, []), path, order).1;
  }
}
