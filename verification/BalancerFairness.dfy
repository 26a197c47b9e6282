/** Fairness of the balancing algorithms over every run of picks for one path, from a fresh start. */
module BalancerFairness {
  import opened Options
  import opened Numerics
  import opened Selection

  // ------------------------------------------------------------------------------------------------
  // Weighted round robin

  lemma {:induction false} WeightedCounter(ws: seq<nat>, n: nat)
    requires Sum(ws) > 0
    ensures After(WeightedRoundRobin, ws, n).counter == n % Sum(ws)
    ensures PickAt(WeightedRoundRobin, ws, n) == Owner(ws, n % Sum(ws), |ws|)
    ensures PickAt(WeightedRoundRobin, ws, n).Some?
    decreases n
  {
    var w := Sum(ws);
    if n > 0 {
      WeightedCounter(ws, n - 1);
      NextModulo(n - 1, w);
    }
  }

  lemma NextModulo(n: nat, w: nat)
    requires w > 0
    ensures (n % w + 1) % w == (n + 1) % w
    ensures n % w + 1 < w ==> (n + 1) % w == n % w + 1 && (n + 1) / w == n / w
    ensures n % w + 1 == w ==> (n + 1) % w == 0 && (n + 1) / w == n / w + 1
  {
    if n % w + 1 < w {
      NextInside(n, w);
    } else {
      NextPeriod(n, w);
    }
  }

  lemma NextInside(n: nat, w: nat)
    requires w > 0 && n % w + 1 < w
    ensures (n + 1) % w == n % w + 1 && (n + 1) / w == n / w
    ensures (n % w + 1) % w == n % w + 1
  {
    assert n / w * w + n % w == n;
    DivUnique(n / w, w, n + 1);
    DivUnique(0, w, n % w + 1);
  }

  lemma NextPeriod(n: nat, w: nat)
    requires w > 0 && n % w + 1 == w
    ensures (n + 1) % w == 0 && (n + 1) / w == n / w + 1
    ensures (n % w + 1) % w == 0
  {
    assert n / w * w + n % w == n;
    MulStep(n / w, w);
    DivUnique(n / w + 1, w, n + 1);
    DivUnique(1, w, w);
  }

  lemma AddPeriod(n: nat, w: nat)
    requires w > 0
    ensures (n + w) / w == n / w + 1 && (n + w) % w == n % w
  {
    assert n / w * w + n % w == n;
    MulStep(n / w, w);
    DivUnique(n / w + 1, w, n + w);
  }

  /** The picks of target i among the first `slots` slots of a period. */
  function InPeriod(ws: seq<nat>, i: nat, slots: nat): nat
    requires i < |ws|
  {
    if slots <= Prefix(ws, i) then 0
    else if slots - Prefix(ws, i) < ws[i] then slots - Prefix(ws, i)
    else ws[i]
  }

  lemma SlotStep(ws: seq<nat>, i: nat, slot: nat)
    requires i < |ws| && slot < Sum(ws)
    ensures InPeriod(ws, i, slot + 1) == InPeriod(ws, i, slot) + if Owns(ws, i, slot) then 1 else 0
    ensures InPeriod(ws, i, Sum(ws)) == ws[i]
  {
    PrefixMono(ws, i + 1, |ws|);
  }

  /** Pick n goes to the one target that owns slot n mod W. */
  lemma WeightedPick(ws: seq<nat>, n: nat, i: nat)
    requires Sum(ws) > 0 && i < |ws|
    ensures PickAt(WeightedRoundRobin, ws, n) == Some(i) <==> Owns(ws, i, n % Sum(ws))
  {
    WeightedCounter(ws, n);
    if Owns(ws, i, n % Sum(ws)) {
      OwnerUnique(ws, i, PickAt(WeightedRoundRobin, ws, n).value, n % Sum(ws));
    }
  }

  /** After any number of picks each target has its exact share: its weight for every full period, and in the period
      under way the slots it owns among those used. */
  lemma {:induction false} WeightedShare(ws: seq<nat>, n: nat, i: nat)
    requires Sum(ws) > 0 && i < |ws|
    ensures Picks(WeightedRoundRobin, ws, n, i) == n / Sum(ws) * ws[i] + InPeriod(ws, i, n % Sum(ws))
    decreases n
  {
    var w := Sum(ws);
    if n == 0 {
      DivUnique(0, w, 0);
    } else {
      WeightedShare(ws, n - 1, i);
      WeightedPick(ws, n - 1, i);
      SlotStep(ws, i, (n - 1) % w);
      NextModulo(n - 1, w);
      MulStep((n - 1) / w, ws[i]);
    }
  }

  /** Every window of as many consecutive picks as the weights sum to, wherever it starts, goes to each target
      exactly as often as its weight says. */
  lemma WeightedWindow(ws: seq<nat>, start: nat, i: nat)
    requires Sum(ws) > 0 && i < |ws|
    ensures Picks(WeightedRoundRobin, ws, start + Sum(ws), i) == Picks(WeightedRoundRobin, ws, start, i) + ws[i]
  {
    var w := Sum(ws);
    WeightedShare(ws, start, i);
    WeightedShare(ws, start + w, i);
    AddPeriod(start, w);
    MulStep(start / w, ws[i]);
  }

  // ------------------------------------------------------------------------------------------------
  // The four algorithms coincide on equal weights

  /** The default weights. */
  function Ones(k: nat): (ws: seq<nat>)
    ensures |ws| == k && forall i :: 0 <= i < k ==> ws[i] == 1
  {
    seq(k, _ => 1)
  }

  lemma {:induction false} PrefixOnes(k: nat, i: nat)
    requires i <= k
    ensures Prefix(Ones(k), i) == i
    decreases i
  {
    if i > 0 {
      PrefixOnes(k, i - 1);
    }
  }

  lemma {:induction false} RoundRobinAt(ws: seq<nat>, n: nat)
    requires ws != []
    ensures After(RoundRobin, ws, n).counter == n % |ws|
    ensures PickAt(RoundRobin, ws, n) == Some(n % |ws|)
    decreases n
  {
    if n > 0 {
      RoundRobinAt(ws, n - 1);
      NextModulo(n - 1, |ws|);
    }
    assert n % |ws| % |ws| == n % |ws| by {
      DivUnique(0, |ws|, n % |ws|);
    }
  }

  lemma WeightedOnesAt(k: nat, n: nat)
    requires k > 0
    ensures PickAt(WeightedRoundRobin, Ones(k), n) == Some(n % k)
  {
    PrefixOnes(k, k);
    WeightedCounter(Ones(k), n);
    var slot := n % k;
    PrefixOnes(k, slot);
    PrefixOnes(k, slot + 1);
    OwnerUnique(Ones(k), slot, Owner(Ones(k), slot, k).value, slot);
  }

  /** n assignments dealt out in turn. */
  function Dealt(k: nat, n: nat): (counts: seq<nat>)
    requires k > 0
    ensures |counts| == k
  {
    seq(k, i => n / k + if i < n % k then 1 else 0)
  }

  lemma {:induction false} FewestDealt(k: nat, n: nat, m: nat)
    requires k > 0 && 0 < m <= k
    ensures Fewest(Dealt(k, n), m) == Some(if m <= n % k then 0 else n % k)
    decreases m
  {
    if m > 1 {
      FewestDealt(k, n, m - 1);
    }
  }

  lemma DealtNext(k: nat, n: nat)
    requires k > 0
    ensures n % k < k && Dealt(k, n + 1) == Dealt(k, n)[n % k := Dealt(k, n)[n % k] + 1]
  {
    NextModulo(n, k);
    var next := Dealt(k, n)[n % k := Dealt(k, n)[n % k] + 1];
    assert forall i :: 0 <= i < k ==> Dealt(k, n + 1)[i] == next[i];
  }

  lemma {:induction false} LeastConnectionsDeals(ws: seq<nat>, n: nat)
    requires ws != []
    ensures After(LeastConnections, ws, n).counts == Dealt(|ws|, n)
    decreases n
  {
    if n > 0 {
      LeastConnectionsDeals(ws, n - 1);
      FewestDealt(|ws|, n - 1, |ws|);
      DealtNext(|ws|, n - 1);
    } else {
      DealtZero(|ws|);
    }
  }

  lemma DealtZero(k: nat)
    requires k > 0
    ensures Dealt(k, 0) == Zeros(k)
  {
    DivUnique(0, k, 0);
  }

  lemma LeastConnectionsAt(ws: seq<nat>, n: nat)
    requires ws != []
    ensures PickAt(LeastConnections, ws, n) == Some(n % |ws|)
  {
    LeastConnectionsDeals(ws, n);
    FewestDealt(|ws|, n, |ws|);
  }

  lemma {:induction false} LowestScoreOfOnes(counts: seq<nat>, n: nat)
    requires n <= |counts|
    ensures LowestScore(counts, Ones(|counts|), n) == Fewest(counts, n)
    decreases n
  {
    if n > 0 {
      LowestScoreOfOnes(counts, n - 1);
    }
  }

  lemma {:induction false} WeightedLeastOnesAt(k: nat, n: nat)
    ensures After(WeightedLeastConnections, Ones(k), n) == After(LeastConnections, Ones(k), n)
    ensures PickAt(WeightedLeastConnections, Ones(k), n) == PickAt(LeastConnections, Ones(k), n)
    decreases n
  {
    if n > 0 {
      WeightedLeastOnesAt(k, n - 1);
      LowestScoreOfOnes(After(LeastConnections, Ones(k), n - 1).counts, k);
    }
    LowestScoreOfOnes(After(LeastConnections, Ones(k), n).counts, k);
  }

  /** From a fresh start the four algorithms make the same choices on the default weights: pick n goes to target
      n mod k. */
  lemma AlgorithmsAgree(k: nat, n: nat, alg: Algorithm)
    requires k > 0
    ensures PickAt(alg, Ones(k), n) == Some(n % k)
  {
    match alg {
      case RoundRobin => RoundRobinAt(Ones(k), n);
      case LeastConnections => LeastConnectionsAt(Ones(k), n);
      case WeightedRoundRobin => WeightedOnesAt(k, n);
      case WeightedLeastConnections =>
        WeightedLeastOnesAt(k, n);
        LeastConnectionsAt(Ones(k), n);
    }
  }

  // ------------------------------------------------------------------------------------------------
  // Weighted least connections

  /** Taking one assignment from a target would leave it no worse served, per weight, than the other one. */
  ghost predicate Within(ci: int, wi: int, cj: int, wj: int) {
    (ci - 1) * wj <= cj * wi
  }

  ghost predicate Proportional(counts: seq<nat>, ws: seq<nat>)
    requires |counts| == |ws|
  {
    && (forall i, j :: 0 <= i < |ws| && 0 <= j < |ws| ==> Within(counts[i], ws[i], counts[j], ws[j]))
    && (forall i :: 0 <= i < |ws| && ws[i] == 0 ==> counts[i] == 0)
  }

  lemma ProportionalStep(counts: seq<nat>, ws: seq<nat>, p: nat)
    requires |counts| == |ws| && Proportional(counts, ws) && FirstLowest(counts, ws, |ws|, p)
    ensures Proportional(counts[p := counts[p] + 1], ws)
  {
    var next := counts[p := counts[p] + 1];
    forall i, j | 0 <= i < |ws| && 0 <= j < |ws|
      ensures Within(next[i], ws[i], next[j], ws[j])
    {
      MulMono(counts[j], next[j], ws[i]);
      if i == p {
        assert ws[j] > 0 ==> !Lower(counts, ws, j, p);
      } else {
        assert Within(counts[i], ws[i], counts[j], ws[j]);
      }
    }
  }

  lemma {:induction false} WeightedLeastProportional(ws: seq<nat>, n: nat)
    ensures Proportional(After(WeightedLeastConnections, ws, n).counts, ws)
    decreases n
  {
    if n > 0 {
      WeightedLeastProportional(ws, n - 1);
      AdvancedProportional(ws, After(WeightedLeastConnections, ws, n - 1));
    }
  }

  lemma AdvancedProportional(ws: seq<nat>, cell: Cell)
    requires |cell.counts| == |ws| && Proportional(cell.counts, ws)
    ensures Proportional(Advanced(WeightedLeastConnections, ws, cell).counts, ws)
  {
    LowestScoreIsFirstLowest(cell.counts, ws, |ws|);
    var best := LowestScore(cell.counts, ws, |ws|);
    if best.Some? {
      ProportionalStep(cell.counts, ws, best.value);
    }
  }

  lemma {:induction false} PrefixBump(s: seq<nat>, p: nat, i: nat)
    requires p < |s| && i <= |s|
    ensures Prefix(s[p := s[p] + 1], i) == Prefix(s, i) + if p < i then 1 else 0
    decreases i
  {
    if i > 0 {
      PrefixBump(s, p, i - 1);
    }
  }

  lemma {:induction false} ZeroSum(ws: seq<nat>, n: nat)
    requires n <= |ws| && forall i :: 0 <= i < n ==> ws[i] == 0
    ensures Prefix(ws, n) == 0
    decreases n
  {
    if n > 0 {
      ZeroSum(ws, n - 1);
    }
  }

  function CountsAfter(ws: seq<nat>, n: nat): (counts: seq<nat>)
    ensures |counts| == |ws|
  {
    After(WeightedLeastConnections, ws, n).counts
  }

  /** The counts sum to the number of picks. */
  lemma {:induction false} CountsSum(ws: seq<nat>, n: nat)
    requires Sum(ws) > 0
    ensures Sum(CountsAfter(ws, n)) == n
    decreases n
  {
    if n == 0 {
      ZeroSum(Zeros(|ws|), |ws|);
    } else {
      CountsSum(ws, n - 1);
      SomePick(ws, CountsAfter(ws, n - 1));
      PrefixBump(CountsAfter(ws, n - 1), PickAt(WeightedLeastConnections, ws, n - 1).value, |ws|);
    }
  }

  /** Each count is the number of picks of its target. */
  lemma {:induction false} CountsArePicks(ws: seq<nat>, n: nat, i: nat)
    requires i < |ws|
    ensures CountsAfter(ws, n)[i] == Picks(WeightedLeastConnections, ws, n, i)
    decreases n
  {
    if n > 0 {
      CountsArePicks(ws, n - 1, i);
    }
  }

  lemma SomePick(ws: seq<nat>, counts: seq<nat>)
    requires Sum(ws) > 0 && |counts| == |ws|
    ensures LowestScore(counts, ws, |ws|).Some?
  {
    LowestScoreIsFirstLowest(counts, ws, |ws|);
    if LowestScore(counts, ws, |ws|).None? {
      ZeroSum(ws, |ws|);
      assert false;
    }
  }

  /** The pairwise law summed over the first m targets, with the exact term for i itself. */
  lemma {:induction false} ShareSums(counts: seq<nat>, ws: seq<nat>, i: nat, m: nat)
    requires |counts| == |ws| && Proportional(counts, ws) && i < |ws| && m <= |ws|
    ensures
      Shares(counts[i], ws[i], Prefix(counts, m), Prefix(ws, m), m, if i < m then 1 else 0)
    decreases m
  {
    if m > 0 {
      ShareSums(counts, ws, i, m - 1);
      var j := m - 1;
      assert Within(counts[j], ws[j], counts[i], ws[i]) && Within(counts[i], ws[i], counts[j], ws[j]);
      ShareStep(counts[i], ws[i], counts[j], ws[j], Prefix(counts, j), Prefix(ws, j), j, if i < j then 1 else 0,
                if i == j then 1 else 0);
    }
  }

  /** The first m targets, with c assignments and weight w between them, against target i; `own` says whether i is one
      of them. */
  ghost predicate Shares(ci: int, wi: int, c: int, w: int, m: int, own: int) {
    && (c - m + own) * wi <= ci * w
    && (ci - 1) * w + own * wi <= c * wi
  }

  lemma ShareStep(ci: int, wi: int, cj: int, wj: int, c: int, w: int, m: int, own: int, same: int)
    requires Shares(ci, wi, c, w, m, own)
    requires Within(cj, wj, ci, wi) && Within(ci, wi, cj, wj)
    requires same == 0 || (same == 1 && ci == cj && wi == wj)
    ensures Shares(ci, wi, c + cj, w + wj, m + 1, own + same)
  {
    ShareLower(ci, wi, cj, wj, c, w, m, own, same);
    ShareUpper(ci, wi, cj, wj, c, w, own, same);
  }

  lemma ShareLower(ci: int, wi: int, cj: int, wj: int, c: int, w: int, m: int, own: int, same: int)
    requires (c - m + own) * wi <= ci * w && (cj - 1) * wi <= ci * wj
    requires same == 0 || (same == 1 && ci == cj && wi == wj)
    ensures (c + cj - (m + 1) + (own + same)) * wi <= ci * (w + wj)
  {
    assert (c + cj - (m + 1) + (own + same)) * wi == (c - m + own) * wi + (cj - 1 + same) * wi;
    assert ci * (w + wj) == ci * w + ci * wj;
  }

  lemma ShareUpper(ci: int, wi: int, cj: int, wj: int, c: int, w: int, own: int, same: int)
    requires (ci - 1) * w + own * wi <= c * wi && (ci - 1) * wj <= cj * wi
    requires same == 0 || (same == 1 && ci == cj && wi == wj)
    ensures (ci - 1) * (w + wj) + (own + same) * wi <= (c + cj) * wi
  {
    assert (ci - 1) * (w + wj) == (ci - 1) * w + (ci - 1) * wj;
    assert (own + same) * wi == own * wi + same * wi;
    assert (c + cj) * wi == c * wi + cj * wi;
    assert (ci - 1) * wj + same * wi <= cj * wi by {
      if same == 1 {
        MulStep(ci - 1, wi);
      }
    }
  }

  /** Proportional fairness: after n picks over k targets whose weights sum to W > 0, each target's share is within
      (k - 1) * w of n * w from below and W - w from above, in units of 1 / W of a pick. */
  lemma WeightedLeastShare(ws: seq<nat>, n: nat, i: nat)
    requires Sum(ws) > 0 && i < |ws|
    ensures
      var c := Picks(WeightedLeastConnections, ws, n, i);
      n * ws[i] - (|ws| - 1) * ws[i] <= c * Sum(ws) <= n * ws[i] + Sum(ws) - ws[i]
  {
    WeightedLeastProportional(ws, n);
    CountsSum(ws, n);
    CountsArePicks(ws, n, i);
    var counts := CountsAfter(ws, n);
    ShareSums(counts, ws, i, |ws|);
    ShareAlgebra(counts[i], ws[i], n, |ws|, Sum(ws));
  }

  lemma ShareAlgebra(c: int, wi: int, n: int, k: int, w: int)
    requires (n - k + 1) * wi <= c * w && (c - 1) * w + 1 * wi <= n * wi
    ensures n * wi - (k - 1) * wi <= c * w <= n * wi + w - wi
  {
    assert (n - k + 1) * wi == n * wi - (k - 1) * wi;
    assert (c - 1) * w == c * w - w;
  }

  lemma {:induction false} SumGap(small: seq<nat>, ws: seq<nat>, m: nat, i: nat, n: nat)
    requires |small| == |ws| && i < n <= |ws|
    requires forall j :: 0 <= j < |ws| ==> small[j] <= m * ws[j]
    ensures Prefix(small, n) + (m * ws[i] - small[i]) <= m * Prefix(ws, n)
    decreases n
  {
    assert m * Prefix(ws, n) == m * Prefix(ws, n - 1) + m * ws[n - 1];
    if i < n - 1 {
      SumGap(small, ws, m, i, n - 1);
    } else if n > 1 {
      SumGap(small, ws, m, 0, n - 1);
    }
  }

  /** At every whole number of periods the split is exact, and the same as that of weighted round robin. */
  lemma WeightedLeastPeriod(ws: seq<nat>, m: nat, i: nat)
    requires Sum(ws) > 0 && i < |ws|
    ensures Picks(WeightedLeastConnections, ws, m * Sum(ws), i) == m * ws[i]
    ensures Picks(WeightedRoundRobin, ws, m * Sum(ws), i) == m * ws[i]
  {
    var n := m * Sum(ws);
    WeightedLeastProportional(ws, n);
    CountsSum(ws, n);
    CountsArePicks(ws, n, i);
    var counts := CountsAfter(ws, n);
    forall j | 0 <= j < |ws|
      ensures counts[j] <= m * ws[j]
    {
      if ws[j] > 0 {
        CountsArePicks(ws, n, j);
        WeightedLeastShare(ws, n, j);
        PeriodUpper(counts[j], ws[j], m, Sum(ws));
      }
    }
    SumGap(counts, ws, m, i, |ws|);
    WeightedShare(ws, n, i);
    DivUnique(m, Sum(ws), n);
  }

  lemma PeriodUpper(c: nat, wi: nat, m: nat, w: nat)
    requires w > 0 && wi > 0 && c * w <= m * w * wi + w - wi
    ensures c <= m * wi
  {
    assert (m * wi + 1) * w == m * w * wi + w;
    if c > m * wi {
      MulMono(m * wi + 1, c, w);
      assert false;
    }
  }
}
