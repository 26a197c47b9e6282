/** Least-connections balancing without the write lock that serialises it: a request scans the counts one at a time
    under the `connections` lock, releases that lock, and only then increments the count of the target it chose.
    Plain least connections is the case where every weight is one. */
module ConcurrentBalancer {
  import opened Options
  import opened Numerics
  import opened Selection
  import opened BalancerFairness

  /** The best target so far and its count when it was read. */
  datatype Best = Best(target: nat, count: nat)

  /** Where a request is within the choice of a target. */
  datatype Phase =
    | Idle
    | Scanning(next: nat, best: Option<Best>)
    | Pending(target: nat)

  /** The shared counts, and the phase of each of the requests that may be inside at once. */
  datatype Machine = Machine(counts: seq<nat>, phases: seq<Phase>)

  datatype Move =
    | Begin(x: nat)
    | Read(x: nat)
    | Release(x: nat)
    | Increment(x: nat)

  predicate LockFree(phases: seq<Phase>) {
    forall y :: 0 <= y < |phases| ==> !phases[y].Scanning?
  }

  /** A move can happen when its request is in the phase for it; the lock admits one scan at a time. */
  predicate Enabled(ws: seq<nat>, m: Machine, move: Move)
    requires |m.counts| == |ws|
  {
    && move.x < |m.phases|
    && match move
       case Begin(x) => m.phases[x].Idle? && LockFree(m.phases)
       case Read(x) => m.phases[x].Scanning? && m.phases[x].next < |ws|
       case Release(x) => m.phases[x].Scanning? && m.phases[x].next == |ws|
       case Increment(x) => m.phases[x].Pending? && m.phases[x].target < |ws|
  }

  /** The running minimum after reading the count of target i. */
  function Improve(ws: seq<nat>, best: Option<Best>, i: nat, count: nat): Option<Best>
    requires i < |ws|
  {
    if ws[i] > 0
       && (best.None?
           || (best.value.target < |ws| && count * ws[best.value.target] < best.value.count * ws[i]))
    then Some(Best(i, count))
    else best
  }

  /** The effect of a move; one that is not enabled changes nothing. */
  function Next(ws: seq<nat>, m: Machine, move: Move): (next: Machine)
    requires |m.counts| == |ws|
    ensures |next.counts| == |ws| && |next.phases| == |m.phases|
  {
    if !Enabled(ws, m, move) then m
    else match move
      case Begin(x) => m.(phases := m.phases[x := Scanning(0, None)])
      case Read(x) =>
        var i := m.phases[x].next;
        m.(phases := m.phases[x := Scanning(i + 1, Improve(ws, m.phases[x].best, i, m.counts[i]))])
      case Release(x) =>
        m.(phases := m.phases[x := if m.phases[x].best.Some? then Pending(m.phases[x].best.value.target) else Idle])
      case Increment(x) =>
        var t := m.phases[x].target;
        Machine(m.counts[t := m.counts[t] + 1], m.phases[x := Idle])
  }

  function Run(ws: seq<nat>, m: Machine, moves: seq<Move>): (end: Machine)
    requires |m.counts| == |ws|
    ensures |end.counts| == |ws| && |end.phases| == |m.phases|
  {
    if moves == [] then m else Next(ws, Run(ws, m, moves[..|moves| - 1]), moves[|moves| - 1])
  }

  /** Room for p requests, none of them choosing. */
  function Start(k: nat, p: nat): (m: Machine)
    ensures |m.counts| == k && |m.phases| == p
  {
    Machine(Zeros(k), seq(p, _ => Idle))
  }

  /** The requests that have chosen target t but not yet counted themselves. */
  function PendingOn(phases: seq<Phase>, t: nat): nat {
    if phases == [] then 0
    else PendingOn(phases[..|phases| - 1], t) + if phases[|phases| - 1] == Pending(t) then 1 else 0
  }

  lemma {:induction false} PendingUpdate(phases: seq<Phase>, x: nat, to: Phase, t: nat)
    requires x < |phases|
    ensures PendingOn(phases[x := to], t)
            == PendingOn(phases, t) - (if phases[x] == Pending(t) then 1 else 0) + (if to == Pending(t) then 1 else 0)
    decreases |phases|
  {
    var n := |phases| - 1;
    if x < n {
      assert phases[x := to][..n] == phases[..n][x := to];
      PendingUpdate(phases[..n], x, to, t);
    } else {
      assert phases[x := to][..n] == phases[..n];
    }
  }

  lemma {:induction false} PendingBound(phases: seq<Phase>, t: nat)
    ensures PendingOn(phases, t) <= |phases|
    decreases |phases|
  {
    if phases != [] {
      PendingBound(phases[..|phases| - 1], t);
    }
  }

  /** A request that is not pending leaves room for one less. */
  lemma PendingOthers(phases: seq<Phase>, x: nat, t: nat)
    requires x < |phases| && !phases[x].Pending?
    ensures PendingOn(phases, t) <= |phases| - 1
  {
    PendingUpdate(phases, x, Pending(t), t);
    PendingBound(phases[x := Pending(t)], t);
  }

  function Committed(m: Machine, t: nat): nat
    requires t < |m.counts|
  {
    m.counts[t] + PendingOn(m.phases, t)
  }

  /** The assignments c committed to a target of weight wt exceed those counted for one of weight wj, per weight, by at
      most p. */
  ghost predicate Spread(c: int, wt: int, cj: int, wj: int, p: int) {
    (c - p) * wj <= cj * wt
  }

  /** What a scan under way knows: the lock keeps anyone else from choosing, so the commitments of its best target have
      not grown since it was read. */
  ghost predicate ScanSound(ws: seq<nat>, m: Machine, s: Phase)
    requires |m.counts| == |ws| && s.Scanning?
  {
    && s.next <= |ws|
    && match s.best
       case None => forall j :: 0 <= j < s.next ==> ws[j] == 0
       case Some(Best(b, v)) =>
         && b < s.next && ws[b] > 0
         && Committed(m, b) <= v + |m.phases| - 1
         && forall j :: 0 <= j < s.next ==> v * ws[j] <= m.counts[j] * ws[b]
  }

  ghost predicate Invariant(ws: seq<nat>, m: Machine) {
    && |m.counts| == |ws|
    && (forall x, y :: 0 <= x < |m.phases| && 0 <= y < |m.phases| && m.phases[x].Scanning? && m.phases[y].Scanning?
                       ==> x == y)
    && (forall x :: 0 <= x < |m.phases| && m.phases[x].Pending? ==> m.phases[x].target < |ws|)
    && (forall x :: 0 <= x < |m.phases| && m.phases[x].Scanning? ==> ScanSound(ws, m, m.phases[x]))
    && (forall t, j :: 0 <= t < |ws| && 0 <= j < |ws| ==>
          Spread(Committed(m, t), ws[t], m.counts[j], ws[j], |m.phases|))
  }

  lemma BeginKeeps(ws: seq<nat>, m: Machine, x: nat)
    requires Invariant(ws, m) && Enabled(ws, m, Begin(x))
    ensures Invariant(ws, Next(ws, m, Begin(x)))
  {
    var m' := Next(ws, m, Begin(x));
    forall t | 0 <= t < |ws|
      ensures Committed(m', t) == Committed(m, t)
    {
      PendingUpdate(m.phases, x, Scanning(0, None), t);
    }
  }

  lemma ReadSound(ws: seq<nat>, m: Machine, x: nat)
    requires |m.counts| == |ws| && Enabled(ws, m, Read(x)) && ScanSound(ws, m, m.phases[x])
    ensures
      var s := m.phases[x];
      ScanSound(ws, m, Scanning(s.next + 1, Improve(ws, s.best, s.next, m.counts[s.next])))
  {
    var s := m.phases[x];
    var i, v := s.next, m.counts[s.next];
    if Improve(ws, s.best, i, v) == Some(Best(i, v)) {
      PendingOthers(m.phases, x, i);
      if s.best.Some? {
        var Best(b, u) := s.best.value;
        forall j | 0 <= j < i + 1
          ensures v * ws[j] <= m.counts[j] * ws[i]
        {
          if j < i {
            LowerTransitive(v, u, m.counts[j], ws[i], ws[b], ws[j]);
          }
        }
      }
    }
  }

  lemma ReadKeeps(ws: seq<nat>, m: Machine, x: nat)
    requires Invariant(ws, m) && Enabled(ws, m, Read(x))
    ensures Invariant(ws, Next(ws, m, Read(x)))
  {
    ReadSound(ws, m, x);
    var m' := Next(ws, m, Read(x));
    forall t | 0 <= t < |ws|
      ensures Committed(m', t) == Committed(m, t)
    {
      PendingUpdate(m.phases, x, m'.phases[x], t);
    }
  }

  lemma ReleaseKeeps(ws: seq<nat>, m: Machine, x: nat)
    requires Invariant(ws, m) && Enabled(ws, m, Release(x))
    ensures Invariant(ws, Next(ws, m, Release(x)))
  {
    var m', p := Next(ws, m, Release(x)), |m.phases|;
    var s := m.phases[x];
    forall t, j | 0 <= t < |ws| && 0 <= j < |ws|
      ensures Spread(Committed(m', t), ws[t], m'.counts[j], ws[j], p)
    {
      PendingUpdate(m.phases, x, m'.phases[x], t);
      if s.best.Some? && s.best.value.target == t {
        MulMono(Committed(m', t) - p, s.best.value.count, ws[j]);
      } else {
        assert Spread(Committed(m, t), ws[t], m.counts[j], ws[j], p);
      }
    }
  }

  lemma IncrementKeeps(ws: seq<nat>, m: Machine, x: nat)
    requires Invariant(ws, m) && Enabled(ws, m, Increment(x))
    ensures Invariant(ws, Next(ws, m, Increment(x)))
  {
    var m', p := Next(ws, m, Increment(x)), |m.phases|;
    forall t | 0 <= t < |ws|
      ensures Committed(m', t) == Committed(m, t) && m.counts[t] <= m'.counts[t]
    {
      PendingUpdate(m.phases, x, Idle, t);
    }
    forall t, j | 0 <= t < |ws| && 0 <= j < |ws|
      ensures Spread(Committed(m', t), ws[t], m'.counts[j], ws[j], p)
    {
      assert Spread(Committed(m, t), ws[t], m.counts[j], ws[j], p);
      MulMono(m.counts[j], m'.counts[j], ws[t]);
    }
    forall y | 0 <= y < p && m'.phases[y].Scanning?
      ensures ScanSound(ws, m', m'.phases[y])
    {
      GrownScanSound(ws, m, m', m.phases[y]);
    }
  }

  /** Counts that grow under a scan do not invalidate what it knows. */
  lemma GrownScanSound(ws: seq<nat>, m: Machine, m': Machine, s: Phase)
    requires |m.counts| == |m'.counts| == |ws| && |m.phases| == |m'.phases| && s.Scanning? && ScanSound(ws, m, s)
    requires forall t :: 0 <= t < |ws| ==> Committed(m', t) == Committed(m, t) && m.counts[t] <= m'.counts[t]
    ensures ScanSound(ws, m', s)
  {
    if s.best.Some? {
      forall j | 0 <= j < s.next
        ensures s.best.value.count * ws[j] <= m'.counts[j] * ws[s.best.value.target]
      {
        MulMono(m.counts[j], m'.counts[j], ws[s.best.value.target]);
      }
    }
  }

  lemma {:induction false} NothingPending(phases: seq<Phase>, t: nat)
    requires forall x :: 0 <= x < |phases| ==> phases[x].Idle?
    ensures PendingOn(phases, t) == 0
    decreases |phases|
  {
    if phases != [] {
      NothingPending(phases[..|phases| - 1], t);
    }
  }

  lemma StartInvariant(ws: seq<nat>, p: nat)
    ensures Invariant(ws, Start(|ws|, p))
  {
    var m := Start(|ws|, p);
    forall t, j | 0 <= t < |ws| && 0 <= j < |ws|
      ensures Spread(Committed(m, t), ws[t], m.counts[j], ws[j], p)
    {
      NothingPending(m.phases, t);
      MulMono(0 - p, 0, ws[j]);
    }
  }

  lemma {:induction false} RunKeeps(ws: seq<nat>, p: nat, moves: seq<Move>)
    ensures Invariant(ws, Run(ws, Start(|ws|, p), moves))
    ensures |Run(ws, Start(|ws|, p), moves).phases| == p
    decreases |moves|
  {
    if moves == [] {
      StartInvariant(ws, p);
    } else {
      var before := moves[..|moves| - 1];
      RunKeeps(ws, p, before);
      var m, move := Run(ws, Start(|ws|, p), before), moves[|moves| - 1];
      if Enabled(ws, m, move) {
        match move {
          case Begin(x) => BeginKeeps(ws, m, x);
          case Read(x) => ReadKeeps(ws, m, x);
          case Release(x) => ReleaseKeeps(ws, m, x);
          case Increment(x) => IncrementKeeps(ws, m, x);
        }
      }
    }
  }

  /** Bounded unfairness of the weighted form: with room for p requests inside, in every interleaving the assignments
      committed to any target exceed those counted for any other, per weight, by at most p. */
  lemma WeightedSpreadBound(ws: seq<nat>, p: nat, moves: seq<Move>, t: nat, j: nat)
    requires t < |ws| && j < |ws|
    ensures
      var m := Run(ws, Start(|ws|, p), moves);
      (Committed(m, t) - p) * ws[j] <= m.counts[j] * ws[t]
  {
    RunKeeps(ws, p, moves);
    var m := Run(ws, Start(|ws|, p), moves);
    assert Spread(Committed(m, t), ws[t], m.counts[j], ws[j], |m.phases|);
  }

  /** Plain least connections: no target is ever committed more than p assignments above any other's count, so the
      counts spread by at most p: by one under the balancer's write lock, by the pool size without it. */
  lemma SpreadBound(k: nat, p: nat, moves: seq<Move>, t: nat, j: nat)
    requires t < k && j < k
    ensures
      var m := Run(Ones(k), Start(k, p), moves);
      m.counts[t] + PendingOn(m.phases, t) <= m.counts[j] + p
  {
    WeightedSpreadBound(Ones(k), p, moves, t, j);
  }

  // ------------------------------------------------------------------------------------------------
  // A request that meets nobody, and the worst case

  function Times(move: Move, n: nat): (moves: seq<Move>)
    ensures |moves| == n
  {
    if n == 0 then [] else Times(move, n - 1) + [move]
  }

  /** The whole choice of one request, up to the release of the lock. */
  function Choosing(ws: seq<nat>, x: nat): seq<Move> {
    [Begin(x)] + Times(Read(x), |ws|) + [Release(x)]
  }

  lemma {:induction false} RunConcat(ws: seq<nat>, m: Machine, a: seq<Move>, b: seq<Move>)
    requires |m.counts| == |ws|
    ensures Run(ws, m, a + b) == Run(ws, Run(ws, m, a), b)
    decreases |b|
  {
    if b == [] {
      assert a + b == a;
    } else {
      assert (a + b)[..|a + b| - 1] == a + b[..|b| - 1];
      RunConcat(ws, m, a, b[..|b| - 1]);
    }
  }

  lemma RunSnoc(ws: seq<nat>, m: Machine, a: seq<Move>, move: Move)
    requires |m.counts| == |ws|
    ensures Run(ws, m, a + [move]) == Next(ws, Run(ws, m, a), move)
  {
    assert (a + [move])[..|a + [move]| - 1] == a;
  }

  /** The best target after n undisturbed reads. */
  function BestOf(counts: seq<nat>, ws: seq<nat>, n: nat): Option<Best>
    requires n <= |counts| == |ws|
  {
    match LowestScore(counts, ws, n)
    case None => None
    case Some(i) => Some(Best(i, counts[i]))
  }

  /** The machine with request x in another phase. */
  function With(m: Machine, x: nat, phase: Phase): Machine
    requires x < |m.phases|
  {
    m.(phases := m.phases[x := phase])
  }

  lemma WithTwice(m: Machine, x: nat, a: Phase, b: Phase)
    requires x < |m.phases|
    ensures With(With(m, x, a), x, b) == With(m, x, b)
  {
    assert m.phases[x := a][x := b] == m.phases[x := b];
  }

  lemma ReadStep(ws: seq<nat>, m: Machine, x: nat, n: nat)
    requires |m.counts| == |ws| && n < |ws| && x < |m.phases|
    ensures Next(ws, With(m, x, Scanning(n, BestOf(m.counts, ws, n))), Read(x))
            == With(m, x, Scanning(n + 1, BestOf(m.counts, ws, n + 1)))
  {
    WithTwice(m, x, Scanning(n, BestOf(m.counts, ws, n)), Scanning(n + 1, BestOf(m.counts, ws, n + 1)));
  }

  /** A choice that nobody disturbs, up to its n-th read. */
  lemma {:induction false} Scan(ws: seq<nat>, m: Machine, x: nat, n: nat)
    requires |m.counts| == |ws| && n <= |ws| && x < |m.phases| && m.phases[x].Idle? && LockFree(m.phases)
    ensures Run(ws, m, [Begin(x)] + Times(Read(x), n)) == With(m, x, Scanning(n, BestOf(m.counts, ws, n)))
    decreases n
  {
    if n == 0 {
      assert [Begin(x)] + Times(Read(x), 0) == [] + [Begin(x)];
      RunSnoc(ws, m, [], Begin(x));
    } else {
      Scan(ws, m, x, n - 1);
      assert [Begin(x)] + Times(Read(x), n) == [Begin(x)] + Times(Read(x), n - 1) + [Read(x)];
      RunSnoc(ws, m, [Begin(x)] + Times(Read(x), n - 1), Read(x));
      ReadStep(ws, m, x, n - 1);
    }
  }

  lemma ReleaseStep(ws: seq<nat>, m: Machine, x: nat, best: Option<Best>)
    requires |m.counts| == |ws| && x < |m.phases|
    ensures Next(ws, With(m, x, Scanning(|ws|, best)), Release(x))
            == With(m, x, if best.Some? then Pending(best.value.target) else Idle)
  {
    WithTwice(m, x, Scanning(|ws|, best), if best.Some? then Pending(best.value.target) else Idle);
  }

  /** An undisturbed choice is the serialised pick. */
  lemma ChoosingAlone(ws: seq<nat>, m: Machine, x: nat)
    requires |m.counts| == |ws| && x < |m.phases| && m.phases[x].Idle? && LockFree(m.phases)
    ensures
      var pick := LowestScore(m.counts, ws, |ws|);
      Run(ws, m, Choosing(ws, x)) == With(m, x, if pick.Some? then Pending(pick.value) else Idle)
  {
    Scan(ws, m, x, |ws|);
    RunSnoc(ws, m, [Begin(x)] + Times(Read(x), |ws|), Release(x));
    ReleaseStep(ws, m, x, BestOf(m.counts, ws, |ws|));
  }

  lemma IncrementStep(ws: seq<nat>, m: Machine, x: nat, t: nat)
    requires |m.counts| == |ws| && x < |m.phases| && m.phases[x].Idle? && t < |ws|
    ensures Next(ws, With(m, x, Pending(t)), Increment(x)) == Machine(m.counts[t := m.counts[t] + 1], m.phases)
    ensures Next(ws, With(m, x, Idle), Increment(x)) == m
  {
    assert m.phases[x := Pending(t)][x := Idle] == m.phases;
    assert m.phases[x := Idle] == m.phases;
  }

  /** A choice and its increment that nobody disturbs are one step of the serialised balancer. */
  lemma SerialisedStep(ws: seq<nat>, m: Machine, x: nat)
    requires |m.counts| == |ws| && x < |m.phases| && m.phases[x].Idle? && LockFree(m.phases) && ws != []
    ensures Run(ws, m, Choosing(ws, x) + [Increment(x)])
            == Machine(Advanced(WeightedLeastConnections, ws, Cell(0, m.counts)).counts, m.phases)
  {
    ChoosingAlone(ws, m, x);
    ThenIncrement(ws, m, x, Choosing(ws, x));
  }

  lemma ThenIncrement(ws: seq<nat>, m: Machine, x: nat, moves: seq<Move>)
    requires |m.counts| == |ws| && x < |m.phases| && m.phases[x].Idle? && ws != []
    requires
      var pick := LowestScore(m.counts, ws, |ws|);
      Run(ws, m, moves) == With(m, x, if pick.Some? then Pending(pick.value) else Idle)
    ensures Run(ws, m, moves + [Increment(x)])
            == Machine(Advanced(WeightedLeastConnections, ws, Cell(0, m.counts)).counts, m.phases)
  {
    RunSnoc(ws, m, moves, Increment(x));
    match LowestScore(m.counts, ws, |ws|) {
      case Some(t) => IncrementStep(ws, m, x, t);
      case None => IncrementStep(ws, m, x, 0);
    }
  }

  /** Everybody chooses before anybody counts. */
  function Crowd(ws: seq<nat>, n: nat): seq<Move> {
    if n == 0 then [] else Crowd(ws, n - 1) + Choosing(ws, n - 1)
  }

  function Counting(n: nat): seq<Move> {
    if n == 0 then [] else Counting(n - 1) + [Increment(n - 1)]
  }

  /** The first n requests wait to count target 0. */
  function Waiting(p: nat, n: nat): (phases: seq<Phase>)
    ensures |phases| == p
  {
    seq(p, x => if x < n then Pending(0) else Idle)
  }

  lemma {:induction false} CrowdRun(k: nat, p: nat, n: nat)
    requires k > 0 && n <= p
    ensures Run(Ones(k), Start(k, p), Crowd(Ones(k), n)) == Machine(Zeros(k), Waiting(p, n))
    decreases n
  {
    if n == 0 {
      assert Start(k, p).phases == Waiting(p, 0);
    } else {
      CrowdRun(k, p, n - 1);
      RunConcat(Ones(k), Start(k, p), Crowd(Ones(k), n - 1), Choosing(Ones(k), n - 1));
      JoinsCrowd(k, p, n - 1);
    }
  }

  lemma JoinsCrowd(k: nat, p: nat, n: nat)
    requires k > 0 && n < p
    ensures Run(Ones(k), Machine(Zeros(k), Waiting(p, n)), Choosing(Ones(k), n)) == Machine(Zeros(k), Waiting(p, n + 1))
  {
    ChoosingAlone(Ones(k), Machine(Zeros(k), Waiting(p, n)), n);
    ZerosPick(k, k);
    assert Waiting(p, n)[n := Pending(0)] == Waiting(p, n + 1);
  }

  lemma {:induction false} ZerosPick(k: nat, n: nat)
    requires 0 < n <= k
    ensures LowestScore(Zeros(k), Ones(k), n) == Some(0)
    decreases n
  {
    if n > 1 {
      ZerosPick(k, n - 1);
    }
  }

  /** Target 0 has been counted n times, and the requests from n on are still waiting. */
  ghost predicate Counted(k: nat, m: Machine, n: nat)
    requires k > 0
  {
    && m.counts == Zeros(k)[0 := n]
    && forall x :: n <= x < |m.phases| ==> m.phases[x] == Pending(0)
  }

  lemma CountingStep(k: nat, m: Machine, n: nat)
    requires k > 0 && n < |m.phases| && Counted(k, m, n)
    ensures Counted(k, Next(Ones(k), m, Increment(n)), n + 1)
  {
  }

  lemma {:induction false} CountingRun(k: nat, m: Machine, n: nat)
    requires k > 0 && n <= |m.phases| && Counted(k, m, 0)
    ensures Counted(k, Run(Ones(k), m, Counting(n)), n)
    decreases n
  {
    if n > 0 {
      CountingRun(k, m, n - 1);
      RunSnoc(Ones(k), m, Counting(n - 1), Increment(n - 1));
      CountingStep(k, Run(Ones(k), m, Counting(n - 1)), n - 1);
    }
  }

  /** The bound is reached: without the write lock p simultaneous requests can all go to the same target, leaving the
      others without any. */
  lemma SpreadBoundIsTight(k: nat, p: nat, j: nat)
    requires 0 < j < k
    ensures exists moves ::
              var m := Run(Ones(k), Start(k, p), moves);
              m.counts[0] == m.counts[j] + p
  {
    var moves := Crowd(Ones(k), p) + Counting(p);
    CrowdRun(k, p, p);
    assert Zeros(k)[0 := 0] == Zeros(k);
    CountingRun(k, Machine(Zeros(k), Waiting(p, p)), p);
    RunConcat(Ones(k), Start(k, p), Crowd(Ones(k), p), Counting(p));
    assert Run(Ones(k), Start(k, p), moves).counts[0] == Run(Ones(k), Start(k, p), moves).counts[j] + p;
  }
}
