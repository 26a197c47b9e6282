/** How the load balancer picks among the targets of one path, as functions of a counter, of the assignments made so
    far and of the weights. */
module Selection {
  import opened Options
  import opened Numerics

  datatype Algorithm = RoundRobin | LeastConnections | WeightedRoundRobin | WeightedLeastConnections

  /** The sum of the first i weights. */
  function Prefix(ws: seq<nat>, i: nat): nat
    requires i <= |ws|
  {
    if i == 0 then 0 else Prefix(ws, i - 1) + ws[i - 1]
  }

  function Sum(ws: seq<nat>): nat {
    Prefix(ws, |ws|)
  }

  lemma {:induction false} PrefixMono(ws: seq<nat>, i: nat, j: nat)
    requires i <= j <= |ws|
    ensures Prefix(ws, i) <= Prefix(ws, j)
    decreases j
  {
    if i < j {
      PrefixMono(ws, i, j - 1);
    }
  }

  /** Index i owns the slots from Prefix(ws, i) up to Prefix(ws, i + 1). */
  predicate Owns(ws: seq<nat>, i: nat, slot: nat) {
    i < |ws| && Prefix(ws, i) <= slot < Prefix(ws, i + 1)
  }

  lemma OwnerUnique(ws: seq<nat>, i: nat, j: nat, slot: nat)
    requires Owns(ws, i, slot) && Owns(ws, j, slot)
    ensures i == j
  {
    if i < j {
      PrefixMono(ws, i + 1, j);
    } else if j < i {
      PrefixMono(ws, j + 1, i);
    }
  }

  /** The owner of a slot among the first n indices. */
  function Owner(ws: seq<nat>, slot: nat, n: nat): (owner: Option<nat>)
    requires n <= |ws|
    ensures owner.Some? ==> owner.value < n && Owns(ws, owner.value, slot)
    ensures owner.None? ==> slot >= Prefix(ws, n)
  {
    if n == 0 then None
    else
      var before := Owner(ws, slot, n - 1);
      if before.Some? then before
      else if slot < Prefix(ws, n) then Some(n - 1)
      else None
  }

  /** Target i has a lower score than target j: fewer assignments per weight, compared without rounding. */
  predicate Lower(counts: seq<nat>, ws: seq<nat>, i: nat, j: nat)
    requires i < |counts| == |ws| && j < |ws|
  {
    counts[i] * ws[j] < counts[j] * ws[i]
  }

  /** The first index of the lowest score among the first n. The score of a weight of zero is infinite or not a number,
      so such a target is never taken. */
  function LowestScore(counts: seq<nat>, ws: seq<nat>, n: nat): (best: Option<nat>)
    requires n <= |counts| == |ws|
    ensures best.Some? ==> best.value < n && ws[best.value] > 0
  {
    if n == 0 then None
    else
      var best := LowestScore(counts, ws, n - 1);
      if ws[n - 1] > 0 && (best.None? || Lower(counts, ws, n - 1, best.value)) then Some(n - 1) else best
  }

  /** The first index of the fewest assignments among the first n. */
  function Fewest(counts: seq<nat>, n: nat): (best: Option<nat>)
    requires n <= |counts|
    ensures best.Some? ==> best.value < n
    ensures best.None? <==> n == 0
  {
    if n == 0 then None
    else
      var best := Fewest(counts, n - 1);
      if best.None? || counts[n - 1] < counts[best.value] then Some(n - 1) else best
  }

  /** No target of positive weight has a lower score than the chosen one, and the ones before it have a higher score. */
  ghost predicate FirstLowest(counts: seq<nat>, ws: seq<nat>, n: nat, i: nat)
    requires n <= |counts| == |ws|
  {
    && i < n && ws[i] > 0
    && forall j :: 0 <= j < n && ws[j] > 0 ==> !Lower(counts, ws, j, i) && (j < i ==> Lower(counts, ws, i, j))
  }

  lemma LowerTransitive(a: nat, b: nat, c: nat, u: nat, v: nat, w: nat)
    requires v > 0
    ensures a * v <= b * u && b * w <= c * v ==> a * w <= c * u
    ensures a * v < b * u && b * w <= c * v && w > 0 ==> a * w < c * u
  {
    if a * v <= b * u && b * w <= c * v {
      MulMono(a * v, b * u, w);
      MulMono(b * w, c * v, u);
      assert (a * w) * v == a * v * w && b * u * w == b * w * u && (c * u) * v == c * v * u;
      if a * w > c * u {
        MulMono(c * u + 1, a * w, v);
        assert false;
      }
      if a * v < b * u && w > 0 && a * w == c * u {
        MulMono(a * v + 1, b * u, w);
        assert false;
      }
    }
  }

  /** The running minimum finds the first target of the lowest score, if any weight is positive. */
  lemma {:induction false} LowestScoreIsFirstLowest(counts: seq<nat>, ws: seq<nat>, n: nat)
    requires n <= |counts| == |ws|
    ensures
      match LowestScore(counts, ws, n)
      case None => forall j :: 0 <= j < n ==> ws[j] == 0
      case Some(i) => FirstLowest(counts, ws, n, i)
    decreases n
  {
    if n > 0 {
      LowestScoreIsFirstLowest(counts, ws, n - 1);
      var best := LowestScore(counts, ws, n - 1);
      if ws[n - 1] > 0 && best.Some? && Lower(counts, ws, n - 1, best.value) {
        var b := best.value;
        forall j | 0 <= j < n - 1 && ws[j] > 0
          ensures !Lower(counts, ws, j, n - 1) && Lower(counts, ws, n - 1, j)
        {
          LowerTransitive(counts[n - 1], counts[b], counts[j], ws[n - 1], ws[b], ws[j]);
        }
      }
    }
  }

  // ------------------------------------------------------------------------------------------------
  // Runs of picks for one path

  /** The state a path has in the balancer. */
  datatype Cell = Cell(counter: nat, counts: seq<nat>)

  function Pick(alg: Algorithm, ws: seq<nat>, cell: Cell): (picked: Option<nat>)
    requires |cell.counts| == |ws|
    ensures picked.Some? ==> picked.value < |ws|
  {
    match alg
    case RoundRobin => if ws == [] then None else Some(cell.counter % |ws|)
    case LeastConnections => Fewest(cell.counts, |ws|)
    case WeightedRoundRobin => Owner(ws, cell.counter, |ws|)
    case WeightedLeastConnections => LowestScore(cell.counts, ws, |ws|)
  }

  function Advanced(alg: Algorithm, ws: seq<nat>, cell: Cell): (next: Cell)
    requires |cell.counts| == |ws|
    ensures |next.counts| == |ws|
  {
    match Pick(alg, ws, cell)
    case None => cell
    case Some(i) =>
      match alg
      case RoundRobin => cell.(counter := (cell.counter + 1) % |ws|)
      case WeightedRoundRobin =>
        PrefixMono(ws, i + 1, |ws|);
        cell.(counter := (cell.counter + 1) % Sum(ws))
      case _ => cell.(counts := cell.counts[i := cell.counts[i] + 1])
  }

  function Zeros(k: nat): (s: seq<nat>)
    ensures |s| == k && forall i :: 0 <= i < k ==> s[i] == 0
  {
    seq(k, _ => 0)
  }

  /** The state of a path after n picks from a fresh start. */
  function After(alg: Algorithm, ws: seq<nat>, n: nat): (cell: Cell)
    ensures |cell.counts| == |ws|
  {
    if n == 0 then Cell(0, Zeros(|ws|)) else Advanced(alg, ws, After(alg, ws, n - 1))
  }

  /** The pick number n, from 0. */
  function PickAt(alg: Algorithm, ws: seq<nat>, n: nat): (picked: Option<nat>)
    ensures picked.Some? ==> picked.value < |ws|
  {
    Pick(alg, ws, After(alg, ws, n))
  }

  /** How many of the first n picks went to target i. */
  function Picks(alg: Algorithm, ws: seq<nat>, n: nat, i: nat): nat {
    if n == 0 then 0
    else Picks(alg, ws, n - 1, i) + if PickAt(alg, ws, n - 1) == Some(i) then 1 else 0
  }
}
