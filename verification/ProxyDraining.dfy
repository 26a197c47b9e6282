/** Time in the concurrent system, and how the requests in flight come to their ends. */
module ProxyDraining {
  import opened Numerics
  import opened ProxyRequests
  import opened ProxySystem
  import opened Upstreams

  // ------------------------------------------------------------------------------------------------
  // Time

  function Instant(step: Step): nat {
    match step
    case Arrive(_, _, at) => at
    case Choose(_, at) => at
    case Finish(_, r) => r.finishedAt
    case UseUp(_, at) => at
  }

  /** A step that can be taken when it is: a loop starts on arrival, an attempt begins once the request has waited,
      finishes no earlier than it began, and times out no earlier than it may. */
  predicate OnTime(w: Proxy, s: System, step: Step) {
    && Enabled(w, s, step)
    && match step
       case Arrive(_, req, at) => req.p.start == at
       case Choose(id, at) => s.inflight[id].at <= at
       case Finish(id, r) =>
         var f := s.inflight[id];
         && r.startedAt == f.at
         && r.finishedAt >= f.at + if r.result.TimedOut? then f.req.p.timeout else 0
       case UseUp(id, at) => s.inflight[id].at <= at
  }

  /** Steps taken on time, in the order of their instants, between two instants. */
  ghost predicate Clocked(w: Proxy, s: System, lo: nat, steps: seq<Step>, hi: nat)
    decreases |steps|
  {
    if steps == [] then lo <= hi
    else
      var before, step := steps[..|steps| - 1], steps[|steps| - 1];
      Clocked(w, s, lo, before, Instant(step)) && OnTime(w, Reach(w, s, before), step) && Instant(step) <= hi
  }

  lemma {:induction false} ClockedConcat(
      w: Proxy, s: System, lo: nat, a: seq<Step>, mid: nat, b: seq<Step>, hi: nat)
    requires Clocked(w, s, lo, a, mid) && Clocked(w, Reach(w, s, a), mid, b, hi)
    ensures Clocked(w, s, lo, a + b, hi)
    decreases |b|
  {
    if b == [] {
      assert a + b == a;
    } else {
      var before := b[..|b| - 1];
      assert (a + b)[..|a + b| - 1] == a + before;
      ClockedConcat(w, s, lo, a, mid, before, Instant(b[|b| - 1]));
      ReachConcat(w, s, a, before);
    }
  }

  /** Steps on time that lead from one state to another. */
  ghost predicate Course(w: Proxy, s: System, lo: nat, steps: seq<Step>, t: System, hi: nat) {
    Clocked(w, s, lo, steps, hi) && Reach(w, s, steps) == t
  }

  lemma CourseStep(w: Proxy, s: System, lo: nat, step: Step)
    requires OnTime(w, s, step) && lo <= Instant(step)
    ensures Course(w, s, lo, [step], Next(w, s, step), Instant(step))
  {
    assert [step][..0] == [];
  }

  lemma CourseConcat(
      w: Proxy, s: System, lo: nat, a: seq<Step>, t: System, mid: nat, b: seq<Step>, u: System, hi: nat)
    requires Course(w, s, lo, a, t, mid) && Course(w, t, mid, b, u, hi)
    ensures Course(w, s, lo, a + b, u, hi)
  {
    ClockedConcat(w, s, lo, a, mid, b, hi);
    ReachConcat(w, s, a, b);
  }

  // ------------------------------------------------------------------------------------------------
  // Draining

  /** The most steps a request can still take before its end: two for each attempt left, less one already taken, and one
      to leave. */
  function StepsLeft(f: Flight): nat {
    if f.retries > f.req.p.maxAttempts then 1
    else 2 * (f.req.p.maxAttempts - f.retries) + if f.url.Some? then 0 else 1
  }

  ghost function SomeId(m: map<nat, Flight>): (id: nat)
    requires m != map[]
    ensures id in m
  {
    var id :| id in m;
    id
  }

  /** The steps left to all requests in flight together. */
  ghost function Budget(m: map<nat, Flight>): nat
    decreases |m|
  {
    if m == map[] then 0
    else
      Removed(m, SomeId(m));
      StepsLeft(m[SomeId(m)]) + Budget(m - {SomeId(m)})
  }

  lemma {:induction false} BudgetSplit(m: map<nat, Flight>, id: nat)
    requires id in m
    ensures Budget(m) == StepsLeft(m[id]) + Budget(m - {id})
    decreases |m|
  {
    var j := SomeId(m);
    if j != id {
      Removed(m, j);
      Removed(m, id);
      BudgetSplit(m - {j}, id);
      BudgetSplit(m - {id}, j);
      assert m - {j} - {id} == m - {id} - {j};
    }
  }

  lemma BudgetChange(m: map<nat, Flight>, id: nat, f: Flight)
    requires id in m
    ensures Budget(m[id := f]) == Budget(m) - StepsLeft(m[id]) + StepsLeft(f)
  {
    BudgetSplit(m, id);
    BudgetSplit(m[id := f], id);
    assert m[id := f] - {id} == m - {id};
  }

  ghost predicate InflightAtMost(inflight: map<nat, Flight>, m: nat) {
    forall id :: id in inflight ==> inflight[id].req.p.maxAttempts <= m
  }

  /** However the requests are told apart, each has at most 2 * m + 1 steps left if none has more than m attempts. */
  lemma {:induction false} BudgetBound(inflight: map<nat, Flight>, m: nat)
    requires InflightAtMost(inflight, m)
    ensures Budget(inflight) <= |inflight| * (2 * m + 1)
    decreases |inflight|
  {
    if inflight != map[] {
      var id := SomeId(inflight);
      Removed(inflight, id);
      BudgetBound(inflight - {id}, m);
      MulStep(|inflight| - 1, 2 * m + 1);
    }
  }

  /** A step of a request in flight other than a 304 that found nothing cached. */
  predicate Drains(w: Proxy, s: System, step: Step) {
    !step.Arrive? && Enabled(w, s, step) && (step.Finish? ==> !Miss(step.r))
  }

  /** Each such step uses up some of the budget. */
  lemma StepCosts(w: Proxy, s: System, step: Step)
    requires Drains(w, s, step) && Occupied(w, s)
    ensures Budget(Next(w, s, step).inflight) < Budget(s.inflight)
  {
    var f := s.inflight[step.id];
    assert Looping(f);
    BudgetSplit(s.inflight, step.id);
    match step {
      case UseUp(_, _) =>
      case Choose(id, at) => BudgetChange(s.inflight, id, f.(url := Fate(w.site, s.tables, f.req.o), at := at));
      case Finish(id, r) =>
        BudgetChange(s.inflight, id, Onwards(f, r));
        if Onwards(f, r).trip.reply == Running {
          FinishCosts(f, r);
        }
    }
  }

  lemma FinishCosts(f: Flight, r: Round)
    requires Looping(f) && f.url.Some? && !Miss(r) && Onwards(f, r).trip.reply == Running
    ensures StepsLeft(Onwards(f, r)) < StepsLeft(f)
  {
  }

  /** Such steps, taken one after the other. */
  ghost predicate Draining(w: Proxy, s: System, steps: seq<Step>) {
    forall i :: 0 <= i < |steps| ==> Drains(w, Reach(w, s, steps[..i]), steps[i])
  }

  lemma {:induction false} DrainCosts(w: Proxy, s: System, steps: seq<Step>)
    requires Occupied(w, s) && Draining(w, s, steps)
    ensures Occupied(w, Reach(w, s, steps))
    ensures |steps| + Budget(Reach(w, s, steps).inflight) <= Budget(s.inflight)
    decreases |steps|
  {
    if steps != [] {
      var front, last := steps[..|steps| - 1], steps[|steps| - 1];
      assert forall i :: 0 <= i <= |front| ==> front[..i] == steps[..i];
      DrainCosts(w, s, front);
      StepCosts(w, Reach(w, s, front), last);
      OccupiedNext(w, Reach(w, s, front), last);
    }
  }

  ghost predicate AttemptsAtMost(steps: seq<Step>, m: nat) {
    forall i :: 0 <= i < |steps| && steps[i].Arrive? ==> steps[i].req.p.maxAttempts <= m
  }

  lemma {:induction false} InflightAttempts(w: Proxy, steps: seq<Step>, m: nat)
    requires AttemptsAtMost(steps, m)
    ensures InflightAtMost(Reach(w, START, steps).inflight, m)
    decreases |steps|
  {
    if steps != [] {
      var before, step := steps[..|steps| - 1], steps[|steps| - 1];
      InflightAttempts(w, before, m);
      if step.Arrive? {
        assert step.req.p.maxAttempts <= m;
      }
    }
  }

  /** All requests inside have come to the end of their waits. */
  ghost predicate ReadyBy(m: map<nat, Flight>, at: nat) {
    forall id :: id in m ==> m[id].at <= at
  }

  /** A step that can be taken by a request in flight and leads towards its end: choosing a URL, a transport answer, or
      leaving with its attempts used up. */
  lemma EndingStep(w: Proxy, s: System, id: nat, at: nat) returns (step: Step)
    requires id in s.inflight && s.inflight[id].at <= at
    ensures Drains(w, s, step) && OnTime(w, s, step) && Instant(step) == at
    ensures ReadyBy(s.inflight, at) ==> ReadyBy(Next(w, s, step).inflight, at)
  {
    var f := s.inflight[id];
    if f.url.Some? {
      step := Finish(id, Round([], [], f.at, Response(200, false), at, []));
    } else if f.retries < f.req.p.maxAttempts {
      step := Choose(id, at);
    } else {
      step := UseUp(id, at);
    }
  }

  /** No step of this kind can be taken exactly if nothing is in flight. */
  lemma DrainedIffEmpty(w: Proxy, s: System)
    ensures s.inflight == map[] <==> forall step: Step :: !Drains(w, s, step)
  {
    if s.inflight != map[] {
      var id := SomeId(s.inflight);
      var step := EndingStep(w, s, id, s.inflight[id].at);
      assert Drains(w, s, step);
    }
  }

  /** From any reachable state, whatever panics and in whatever order they take their steps, the requests in flight are
      gone after at most 2 * m + 1 steps for each permit: no run of theirs is longer, and while one of them is inside,
      some step can be taken. */
  lemma {:induction false} DrainsWithin(w: Proxy, before: seq<Step>, m: nat, steps: seq<Step>)
    requires AttemptsAtMost(before, m)
    requires Draining(w, Reach(w, START, before), steps)
    ensures |steps| <= w.pool * (2 * m + 1)
    ensures
      var end := Reach(w, Reach(w, START, before), steps);
      end.inflight == map[] <==> forall step: Step :: !Drains(w, end, step)
  {
    var s := Reach(w, START, before);
    AlwaysOccupied(w, before);
    DrainCosts(w, s, steps);
    InflightAttempts(w, before, m);
    BudgetBound(s.inflight, m);
    MulMono(|s.inflight|, w.pool, 2 * m + 1);
    DrainedIffEmpty(w, Reach(w, s, steps));
  }

  // ------------------------------------------------------------------------------------------------
  // Recovery

  lemma {:induction false} Latest(m: map<nat, Flight>, from: nat) returns (at: nat)
    ensures at >= from && ReadyBy(m, at)
    decreases |m|
  {
    if m == map[] {
      at := from;
    } else {
      var id := SomeId(m);
      Removed(m, id);
      var other := Latest(m - {id}, from);
      at := if m[id].at > other then m[id].at else other;
      forall j | j in m
        ensures m[j].at <= at
      {
        assert j == id || j in m - {id};
      }
    }
  }

  lemma {:induction false} Drain(w: Proxy, s: System, at: nat) returns (more: seq<Step>)
    requires Occupied(w, s) && ReadyBy(s.inflight, at)
    ensures forall i :: 0 <= i < |more| ==> !more[i].Arrive?
    ensures Clocked(w, s, at, more, at) && Reach(w, s, more).inflight == map[]
    decreases Budget(s.inflight)
  {
    more := [];
    if s.inflight != map[] {
      var step := EndingStep(w, s, SomeId(s.inflight), at);
      var next := Next(w, s, step);
      StepCosts(w, s, step);
      OccupiedNext(w, s, step);
      var rest := Drain(w, next, at);
      CourseStep(w, s, at, step);
      ClockedConcat(w, s, at, [step], at, rest, at);
      ReachConcat(w, s, [step], rest);
      more := [step] + rest;
    }
  }

  /** However far a run has come, from any later instant the requests in flight can end, on time and one after the
      other, so that an admission follows. */
  lemma {:induction false} CanAlwaysRecover(w: Proxy, key: string, steps: seq<Step>, from: nat)
    returns (more: seq<Step>, done: nat, at: nat)
    requires NoPanic(w, key, steps)
    ensures Clocked(w, Reach(w, START, steps), from, more, done) && from <= done <= at
    ensures forall i :: 0 <= i < |more| ==> !more[i].Arrive?
    ensures Reach(w, START, steps + more).inflight == map[] && LetsIn(Reach(w, START, steps + more), key, at)
  {
    var s := Reach(w, START, steps);
    AlwaysOccupied(w, steps);
    done := Latest(s.inflight, from);
    more := Drain(w, s, done);
    assert [] + more == more;
    ClockedConcat(w, s, from, [], done, more, done);
    ReachConcat(w, START, steps, more);
    var end := Reach(w, START, steps + more);
    at := if key in end.breakers && end.breakers[key].openUntil > done then end.breakers[key].openUntil else done;
    NeverWedges(w, key, steps + more, at);
  }
}
