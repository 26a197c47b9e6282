/** Each request of the concurrent system is a run of the retry loop on its own attempts and on what others did to its
    breaker between them, and the outcomes that breakers see are accounted for by the requests that left and by the
    responses that found nothing cached. */
module ProxyAccounts {
  import opened BreakerHistory
  import opened CircuitBreakers
  import opened Options
  import opened ProxyLaws
  import opened ProxyRequests
  import opened ProxySystem
  import opened Upstreams

  // ------------------------------------------------------------------------------------------------
  // The loop, turn by turn

  /** Where the loop stands after the turns of `rounds`, before it looks at whether its attempts are used up. */
  function Walk(p: Params, rounds: seq<Round>): (at: (nat, Trip)) {
    if rounds == [] then (0, NOTHING_YET)
    else
      var (retries, t) := Walk(p, rounds[..|rounds| - 1]);
      if t.reply != Running || retries >= p.maxAttempts then (retries, t)
      else (RetriesAfter(retries, rounds[|rounds| - 1]), Further(p, retries, t, rounds[|rounds| - 1]))
  }

  /** What the loop comes to from there if no more turns follow. */
  function Settle(p: Params, retries: nat, t: Trip): Trip {
    if t.reply == Running && retries >= p.maxAttempts then Exhausted(p, t) else t
  }

  /** All turns were taken: the loop had not ended before any of them. */
  predicate Walked(p: Params, rounds: seq<Round>) {
    Walk(p, rounds).1.calls == |rounds|
  }

  lemma {:induction false} WalkCalls(p: Params, rounds: seq<Round>)
    ensures Walk(p, rounds).1.calls <= |rounds|
    ensures rounds != [] && Walked(p, rounds) ==>
              var front := rounds[..|rounds| - 1];
              Walked(p, front) && Walk(p, front).1.reply == Running && Walk(p, front).0 < p.maxAttempts
    decreases |rounds|
  {
    if rounds != [] {
      WalkCalls(p, rounds[..|rounds| - 1]);
    }
  }

  /** The loop as a whole passes through each of its turns. */
  lemma {:induction false} TravelFromWalk(p: Params, rounds: seq<Round>, i: nat)
    requires i <= |rounds| && Walked(p, rounds[..i])
    ensures
      var (retries, t) := Walk(p, rounds[..i]);
      Whole(p, rounds) == if t.reply == Running then Travel(p, retries, t, rounds) else t
    decreases i
  {
    if i > 0 {
      assert rounds[..i][..i - 1] == rounds[..i - 1];
      WalkCalls(p, rounds[..i]);
      TravelFromWalk(p, rounds, i - 1);
    }
  }

  lemma WalkIsWhole(p: Params, rounds: seq<Round>)
    requires Walked(p, rounds)
    ensures Whole(p, rounds) == Settle(p, Walk(p, rounds).0, Walk(p, rounds).1)
  {
    assert rounds[..|rounds|] == rounds;
    TravelFromWalk(p, rounds, |rounds|);
  }

  /** What happens once the attempts are used up plays no part before. */
  lemma {:induction false} WalkBeforeLate(p: Params, q: Params, rounds: seq<Round>)
    requires q == p.(late := q.late, lateAt := q.lateAt)
    ensures Walk(q, rounds) == Walk(p, rounds)
    decreases |rounds|
  {
    if rounds != [] {
      WalkBeforeLate(p, q, rounds[..|rounds| - 1]);
    }
  }

  // ------------------------------------------------------------------------------------------------
  // What happens to breakers

  /** What a step does to the breaker of `key`. */
  function EventsOf(w: Proxy, s: System, step: Step, key: string): seq<Event> {
    if !Enabled(w, s, step) then []
    else match step
      case Arrive(_, req, at) => if Key(req) == key then [Attempt(at)] else []
      case Choose(_, _) => []
      case Finish(id, r) =>
        var f := s.inflight[id];
        if Key(f.req) == key then Recorded(f.req.p, f.retries, r) else []
      case UseUp(id, at) => if Key(s.inflight[id].req) == key then [Failure(at)] else []
  }

  /** A breaker does what its events say. */
  lemma BreakerFollows(w: Proxy, s: System, step: Step, key: string)
    requires Occupied(w, s) && key in s.breakers
    ensures key in Next(w, s, step).breakers
    ensures Next(w, s, step).breakers[key] == Run(s.breakers[key], EventsOf(w, s, step, key))
  {
    var es := EventsOf(w, s, step, key);
    if |es| == 1 {
      RunRecorded(s.breakers[key], es);
    }
  }

  /** All that has happened to the breaker of `key`. */
  function Seen(w: Proxy, steps: seq<Step>, key: string): seq<Event> {
    if steps == [] then []
    else
      var before := steps[..|steps| - 1];
      Seen(w, before, key) + EventsOf(w, Reach(w, START, before), steps[|steps| - 1], key)
  }

  /** The configuration and the instant of the first request that came to the breaker of `key`. */
  function Founded(w: Proxy, steps: seq<Step>, key: string): Option<(Config, nat)> {
    if steps == [] then None
    else
      var before, step := steps[..|steps| - 1], steps[|steps| - 1];
      if Founded(w, before, key).Some? then Founded(w, before, key)
      else if step.Arrive? && Key(step.req) == key && Enabled(w, Reach(w, START, before), step)
      then Some((step.req.cfg, step.at))
      else None
  }

  /** A breaker is there from its first request on, under that request's configuration, and does what all its requests
      together do to it. */
  ghost predicate Historic(w: Proxy, steps: seq<Step>, key: string) {
    var s := Reach(w, START, steps);
    match Founded(w, steps, key)
    case None => key !in s.breakers && Seen(w, steps, key) == []
    case Some((cfg, at)) => key in s.breakers && s.breakers[key] == Run(Fresh(cfg, at), Seen(w, steps, key))
  }

  lemma BreakerAppears(w: Proxy, s: System, step: Step, key: string)
    requires Occupied(w, s) && key !in s.breakers
    ensures
      var comes := step.Arrive? && Key(step.req) == key && Enabled(w, s, step);
      && (key in Next(w, s, step).breakers <==> comes)
      && EventsOf(w, s, step, key) == (if comes then [Attempt(step.at)] else [])
      && (comes ==> Next(w, s, step).breakers[key] == Attempted(Fresh(step.req.cfg, step.at), step.at))
  {
  }

  lemma {:induction false} BreakersAreHistoric(w: Proxy, steps: seq<Step>, key: string)
    ensures Historic(w, steps, key)
    decreases |steps|
  {
    if steps != [] {
      var before, step := steps[..|steps| - 1], steps[|steps| - 1];
      var s := Reach(w, START, before);
      BreakersAreHistoric(w, before, key);
      AlwaysOccupied(w, before);
      if key in s.breakers {
        var (cfg, at) := Founded(w, before, key).value;
        BreakerFollows(w, s, step, key);
        RunConcat(Fresh(cfg, at), Seen(w, before, key), EventsOf(w, s, step, key));
      } else {
        BreakerAppears(w, s, step, key);
        if EventsOf(w, s, step, key) != [] {
          assert [] + [Attempt(step.at)] == [Attempt(step.at)];
          RunRecorded(Fresh(step.req.cfg, step.at), [Attempt(step.at)]);
        }
      }
    }
  }

  /** In every interleaving a request is let in exactly as the history of its breaker says. */
  lemma LetInIff(w: Proxy, steps: seq<Step>, key: string, at: nat)
    ensures
      var seen := Seen(w, steps, key);
      LetsIn(Reach(w, START, steps), key, at) <==>
        match Founded(w, steps, key)
        case None => true
        case Some((cfg, _)) =>
          || Few(cfg, FailuresSinceSuccess(seen))
          || (Probes(cfg, seen) == 0 && DueAt(cfg, seen, at))
          || 1 <= Probes(cfg, seen) <= cfg.halfOpenAttempts
  {
    BreakersAreHistoric(w, steps, key);
    if Founded(w, steps, key).Some? {
      var (cfg, start) := Founded(w, steps, key).value;
      AdmittedIff(cfg, start, Seen(w, steps, key), at);
    }
  }

  // ------------------------------------------------------------------------------------------------
  // Requests in flight

  /** The turns that a request took since it was last admitted, with what others did to its breaker before each, the
      breaker as it was then, and what others did to it since its last turn. */
  datatype Story = Story(turns: seq<Round>, admitted: Breaker, since: seq<Event>)

  /** The turn that a step is for its request. */
  function TurnIn(w: Proxy, s: System, step: Step, others: seq<Event>): seq<Round> {
    match step
    case Finish(_, r) => [r.(others := others)]
    case Choose(id, at) =>
      if id in s.inflight && Fate(w.site, s.tables, s.inflight[id].req.o).None?
      then [Round([], [], at, NotSent, at, others)] else []
    case _ => []
  }

  function Told(w: Proxy, s: System, step: Step, id: nat, t: Story): Story {
    if !Enabled(w, s, step) then t
    else if step.id != id then
      t.(since := t.since + if id in s.inflight then EventsOf(w, s, step, Key(s.inflight[id].req)) else [])
    else if step.Arrive? then Story([], Attempted(BreakerOf(s, step.req, step.at), step.at), [])
    else
      var turn := TurnIn(w, s, step, t.since);
      if turn == [] then t else Story(t.turns + turn, t.admitted, [])
  }

  const NO_STORY := Story([], Fresh(Config(0, 0, 0), 0), [])

  function StoryOf(w: Proxy, steps: seq<Step>, id: nat): Story {
    if steps == [] then NO_STORY
    else
      var before := steps[..|steps| - 1];
      Told(w, Reach(w, START, before), steps[|steps| - 1], id, StoryOf(w, before, id))
  }

  /** The request is where the loop stands after its turns, and its breaker has seen what the loop's log says and what
      others did since. */
  ghost predicate TrueStory(f: Flight, b: Breaker, t: Story) {
    var (retries, trip) := Walk(f.req.p, t.turns);
    && Walked(f.req.p, t.turns) && retries == f.retries && Quiet(trip) == f.trip && f.trip.reply == Running
    && b == Run(t.admitted, trip.log + t.since)
  }

  /** Events after a log and what came since are the log and what came since with them. */
  lemma RunOn(admitted: Breaker, log: seq<Event>, since: seq<Event>, es: seq<Event>)
    ensures Run(Run(admitted, log + since), es) == Run(admitted, log + (since + es))
  {
    RunConcat(admitted, log + since, es);
    assert log + since + es == log + (since + es);
  }

  lemma OthersTold(f: Flight, b: Breaker, t: Story, es: seq<Event>)
    requires TrueStory(f, b, t)
    ensures TrueStory(f, Run(b, es), t.(since := t.since + es))
  {
    RunOn(t.admitted, Walk(f.req.p, t.turns).1.log, t.since, es);
  }

  /** A turn does the same to a trip whatever its log, and adds to it what others and the request itself recorded. */
  lemma QuietTurn(p: Params, retries: nat, trip: Trip, r: Round)
    ensures Quiet(Further(p, retries, trip, r)) == Quiet(Further(p, retries, Quiet(trip), r.(others := [])))
    ensures Quiet(Further(p, retries, Quiet(trip), r)) == Quiet(Further(p, retries, trip, r))
    ensures Further(p, retries, trip, r).log == trip.log + (r.others + Recorded(p, retries, r))
  {
  }

  lemma WalkSnoc(p: Params, turns: seq<Round>, r: Round)
    requires Walked(p, turns) && Walk(p, turns).1.reply == Running && Walk(p, turns).0 < p.maxAttempts
    ensures Walked(p, turns + [r])
    ensures Walk(p, turns + [r])
            == (RetriesAfter(Walk(p, turns).0, r), Further(p, Walk(p, turns).0, Walk(p, turns).1, r))
  {
    assert (turns + [r])[..|turns|] == turns;
  }

  /** A turn of the quiet trip is the turn of the trip with its log. */
  lemma WalkOn(f: Flight, b: Breaker, t: Story, r: Round)
    requires TrueStory(f, b, t) && f.retries < f.req.p.maxAttempts && r.others == t.since
    ensures
      var (retries, trip) := Walk(f.req.p, t.turns + [r]);
      && Walked(f.req.p, t.turns + [r]) && retries == RetriesAfter(f.retries, r)
      && Quiet(trip) == Quiet(Further(f.req.p, f.retries, f.trip, r))
      && Run(b, Recorded(f.req.p, f.retries, r)) == Run(t.admitted, trip.log)
  {
    var trip := Walk(f.req.p, t.turns).1;
    WalkSnoc(f.req.p, t.turns, r);
    QuietTurn(f.req.p, f.retries, trip, r);
    RunOn(t.admitted, trip.log, t.since, Recorded(f.req.p, f.retries, r));
  }

  lemma TurnTold(f: Flight, b: Breaker, t: Story, r: Round)
    requires TrueStory(f, b, t) && f.retries < f.req.p.maxAttempts && Onwards(f, r).trip.reply == Running
    ensures
      var turn := r.(others := t.since);
      TrueStory(Onwards(f, r), Run(b, Recorded(f.req.p, f.retries, r)), Story(t.turns + [turn], t.admitted, []))
  {
    var turn := r.(others := t.since);
    WalkOn(f, b, t, turn);
    OthersDoNotMatter(f, r, t.since);
    NothingSince(Walk(f.req.p, t.turns + [turn]).1.log);
  }

  lemma NothingSince(log: seq<Event>)
    ensures log + [] == log
  {
  }

  lemma OthersDoNotMatter(f: Flight, r: Round, others: seq<Event>)
    ensures Onwards(f, r.(others := others)) == Onwards(f, r)
    ensures Recorded(f.req.p, f.retries, r.(others := others)) == Recorded(f.req.p, f.retries, r)
  {
  }

  lemma ChooseTold(f: Flight, g: Flight, b: Breaker, t: Story)
    requires TrueStory(f, b, t) && g.req == f.req && g.retries == f.retries && g.trip == f.trip
    ensures TrueStory(g, b, t)
  {
  }

  /** The story of a request that is inside is true of it and its breaker. */
  ghost predicate TrueOf(s: System, id: nat, t: Story) {
    && id in s.inflight && Key(s.inflight[id].req) in s.breakers
    && TrueStory(s.inflight[id], s.breakers[Key(s.inflight[id].req)], t)
  }

  lemma OthersStep(w: Proxy, s: System, step: Step, id: nat, t: Story)
    requires Occupied(w, s) && TrueOf(s, id, t) && Enabled(w, s, step) && step.id != id
    ensures TrueOf(Next(w, s, step), id, Told(w, s, step, id, t))
  {
    var f := s.inflight[id];
    BreakerFollows(w, s, step, Key(f.req));
    OthersTold(f, s.breakers[Key(f.req)], t, EventsOf(w, s, step, Key(f.req)));
    assert id in Next(w, s, step).inflight && Next(w, s, step).inflight[id] == f;
  }

  lemma OwnTurn(w: Proxy, s: System, id: nat, r: Round, t: Story)
    requires Occupied(w, s) && TrueOf(s, id, t) && Enabled(w, s, Finish(id, r))
    requires id in Finished(s, id, r).inflight
    ensures TrueOf(Finished(s, id, r), id, Told(w, s, Finish(id, r), id, t))
  {
    var f := s.inflight[id];
    assert Looping(f);
    TurnTold(f, s.breakers[Key(f.req)], t, r);
  }

  lemma OwnChoice(w: Proxy, s: System, id: nat, at: nat, t: Story)
    requires Occupied(w, s) && TrueOf(s, id, t) && Enabled(w, s, Choose(id, at))
    requires id in Chose(w, s, id, at).inflight
    ensures TrueOf(Chose(w, s, id, at), id, Told(w, s, Choose(id, at), id, t))
  {
    var f := s.inflight[id];
    ChooseTold(f, f.(url := Fate(w.site, s.tables, f.req.o), at := at), s.breakers[Key(f.req)], t);
  }

  /** The story of a request goes on with each step, its own or another's. */
  lemma StoryGoesOn(w: Proxy, s: System, step: Step, id: nat, t: Story)
    requires Occupied(w, s) && TrueOf(s, id, t) && id in Next(w, s, step).inflight
    ensures TrueOf(Next(w, s, step), id, Told(w, s, step, id, t))
  {
    if Enabled(w, s, step) {
      if step.id != id {
        OthersStep(w, s, step, id, t);
      } else if step.Finish? {
        OwnTurn(w, s, id, step.r, t);
      } else {
        OwnChoice(w, s, id, step.at, t);
      }
    }
  }

  lemma StoryBegins(w: Proxy, s: System, step: Step, id: nat, t: Story)
    requires Occupied(w, s) && id !in s.inflight && id in Next(w, s, step).inflight
    ensures TrueOf(Next(w, s, step), id, Told(w, s, step, id, t))
  {
    var nothing: seq<Event> := [];
    assert nothing + nothing == nothing;
  }

  /** In every run every request in flight has a true story. */
  lemma {:induction false} FlightsWalk(w: Proxy, steps: seq<Step>, id: nat)
    requires id in Reach(w, START, steps).inflight
    ensures TrueOf(Reach(w, START, steps), id, StoryOf(w, steps, id))
    decreases |steps|
  {
    if steps != [] {
      var before, step := steps[..|steps| - 1], steps[|steps| - 1];
      var s := Reach(w, START, before);
      AlwaysOccupied(w, before);
      if id in s.inflight {
        FlightsWalk(w, before, id);
        StoryGoesOn(w, s, step, id, StoryOf(w, before, id));
      } else {
        StoryBegins(w, s, step, id, StoryOf(w, before, id));
      }
    }
  }

  /** A request in flight has done what the loop does on its own turns, and its breaker has done what the loop says that
      it saw, followed by what others did since: all that is proved of the loop holds of it. */
  lemma {:induction false} FlightsAreWhole(w: Proxy, steps: seq<Step>, id: nat)
    requires id in Reach(w, START, steps).inflight
    ensures
      var s, t := Reach(w, START, steps), StoryOf(w, steps, id);
      var f := s.inflight[id];
      var trip := Walk(f.req.p, t.turns).1;
      && Quiet(trip) == f.trip && trip.calls == |t.turns|
      && Whole(f.req.p, t.turns) == Settle(f.req.p, f.retries, trip)
      && Key(f.req) in s.breakers && s.breakers[Key(f.req)] == Run(t.admitted, trip.log + t.since)
  {
    FlightsWalk(w, steps, id);
    WalkIsWhole(Reach(w, START, steps).inflight[id].req.p, StoryOf(w, steps, id).turns);
  }

  // ------------------------------------------------------------------------------------------------
  // Departures

  /** What the loop ends with for a request that leaves in `step`, after its story up to that step. */
  function EndOf(f: Flight, step: Step, t: Story): Trip {
    Whole(if step.UseUp? then f.req.p.(late := t.since, lateAt := step.at) else f.req.p, t.turns)
  }

  /** The last outcome of a request that did not crash. */
  function FinalOutcome(end: Trip): seq<Event> {
    if end.reply == Crashed || end.own == [] then [] else [end.own[|end.own| - 1]]
  }

  /** A request that leaves: the loop on its turns has ended, its breaker has seen exactly the loop's log since the
      request was admitted, and what the last step did to it is the final outcome, none for a crash. */
  ghost predicate Departs(b: Breaker, next: Breaker, admitted: Breaker, turns: seq<Round>, end: Trip) {
    && end.reply != Running && end.calls == |turns|
    && |end.own| == Misses(turns, |turns|) + |FinalOutcome(end)|
    && (end.reply == Crashed <==> FinalOutcome(end) == [])
    && next == Run(b, FinalOutcome(end)) && next == Run(admitted, end.log)
  }

  lemma UsedUpEnds(b: Breaker, f: Flight, t: Story, at: nat)
    requires TrueStory(f, b, t) && f.retries >= f.req.p.maxAttempts
    ensures
      var end := Whole(f.req.p.(late := t.since, lateAt := at), t.turns);
      Departs(b, Failed(b, at), t.admitted, t.turns, end) && end.reply == ServiceUnavailable
  {
    var q := f.req.p.(late := t.since, lateAt := at);
    var trip := Walk(f.req.p, t.turns).1;
    WalkBeforeLate(f.req.p, q, t.turns);
    WalkIsWhole(q, t.turns);
    OutcomesRecorded(q, t.turns);
    RunRecorded(b, [Failure(at)]);
    RunOn(t.admitted, trip.log, t.since, [Failure(at)]);
  }

  lemma WalkEnds(p: Params, turns: seq<Round>)
    requires Walked(p, turns) && Walk(p, turns).1.reply != Running
    ensures Whole(p, turns) == Walk(p, turns).1
  {
    WalkIsWhole(p, turns);
  }

  lemma TurnEnds(b: Breaker, f: Flight, t: Story, r: Round)
    requires TrueStory(f, b, t) && f.retries < f.req.p.maxAttempts && r.others == t.since
    requires Further(f.req.p, f.retries, f.trip, r).reply != Running
    ensures
      var turns := t.turns + [r];
      Departs(b, Run(b, Recorded(f.req.p, f.retries, r)), t.admitted, turns, Whole(f.req.p, turns))
  {
    var turns, trip := t.turns + [r], Walk(f.req.p, t.turns).1;
    WalkOn(f, b, t, r);
    WalkSnoc(f.req.p, t.turns, r);
    FinalCount(f.req.p, turns);
    LastOwn(f.req.p, f.retries, trip, r);
    DepartsFrom(b, t.admitted, turns, Further(f.req.p, f.retries, trip, r), Recorded(f.req.p, f.retries, r));
  }

  lemma FinalCount(p: Params, turns: seq<Round>)
    requires Walked(p, turns) && Walk(p, turns).1.reply != Running
    ensures Whole(p, turns) == Walk(p, turns).1
    ensures |Walk(p, turns).1.own| == Misses(turns, |turns|) + if Walk(p, turns).1.reply == Crashed then 0 else 1
  {
    WalkEnds(p, turns);
    OutcomesRecorded(p, turns);
  }

  lemma DepartsFrom(b: Breaker, admitted: Breaker, turns: seq<Round>, end: Trip, own: seq<Event>)
    requires end.reply != Running && end.calls == |turns|
    requires |end.own| == Misses(turns, |turns|) + if end.reply == Crashed then 0 else 1
    requires own == if end.reply == Crashed then [] else [end.own[|end.own| - 1]]
    requires Run(b, own) == Run(admitted, end.log)
    ensures Departs(b, Run(b, own), admitted, turns, end)
  {
  }

  /** The turn that ends a loop records its final outcome, or nothing if it crashes. */
  lemma LastOwn(p: Params, retries: nat, trip: Trip, r: Round)
    requires trip.reply == Running && Further(p, retries, trip, r).reply != Running
    ensures
      var end := Further(p, retries, trip, r);
      Recorded(p, retries, r) == if end.reply == Crashed then [] else [end.own[|end.own| - 1]]
  {
  }

  ghost predicate DepartsIn(w: Proxy, s: System, step: Step, t: Story) {
    && TrueOf(s, step.id, t)
    && var f, key, next := s.inflight[step.id], Key(s.inflight[step.id].req), Next(w, s, step);
       var told := Told(w, s, step, step.id, t);
       && key in next.breakers && told.admitted == t.admitted
       && Departs(s.breakers[key], next.breakers[key], t.admitted, told.turns, EndOf(f, step, told))
  }

  lemma DepartsUsedUp(w: Proxy, s: System, id: nat, at: nat, t: Story)
    requires Occupied(w, s) && TrueOf(s, id, t) && Enabled(w, s, UseUp(id, at))
    ensures DepartsIn(w, s, UseUp(id, at), t)
  {
    var f := s.inflight[id];
    UsedUpEnds(s.breakers[Key(f.req)], f, t, at);
  }

  lemma DepartsFinished(w: Proxy, s: System, id: nat, r: Round, t: Story)
    requires Occupied(w, s) && TrueOf(s, id, t) && Enabled(w, s, Finish(id, r))
    requires Onwards(s.inflight[id], r).trip.reply != Running
    ensures DepartsIn(w, s, Finish(id, r), t)
  {
    var f, turn := s.inflight[id], r.(others := t.since);
    assert Looping(f);
    OthersDoNotMatter(f, r, t.since);
    TurnEnds(s.breakers[Key(f.req)], f, t, turn);
  }

  lemma DepartsChoosing(w: Proxy, s: System, id: nat, at: nat, t: Story)
    requires Occupied(w, s) && TrueOf(s, id, t) && Enabled(w, s, Choose(id, at))
    requires Fate(w.site, s.tables, s.inflight[id].req.o).None?
    ensures DepartsIn(w, s, Choose(id, at), t)
  {
    var f, turn := s.inflight[id], Round([], [], at, NotSent, at, t.since);
    TurnEnds(s.breakers[Key(f.req)], f, t, turn);
  }

  /** A request leaves only when the loop on its own turns ends. The one thing that its last step does to its breaker is
      to record its final outcome, none if it crashes; since its admission the breaker has seen exactly the loop's
      log. */
  lemma {:induction false} DeparturesAreEnds(w: Proxy, steps: seq<Step>, step: Step)
    requires step.id in Reach(w, START, steps).inflight
    requires step.id !in Reach(w, START, steps + [step]).inflight
    ensures
      var s, next := Reach(w, START, steps), Reach(w, START, steps + [step]);
      var f, key := s.inflight[step.id], Key(s.inflight[step.id].req);
      var t := StoryOf(w, steps + [step], step.id);
      && key in s.breakers && key in next.breakers
      && Departs(s.breakers[key], next.breakers[key], t.admitted, t.turns, EndOf(f, step, t))
  {
    ReachSnoc(w, START, steps, step);
    assert (steps + [step])[..|steps|] == steps;
    AlwaysOccupied(w, steps);
    FlightsWalk(w, steps, step.id);
    var s, t := Reach(w, START, steps), StoryOf(w, steps, step.id);
    match step {
      case UseUp(id, at) => DepartsUsedUp(w, s, id, at, t);
      case Finish(id, r) => DepartsFinished(w, s, id, r, t);
      case Choose(id, at) => DepartsChoosing(w, s, id, at, t);
    }
  }

  // ------------------------------------------------------------------------------------------------
  // Conservation

  /** What has happened to the requests of a run so far. */
  datatype Ledger = Ledger(admitted: nat, outcomes: nat, misses: nat, crashed: nat)

  function Entry(w: Proxy, s: System, step: Step, l: Ledger): Ledger {
    if !Enabled(w, s, step) then l
    else match step
      case Arrive(_, req, at) => if Admits(BreakerOf(s, req, at), at) then l.(admitted := l.admitted + 1) else l
      case Choose(id, _) =>
        if Fate(w.site, s.tables, s.inflight[id].req.o).None? then l.(crashed := l.crashed + 1) else l
      case UseUp(_, _) => l.(outcomes := l.outcomes + 1)
      case Finish(id, r) =>
        var f := s.inflight[id];
        Ledger(l.admitted,
               l.outcomes + |Recorded(f.req.p, f.retries, r)|,
               l.misses + (if Miss(r) then 1 else 0),
               l.crashed + (if Onwards(f, r).trip.reply == Crashed then 1 else 0))
  }

  function Account(w: Proxy, steps: seq<Step>): Ledger {
    if steps == [] then Ledger(0, 0, 0, 0)
    else
      var before := steps[..|steps| - 1];
      Entry(w, Reach(w, START, before), steps[|steps| - 1], Account(w, before))
  }

  ghost predicate Balances(s: System, l: Ledger) {
    l.admitted + l.misses == |s.inflight| + l.outcomes + l.crashed
  }

  /** In every interleaving each admitted request is in flight, or has crashed, or has recorded exactly one outcome, not
      counting one success for each response that found nothing cached. */
  lemma {:induction false} OutcomesBalance(w: Proxy, steps: seq<Step>)
    ensures Balances(Reach(w, START, steps), Account(w, steps))
    decreases |steps|
  {
    if steps != [] {
      var before, step := steps[..|steps| - 1], steps[|steps| - 1];
      OutcomesBalance(w, before);
      AlwaysOccupied(w, before);
      StepBalances(w, Reach(w, START, before), step, Account(w, before));
    }
  }

  lemma StepBalances(w: Proxy, s: System, step: Step, l: Ledger)
    requires Occupied(w, s) && Balances(s, l)
    ensures Balances(Next(w, s, step), Entry(w, s, step, l))
  {
    if Enabled(w, s, step) {
      match step {
        case Arrive(id, req, at) => ArriveBalances(w, s, id, req, at, l);
        case UseUp(id, at) => UseUpBalances(w, s, id, at, l);
        case Choose(id, at) => ChooseBalances(w, s, id, at, l);
        case Finish(id, r) => FinishBalances(w, s, id, r, l);
      }
    }
  }

  lemma ArriveBalances(w: Proxy, s: System, id: nat, req: Request, at: nat, l: Ledger)
    requires Enabled(w, s, Arrive(id, req, at)) && Balances(s, l)
    ensures Balances(Arrived(s, id, req, at), Entry(w, s, Arrive(id, req, at), l))
  {
    Inserted(s.inflight, id, Flight(req, 0, NOTHING_YET, None, at));
  }

  lemma UseUpBalances(w: Proxy, s: System, id: nat, at: nat, l: Ledger)
    requires Enabled(w, s, UseUp(id, at)) && Balances(s, l)
    ensures Balances(UsedUp(s, id, at), Entry(w, s, UseUp(id, at), l))
  {
    Removed(s.inflight, id);
  }

  lemma ChooseBalances(w: Proxy, s: System, id: nat, at: nat, l: Ledger)
    requires Enabled(w, s, Choose(id, at)) && Balances(s, l)
    ensures Balances(Chose(w, s, id, at), Entry(w, s, Choose(id, at), l))
  {
    var f := s.inflight[id];
    Removed(s.inflight, id);
    Inserted(s.inflight, id, f.(url := Fate(w.site, s.tables, f.req.o), at := at));
  }

  lemma FinishBalances(w: Proxy, s: System, id: nat, r: Round, l: Ledger)
    requires Occupied(w, s) && Enabled(w, s, Finish(id, r)) && Balances(s, l)
    ensures Balances(Finished(s, id, r), Entry(w, s, Finish(id, r), l))
  {
    TurnAccounts(s.inflight[id], r);
    Removed(s.inflight, id);
    Inserted(s.inflight, id, Onwards(s.inflight[id], r));
  }

  /** A turn records one outcome if it is a miss or ends the loop, and none if the loop goes on or crashes. */
  lemma TurnAccounts(f: Flight, r: Round)
    requires Looping(f) && f.url.Some? && !r.result.NotSent?
    ensures
      var reply := Onwards(f, r).trip.reply;
      && |Recorded(f.req.p, f.retries, r)| == (if Miss(r) || (reply != Running && reply != Crashed) then 1 else 0)
      && (Miss(r) ==> reply == Running)
  {
  }
}
