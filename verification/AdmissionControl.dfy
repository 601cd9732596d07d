/** The SSH gateway's limits before login (apps/ssh-gateway/src/admission.ts): startup counters shared
    by every open connection, and a key lookup budget per source that a sweep may forget. */
module AdmissionControl {
  import opened Wrappers
  import opened TokenBucket

  /** What a connection is counted against, as a key told apart from others and nothing more. */
  datatype Source = Source(key: nat)

  /** Sources tracked at once. */
  const MAX_TRACKED_SOURCES: nat := 100_000

  datatype Limits = Limits(maxAuthTries: nat, maxStartups: nat, perSourceMaxStartups: nat, perSourceKeyLookupsPerMinute: nat)
  datatype Reason = MaxStartups | PerSourceStartups | LookupsSpent | TooManySources
  datatype Decision = Admitted(ticket: Ticket) | Refused(reason: Reason)

  class SourceState {
    /** Connections from this source not yet logged in. */
    var startups: int
    var lookups: int
    var refilledAt: nat
    /** Whose state this is, and the connections it counts. */
    ghost const source: Source
    ghost var open: set<Ticket>

    constructor (lookups: int, at: nat, ghost source: Source)
      ensures startups == 0 && this.lookups == lookups && refilledAt == at && this.source == source && open == {}
    {
      startups, this.lookups, refilledAt, this.source, open := 0, lookups, at, source, {};
    }

    ghost predicate Counts()
      reads this`startups, this`open
    {
      startups == |open|
    }

    function LevelAt(at: nat, budget: nat): int
      reads this`lookups, this`refilledAt
    {
      if refilledAt <= at then Refilled(lookups, at - refilledAt, budget) else lookups
    }

    method Refill(at: nat, budget: nat)
      requires refilledAt <= at
      modifies this`lookups, this`refilledAt
      ensures lookups == old(LevelAt(at, budget)) && refilledAt == at
    {
      lookups := Refilled(lookups, at - refilledAt, budget);
      refilledAt := at;
    }
  }

  /** One connection's standing before login. */
  class Ticket {
    const source: Source
    const state: SourceState
    var counted: bool
    var attempts: nat

    constructor (source: Source, state: SourceState)
      ensures this.source == source && this.state == state && counted && attempts == 0
    {
      this.source, this.state, counted, attempts := source, state, true, 0;
    }
  }

  lemma {:induction false} RefilledInRange(level: int, elapsed: nat, budget: nat)
    requires 0 <= level <= Full(budget)
    ensures 0 <= Refilled(level, elapsed, budget) <= Full(budget)
  {
    assert elapsed * budget >= 0;
  }

  /** What the sources' levels see of the operations: time passes for all of them, and one of them is
      used. */
  datatype Event = Passes(elapsed: nat) | Uses(source: Source, use: Use)
  type SourceLevels = imap<Source, int>

  ghost function At(levels: SourceLevels, src: Source): int {
    if src in levels then levels[src] else 0
  }

  /** The levels with one source's set, if it is to be. */
  ghost function SetIf(changed: bool, levels: SourceLevels, src: Source, level: int): SourceLevels {
    if changed then levels[src := level] else levels
  }

  /** What an event is to one source. */
  function StepOf(e: Event, src: Source): Step {
    match e
    case Passes(elapsed) => Step(elapsed, Nothing)
    case Uses(source, use) => Step(0, if src == source then use else Nothing)
  }

  function StepsOf(history: seq<Event>, src: Source): (steps: seq<Step>)
    ensures |steps| == |history|
  {
    seq(|history|, i requires 0 <= i < |history| => StepOf(history[i], src))
  }

  ghost function Once(levels: SourceLevels, e: Event, budget: nat): SourceLevels {
    match e
    case Passes(elapsed) => imap src: Source :: Refilled(At(levels, src), elapsed, budget)
    case Uses(source, use) => levels[source := Used(At(levels, source), use, budget)]
  }

  ghost function FullFor(src: Source, budget: nat): int {
    Full(budget)
  }

  /** The levels a history leaves of full budgets. */
  ghost function LevelsAfter(history: seq<Event>, budget: nat): SourceLevels {
    if history == [] then imap src: Source :: FullFor(src, budget)
    else Once(LevelsAfter(history[..|history| - 1], budget), history[|history| - 1], budget)
  }

  ghost predicate CanHappen(levels: SourceLevels, e: Event) {
    e.Uses? ==> UseOk(At(levels, e.source), e.use)
  }

  ghost predicate EventsOk(history: seq<Event>, budget: nat) {
    history == []
    || (&& EventsOk(history[..|history| - 1], budget)
        && CanHappen(LevelsAfter(history[..|history| - 1], budget), history[|history| - 1]))
  }

  function TimeOf(history: seq<Event>): nat {
    if history == [] then 0
    else TimeOf(history[..|history| - 1]) + (match history[|history| - 1] case Passes(elapsed) => elapsed case Uses(_, _) => 0)
  }

  /** The levels are those a history leaves, in so much time. */
  ghost predicate Accounts(history: seq<Event>, levels: SourceLevels, clock: nat, budget: nat) {
    levels == LevelsAfter(history, budget) && EventsOk(history, budget) && TimeOf(history) == clock
  }

  lemma {:induction false} OneMore(history: seq<Event>, levels: SourceLevels, clock: nat, e: Event, budget: nat)
    requires Accounts(history, levels, clock, budget) && CanHappen(levels, e)
    ensures Accounts(history + [e], Once(levels, e, budget), clock + if e.Passes? then e.elapsed else 0, budget)
  {
    assert (history + [e])[..|history|] == history;
  }

  /** What a history is to one source: a run of the token bucket. */
  lemma {:induction false} SourceSees(history: seq<Event>, src: Source, budget: nat)
    requires EventsOk(history, budget)
    ensures src in LevelsAfter(history, budget)
    ensures LevelsAfter(history, budget)[src] == LevelAfter(Full(budget), StepsOf(history, src), budget)
    ensures TakesOk(Full(budget), StepsOf(history, src), budget)
    ensures Elapsed(StepsOf(history, src)) == TimeOf(history)
  {
    if history != [] {
      var before, e := history[..|history| - 1], history[|history| - 1];
      var steps := StepsOf(history, src);
      SourceSees(before, src, budget);
      assert steps[..|steps| - 1] == StepsOf(before, src);
      LevelInRange(Full(budget), StepsOf(before, src), budget);
    }
  }

  function UsesIn(history: seq<Event>, e: Event, i: nat, j: nat): set<nat>
    requires i <= j <= |history|
  {
    set k | i <= k < j && history[k] == e
  }

  /** The net takes of a source over a stretch of the operations are its takes less its refunds. */
  lemma {:induction false} NetTakesCount(history: seq<Event>, src: Source, i: nat, j: nat)
    requires i <= j <= |history|
    ensures NetTakes(StepsOf(history, src)[i..j])
            == |UsesIn(history, Uses(src, Taken), i, j)| - |UsesIn(history, Uses(src, Refunded), i, j)|
  {
    if i < j {
      NetTakesCount(history, src, i, j - 1);
      var steps := StepsOf(history, src);
      assert steps[i..j][..j - 1 - i] == steps[i..j - 1] && steps[i..j][j - 1 - i] == steps[j - 1];
      OneMoreUse(history, Uses(src, Taken), i, j - 1);
      OneMoreUse(history, Uses(src, Refunded), i, j - 1);
    }
  }

  lemma {:induction false} OneMoreUse(history: seq<Event>, e: Event, i: nat, j: nat)
    requires i <= j < |history|
    ensures |UsesIn(history, e, i, j + 1)| == |UsesIn(history, e, i, j)| + if history[j] == e then 1 else 0
  {
    assert UsesIn(history, e, i, j + 1) == UsesIn(history, e, i, j) + if history[j] == e then {j} else {};
  }

  /** A minute in which a source took nothing leaves it its whole budget. */
  lemma {:induction false} RestedSource(history: seq<Event>, src: Source, i: nat, rest: nat, budget: nat)
    requires EventsOk(history, budget) && i <= |history| && forall k | i <= k < |history| :: history[k] != Uses(src, Taken)
    requires Elapsed(StepsOf(history, src)[i..]) + rest >= 60_000
    ensures src in LevelsAfter(history, budget)
    ensures Refilled(LevelsAfter(history, budget)[src], rest, budget) == budget * 60_000
  {
    var steps := StepsOf(history, src);
    SourceSees(history, src, budget);
    assert steps == steps[..i] + steps[i..];
    Split(Full(budget), steps[..i], steps[i..], budget);
    LevelInRange(Full(budget), steps[..i], budget);
    MinuteRefills(LevelAfter(Full(budget), steps[..i], budget), steps[i..], rest, budget);
  }

  class Admission {
    const limits: Limits
    var sources: map<Source, SourceState>
    var startups: int

    /** The connections neither logged in nor closed, every ticket and every source state there was,
        the latest instant the clock was read at, and what every operation so far was to the levels. */
    ghost var open: set<Ticket>
    ghost var tickets: set<Ticket>
    ghost var states: set<SourceState>
    ghost var clock: nat
    ghost var history: seq<Event>

    function Budget(): nat {
      limits.perSourceKeyLookupsPerMinute
    }

    /** Each source has a state of its own. */
    ghost predicate SourcesOk()
      reads this`sources, this`states
    {
      forall src | src in sources :: sources[src] in states && sources[src].source == src
    }

    ghost predicate BucketsOk()
      reads this`states, this`clock, states`lookups, states`refilledAt
    {
      forall s | s in states :: 0 <= s.lookups <= Full(Budget()) && s.refilledAt <= clock
    }

    /** Each connection that counts is counted at its source's state, and nowhere else. */
    ghost predicate TicketsOk()
      reads this`sources, this`states, this`tickets, this`open, states`open
    {
      && open <= tickets
      && (forall t | t in tickets :: t.state in states && t.state.source == t.source)
      && (forall t | t in open :: t.source in sources && sources[t.source] == t.state && t.state in states && t in t.state.open)
      && forall s, t | s in states && t in s.open :: t in open && t.state == s
    }

    ghost predicate CountedOk()
      reads this`tickets, this`open, tickets`counted
    {
      forall t | t in tickets :: t.counted <==> t in open
    }

    /** Startup conservation: the counts are of the connections neither logged in nor closed, at each
        source's state and overall, within both limits. */
    ghost predicate StateCountsOk()
      reads this`sources, this`states, states`startups, states`open
      requires SourcesOk()
    {
      && (forall s | s in states :: s.Counts())
      && forall src | src in sources :: sources[src].startups <= limits.perSourceMaxStartups
    }

    ghost predicate CountOk()
      reads this`startups, this`open
    {
      startups == |open| <= limits.maxStartups
    }

    ghost predicate StateOk()
      reads this`sources, this`startups, this`open, this`tickets, this`states, this`clock, states, tickets
    {
      SourcesOk() && BucketsOk() && TicketsOk() && CountedOk() && StateCountsOk() && CountOk()
    }

    /** The level of each source, tracked, forgotten or never seen, is the one the operations so far leave
        of a full budget. */
    ghost predicate Accounted()
      reads this`sources, this`states, this`clock, this`history, states`lookups, states`refilledAt
      requires SourcesOk()
    {
      Accounts(history, Levels(clock), clock, Budget())
    }

    ghost predicate Valid()
      reads this, states, tickets
    {
      StateOk() && Accounted()
    }

    /** A source's level at an instant: full when the source is not tracked. */
    ghost function LevelAt(src: Source, at: nat): int
      reads this`sources, this`states, states`lookups, states`refilledAt
      requires SourcesOk()
    {
      if src in sources then sources[src].LevelAt(at, Budget()) else Full(Budget())
    }

    /** Every source's level at an instant. */
    ghost function Levels(at: nat): imap<Source, int>
      reads this`sources, this`states, states`lookups, states`refilledAt
      requires SourcesOk()
    {
      imap src: Source :: LevelAt(src, at)
    }

    /** Nothing open, and a full budget. */
    ghost predicate Forgettable(state: SourceState, at: nat)
      reads state`startups, state`lookups, state`refilledAt
    {
      state.startups == 0 && state.LevelAt(at, Budget()) >= Full(Budget())
    }

    /** The sources a sweep keeps: those with something open, or a budget not full. */
    ghost function Unswept(at: nat): set<Source>
      reads this`sources, this`states, states`startups, states`lookups, states`refilledAt
      requires SourcesOk()
    {
      set src | src in sources && !Forgettable(sources[src], at)
    }

    /** Between operations a level only refills, by its budget a minute up to its budget, and the states
        of the tickets not released are live. A source not tracked has all its budget. */
    lemma {:induction false} TimePasses(src: Source, at: nat, later: nat)
      requires Valid() && clock <= at <= later
      ensures LevelAt(src, later) == Refilled(LevelAt(src, at), later - at, Budget())
      ensures LevelAt(src, later)
              == var refilled := LevelAt(src, at) + (later - at) * limits.perSourceKeyLookupsPerMinute;
                 if refilled < limits.perSourceKeyLookupsPerMinute * 60_000 then refilled
                 else limits.perSourceKeyLookupsPerMinute * 60_000
      ensures 0 <= LevelAt(src, at) <= limits.perSourceKeyLookupsPerMinute * 60_000
      ensures src !in sources ==> LevelAt(src, at) == limits.perSourceKeyLookupsPerMinute * 60_000
      ensures forall t | t in open :: IsLive(t.state)
    {
      LevelPasses(src, at, later);
    }

    lemma {:induction false} LevelPasses(src: Source, at: nat, later: nat)
      requires SourcesOk() && BucketsOk() && clock <= at <= later
      ensures LevelAt(src, later) == Refilled(LevelAt(src, at), later - at, Budget())
      ensures 0 <= LevelAt(src, at) <= Full(Budget())
    {
      if src in sources {
        var s := sources[src];
        RefillTwice(s.lookups, at - s.refilledAt, later - at, Budget());
        RefilledInRange(s.lookups, at - s.refilledAt, Budget());
      } else {
        RefillFull(later - at, Budget());
      }
    }

    lemma {:induction false} LevelsPass(at: nat)
      requires SourcesOk() && BucketsOk() && clock <= at
      ensures Levels(at) == Once(Levels(clock), Passes(at - clock), Budget())
    {
      forall src: Source ensures LevelAt(src, at) == Refilled(At(Levels(clock), src), at - clock, Budget()) {
        LevelPasses(src, clock, at);
        assert src in Levels(clock);
      }
    }

    /** The operations so far are, to each source, a run of the token bucket that ends at its level. */
    lemma {:induction false} RunsTheBucket(src: Source)
      requires Valid()
      ensures LevelAt(src, clock) == LevelAfter(Full(Budget()), StepsOf(history, src), Budget())
      ensures TakesOk(Full(Budget()), StepsOf(history, src), Budget()) && Elapsed(StepsOf(history, src)) == clock
    {
      SourceSees(history, src, Budget());
      assert src in Levels(clock);
    }

    /** Over any stretch of the operations, the lookups a source took less those given back come to no
        more than its budget and what the time between the first and the last of them refills, whatever
        was swept or started anew in between. */
    lemma {:induction false} AnyWindow(src: Source, i: nat, j: nat)
      requires Valid() && i < j <= |history|
      ensures NetTakes(StepsOf(history, src)[i..j]) * LOOKUP
              <= Full(Budget()) + Elapsed(StepsOf(history, src)[i + 1..j]) * Budget()
      ensures var takes := |set k | i <= k < j && history[k] == Uses(src, Taken)|;
              var refunds := |set k | i <= k < j && history[k] == Uses(src, Refunded)|;
              (takes - refunds) * 60_000
              <= limits.perSourceKeyLookupsPerMinute * 60_000
                 + Elapsed(StepsOf(history, src)[i + 1..j]) * limits.perSourceKeyLookupsPerMinute
    {
      RunsTheBucket(src);
      AnyWindowBound(Full(Budget()), StepsOf(history, src), i, j, Budget());
      NetTakesCount(history, src, i, j);
    }

    lemma {:induction false} RestedLevel(src: Source, i: nat, later: nat)
      requires SourcesOk() && BucketsOk() && Accounted() && i <= |history| && clock <= later
      requires forall k | i <= k < |history| :: history[k] != Uses(src, Taken)
      requires Elapsed(StepsOf(history, src)[i..]) + (later - clock) >= 60_000
      ensures LevelAt(src, later) == Budget() * 60_000
    {
      RestedSource(history, src, i, later - clock, Budget());
      assert src in Levels(clock);
      LevelPasses(src, clock, later);
    }

    /** A source that took nothing for a minute has its whole budget again, whoever else took what: it is
        not refused for lack of lookups, and a connection of it may take as many lookups at once as the
        budget is for. */
    lemma {:induction false} MinuteOfRest(src: Source, i: nat, later: nat)
      requires Valid() && i <= |history| && clock <= later && Budget() > 0
      requires forall k | i <= k < |history| :: history[k] != Uses(src, Taken)
      requires Elapsed(StepsOf(history, src)[i..]) + (later - clock) >= 60_000
      ensures LevelAt(src, later) == limits.perSourceKeyLookupsPerMinute * 60_000
      ensures src in sources ==> sources[src].LevelAt(later, Budget()) >= 60_000
      ensures Refusal(src, later) != Some(LookupsSpent)
      ensures forall takes: seq<Step> | |takes| <= Budget() && (forall k | 0 <= k < |takes| :: takes[k] == Step(0, Taken)) ::
                TakesOk(LevelAt(src, later), takes, Budget())
    {
      hide TicketsOk, CountedOk, StateCountsOk, CountOk, LevelsAfter, EventsOk, TimeOf, Elapsed, TakesOk;
      RestedLevel(src, i, later);
      forall takes: seq<Step> | |takes| <= Budget() && (forall k | 0 <= k < |takes| :: takes[k] == Step(0, Taken))
        ensures TakesOk(LevelAt(src, later), takes, Budget())
      {
        FullBudgetServes(takes, Budget());
      }
    }

    /** The counts of some sources, added up. */
    ghost function TotalStartups(keys: set<Source>): int
      reads this`sources, this`states, states`startups
      requires SourcesOk() && keys <= sources.Keys
      decreases |keys|
    {
      if keys == {} then 0 else var k :| k in keys; sources[k].startups + TotalStartups(keys - {k})
    }

    ghost function OpenIn(keys: set<Source>): set<Ticket>
      reads this`open
    {
      set t | t in open && t.source in keys
    }

    lemma {:induction false} OpenInOne(keys: set<Source>, k: Source)
      requires StateOk() && k in keys && keys <= sources.Keys
      ensures |OpenIn(keys)| == |OpenIn(keys - {k})| + sources[k].startups
    {
      var own, others := sources[k].open, OpenIn(keys - {k});
      assert sources[k].Counts();
      assert OpenIn(keys) == others + own && others !! own;
    }

    lemma {:induction false} TotalIsOpen(keys: set<Source>)
      requires StateOk() && keys <= sources.Keys
      ensures TotalStartups(keys) == |OpenIn(keys)|
      decreases |keys|
    {
      if keys != {} {
        var k :| k in keys && TotalStartups(keys) == sources[k].startups + TotalStartups(keys - {k});
        TotalIsOpen(keys - {k});
        OpenInOne(keys, k);
      } else {
        assert OpenIn(keys) == {};
      }
    }

    /** Startup conservation, in every state the operations reach: the overall count is the sum of the
        sources' counts and the number of connections neither logged in nor closed, and no limit is
        passed. */
    lemma {:induction false} StartupConservation()
      requires StateOk()
      ensures startups == TotalStartups(sources.Keys) == |open| <= limits.maxStartups
      ensures forall t | t in tickets :: t.counted <==> t in open
      ensures forall src | src in sources ::
                sources[src].startups == |OpenIn({src})| <= limits.perSourceMaxStartups
    {
      TotalIsOpen(sources.Keys);
      assert OpenIn(sources.Keys) == open;
      forall src | src in sources ensures sources[src].startups == |OpenIn({src})| {
        OpenInOne({src}, src);
        assert {src} - {src} == {} && OpenIn({}) == {};
      }
    }

    constructor (limits: Limits)
      ensures Valid() && this.limits == limits && sources == map[] && open == {} && tickets == {} && clock == 0
    {
      this.limits, sources, startups := limits, map[], 0;
      open, tickets, states, clock := {}, {}, {}, 0;
      history := [];
    }

    // -------------------------------------------------------------------------------------------
    // Arriving and leaving
    // -------------------------------------------------------------------------------------------

    /** Whether a source can be tracked: it is, or there is room, if need be after a sweep. */
    ghost predicate Trackable(source: Source, at: nat)
      reads this`sources, this`states, states`startups, states`lookups, states`refilledAt
      requires SourcesOk()
    {
      source in sources || |sources| < MAX_TRACKED_SOURCES || |Unswept(at)| < MAX_TRACKED_SOURCES
    }

    ghost function StartupsOf(source: Source): int
      reads this`sources, this`states, states`startups
      requires SourcesOk()
    {
      if source in sources then sources[source].startups else 0
    }

    /** Why a source that can be tracked is refused, if it is: too many connections not logged in, too
        many of its own, or no lookup left. */
    ghost function Refusal(source: Source, at: nat): Option<Reason>
      reads this`sources, this`states, this`open, states`startups, states`lookups, states`refilledAt
      requires SourcesOk()
    {
      if |open| >= limits.maxStartups then Some(MaxStartups)
      else if StartupsOf(source) >= limits.perSourceMaxStartups then Some(PerSourceStartups)
      else if Budget() > 0 && LevelAt(source, at) < LOOKUP then Some(LookupsSpent)
      else None
    }

    /** Why a connection is refused, in what a caller sees of the sources: the limits on connections
        neither logged in nor closed, overall and of one source, and a lookup left. */
    lemma {:induction false} RefusedExactly(source: Source, at: nat)
      requires Valid() && clock <= at
      ensures var own := |set t | t in open && t.source == source|;
              Refusal(source, at)
              == if |open| >= limits.maxStartups then Some(MaxStartups)
                 else if own >= limits.perSourceMaxStartups then Some(PerSourceStartups)
                 else if limits.perSourceKeyLookupsPerMinute > 0 && LevelAt(source, at) < 60_000 then Some(LookupsSpent)
                 else None
    {
      hide BucketsOk, CountedOk, Accounted;
      assert OpenIn({source}) == set t | t in open && t.source == source;
      if source in sources {
        OpenInOne({source}, source);
        assert {source} - {source} == {} && OpenIn({}) == {};
      } else {
        assert OpenIn({source}) == {};
      }
    }

    /** Room for a source: it is tracked, or fewer than 100,000 are, if need be once those with nothing
        open and a full budget are forgotten. */
    lemma {:induction false} RoomExactly(source: Source, at: nat)
      requires Valid() && clock <= at
      ensures Trackable(source, at) <==>
                || source in sources || |sources| < 100_000
                || |set src | src in sources && ((exists t :: t in open && t.source == src)
                                                 || LevelAt(src, at) < limits.perSourceKeyLookupsPerMinute * 60_000)| < 100_000
    {
      hide StateOk, Accounted;
      SweptExactly(at);
    }

    /** A sweep keeps the sources with a connection neither logged in nor closed, or with less than their
        whole budget. */
    lemma {:induction false} SweptExactly(at: nat)
      requires Valid() && clock <= at
      ensures Unswept(at) == set src | src in sources && ((exists t :: t in open && t.source == src)
                                                          || LevelAt(src, at) < limits.perSourceKeyLookupsPerMinute * 60_000)
    {
      hide BucketsOk, CountedOk, Accounted;
      forall src | src in sources
        ensures src in Unswept(at) <==> (exists t :: t in open && t.source == src)
                                        || LevelAt(src, at) < limits.perSourceKeyLookupsPerMinute * 60_000
      {
        var state := sources[src];
        assert state.Counts() && state.startups == |state.open|;
        if state.open != {} {
          var t :| t in state.open;
          assert t in open && t.source == src;
        }
        if t :| t in open && t.source == src { assert t in state.open; }
      }
    }

    /** The clock is read: time passes for every source. */
    ghost method Pass(now: nat)
      requires SourcesOk() && BucketsOk() && Accounted() && clock <= now
      modifies this`clock, this`history
      ensures BucketsOk() && Accounted() && clock == now && Levels(now) == old(Levels(now))
      ensures history == old(history) + [Passes(now - old(clock))]
    {
      hide LevelsAfter, EventsOk, TimeOf;
      LevelsPass(now);
      OneMore(history, Levels(clock), clock, Passes(now - clock), Budget());
      history, clock := history + [Passes(now - clock)], now;
    }

    ghost method Arrive(now: nat)
      requires Valid() && clock <= now
      modifies this`clock, this`history
      ensures Valid() && clock == now && Levels(now) == old(Levels(now))
      ensures history == old(history) + [Passes(now - old(clock))]
    {
      Pass(now);
    }

    /** Decides on a connection as it arrives. Admitted, it counts, overall and at its source; refused,
        nothing counts it. No level changes either way. */
    method Admit(source: Source, now: nat) returns (decision: Decision)
      requires Valid() && clock <= now
      modifies this`sources, this`startups, this`open, this`tickets, this`states, this`clock, this`history, states
      ensures Valid() && clock == now && Levels(now) == old(Levels(now))
      ensures history == old(history) + [Passes(now - old(clock))]
      ensures decision.Admitted? ==> fresh(decision.ticket) && decision.ticket.source == source
      ensures decision.Admitted? ==> open == old(open) + {decision.ticket} && tickets == old(tickets) + {decision.ticket}
      ensures decision.Refused? ==> open == old(open) && tickets == old(tickets)
      ensures if !old(Trackable(source, now)) then decision == Refused(TooManySources)
              else match old(Refusal(source, now))
                   case Some(reason) => decision == Refused(reason)
                   case None => decision.Admitted?
    {
      hide LevelsAfter, EventsOk, TimeOf, Trackable, Refusal, BucketsOk, TicketsOk, CountedOk;
      Arrive(now);
      decision := Decide(source, now);
    }

    method Decide(source: Source, now: nat) returns (decision: Decision)
      requires StateOk() && clock == now
      modifies this`sources, this`startups, this`open, this`tickets, this`states, this`clock, states
      ensures StateOk() && clock == now && Levels(now) == old(Levels(now))
      ensures decision.Admitted? ==> fresh(decision.ticket) && decision.ticket.source == source
      ensures decision.Admitted? ==> open == old(open) + {decision.ticket} && tickets == old(tickets) + {decision.ticket}
      ensures decision.Refused? ==> open == old(open) && tickets == old(tickets)
      ensures if !old(Trackable(source, now)) then decision == Refused(TooManySources)
              else match old(Refusal(source, now))
                   case Some(reason) => decision == Refused(reason)
                   case None => decision.Admitted?
    {
      var tracked := TrackUndecided(source, now);
      if !tracked { return Refused(TooManySources); }
      decision := AdmitTracked(source, sources[source], now);
    }

    /** Tracking a source leaves the decision on it as it was. */
    method TrackUndecided(source: Source, now: nat) returns (tracked: bool)
      requires StateOk() && clock <= now
      modifies this`sources, this`states, this`clock, states`lookups, states`refilledAt
      ensures StateOk() && clock == now && Levels(now) == old(Levels(now))
      ensures tracked == old(Trackable(source, now)) && (tracked ==> source in sources)
      ensures old(states) <= states && fresh(states - old(states))
      ensures tracked ==> Refusal(source, now) == old(Refusal(source, now))
    {
      tracked := Track(source, now);
      assert LevelAt(source, now) == Levels(now)[source];
    }

    method AdmitTracked(source: Source, state: SourceState, now: nat) returns (decision: Decision)
      requires StateOk() && clock == now && source in sources && sources[source] == state
      modifies this`startups, this`open, this`tickets, state
      ensures StateOk() && Levels(now) == old(Levels(now))
      ensures decision.Admitted? ==> fresh(decision.ticket) && decision.ticket.source == source
      ensures decision.Admitted? ==> open == old(open) + {decision.ticket} && tickets == old(tickets) + {decision.ticket}
      ensures decision.Refused? ==> open == old(open) && tickets == old(tickets)
      ensures match old(Refusal(source, now))
              case Some(reason) => decision == Refused(reason)
              case None => decision.Admitted?
    {
      hide BucketsOk, TicketsOk, CountedOk;
      var refusal := Refuse(source, state, now);
      if refusal.Some? { return Refused(refusal.value); }
      var t := CountIn(source, state);
      decision := Admitted(t);
    }

    method Refuse(source: Source, state: SourceState, now: nat) returns (refusal: Option<Reason>)
      requires StateOk() && clock == now && source in sources && sources[source] == state
      modifies state`lookups, state`refilledAt
      ensures StateOk() && Levels(now) == old(Levels(now)) && refusal == old(Refusal(source, now))
    {
      RefillOne(state, now);
      if startups >= limits.maxStartups { return Some(MaxStartups); }
      if state.startups >= limits.perSourceMaxStartups { return Some(PerSourceStartups); }
      if Budget() > 0 && state.lookups < LOOKUP { return Some(LookupsSpent); }
      return None;
    }

    /** Makes sure a source is tracked, if it can be. */
    method Track(source: Source, now: nat) returns (tracked: bool)
      requires StateOk() && clock <= now
      modifies this`sources, this`states, this`clock, states`lookups, states`refilledAt
      ensures StateOk() && clock == now && Levels(now) == old(Levels(now))
      ensures tracked == old(Trackable(source, now)) && (tracked ==> source in sources)
      ensures old(states) <= states && fresh(states - old(states))
      ensures tracked ==> StartupsOf(source) == old(StartupsOf(source))
    {
      if source in sources {
        Tick(now);
        return true;
      }
      tracked := MakeRoom(now);
      if tracked { NewState(source, now); }
    }

    /** Room for one more source, if need be by a sweep. */
    method MakeRoom(now: nat) returns (room: bool)
      requires StateOk() && clock <= now
      modifies this`sources, this`clock, states`lookups, states`refilledAt
      ensures StateOk() && clock == now && Levels(now) == old(Levels(now)) && sources.Keys <= old(sources).Keys
      ensures room == old(|sources| < MAX_TRACKED_SOURCES || |Unswept(now)| < MAX_TRACKED_SOURCES)
    {
      if |sources| >= MAX_TRACKED_SOURCES {
        SweepSources(now);
        assert |sources| == |sources.Keys|;
      } else {
        Tick(now);
      }
      room := |sources| < MAX_TRACKED_SOURCES;
    }

    method Tick(now: nat)
      requires StateOk() && clock <= now
      modifies this`clock
      ensures StateOk() && clock == now
    {
      clock := now;
    }

    /** A new source starts with a full budget, as one not tracked has. */
    method NewState(source: Source, now: nat)
      requires StateOk() && clock == now && source !in sources
      modifies this`sources, this`states
      ensures StateOk() && source in sources && Levels(now) == old(Levels(now))
      ensures old(states) <= states && fresh(states - old(states))
      ensures sources[source].startups == 0
    {
      var state := new SourceState(Full(Budget()), now, source);
      AddState(source, state, now);
    }

    method AddState(source: Source, state: SourceState, now: nat)
      requires StateOk() && clock == now && source !in sources && state !in states && state.source == source
      requires state.startups == 0 && state.open == {} && state.lookups == Full(Budget()) && state.refilledAt == now
      modifies this`sources, this`states
      ensures StateOk() && Levels(now) == old(Levels(now))
      ensures sources == old(sources)[source := state] && states == old(states) + {state}
    {
      sources := sources[source := state];
      states := states + {state};
      assert Refilled(state.lookups, 0, Budget()) == Full(Budget());
    }

    method CountIn(source: Source, state: SourceState) returns (t: Ticket)
      requires StateOk() && source in sources && sources[source] == state
      requires startups < limits.maxStartups && state.startups < limits.perSourceMaxStartups
      modifies this`startups, this`open, this`tickets, state`startups, state`open
      ensures StateOk() && fresh(t) && t.source == source && open == old(open) + {t} && tickets == old(tickets) + {t}
    {
      t := new Ticket(source, state);
      Count(t);
    }

    method Count(t: Ticket)
      requires StateOk() && t !in tickets && t.counted && t.source in sources && sources[t.source] == t.state
      requires startups < limits.maxStartups && t.state.startups < limits.perSourceMaxStartups
      modifies this`startups, this`open, this`tickets, t.state`startups, t.state`open
      ensures StateOk() && open == old(open) + {t} && tickets == old(tickets) + {t}
    {
      hide BucketsOk, TicketsOk, CountedOk, StateCountsOk;
      ghost var was := open;
      startups := startups + 1;
      CountAt(t);
      assert |was + {t}| == |was| + 1;
    }

    method CountAt(t: Ticket)
      requires SourcesOk() && TicketsOk() && CountedOk() && StateCountsOk()
      requires t !in tickets && t.counted && t.source in sources && sources[t.source] == t.state
      requires t.state.startups < limits.perSourceMaxStartups
      modifies this`open, this`tickets, t.state`startups, t.state`open
      ensures TicketsOk() && CountedOk() && StateCountsOk()
      ensures open == old(open) + {t} && tickets == old(tickets) + {t} && t !in old(open)
    {
      hide TicketsOk, CountedOk, StateCountsOk;
      ghost var was := t.state.open;
      OthersCount(t.state);
      assert t.state.Counts() && t.state in states by { InStates(t); }
      AddTicket(t);
      assert |was + {t}| == |was| + 1;
      assert forall s | s in states && s != t.state :: s.Counts();
      AddStartup(t.state);
    }

    lemma {:induction false} InStates(t: Ticket)
      requires SourcesOk() && StateCountsOk() && t.source in sources && sources[t.source] == t.state
      ensures t.state.Counts() && t.state in states
    {
    }

    lemma {:induction false} OthersCount(state: SourceState)
      requires SourcesOk() && StateCountsOk()
      ensures forall s | s in states && s != state :: s.Counts()
      ensures forall src | src in sources :: sources[src].startups <= limits.perSourceMaxStartups
    {
    }

    method AddStartup(state: SourceState)
      requires SourcesOk() && state in states && state.startups + 1 == |state.open|
      requires forall s | s in states && s != state :: s.Counts()
      requires forall src | src in sources :: sources[src].startups <= limits.perSourceMaxStartups
      requires state.startups < limits.perSourceMaxStartups
      modifies state`startups
      ensures StateCountsOk()
    {
      state.startups := state.startups + 1;
    }

    method AddTicket(t: Ticket)
      requires SourcesOk() && TicketsOk() && CountedOk()
      requires t !in tickets && t.counted && t.source in sources && sources[t.source] == t.state
      modifies this`open, this`tickets, t.state`open
      ensures TicketsOk() && CountedOk()
      ensures open == old(open) + {t} && tickets == old(tickets) + {t} && t.state.open == old(t.state.open) + {t}
      ensures t !in old(open) && t !in old(t.state.open)
    {
      tickets, open := tickets + {t}, open + {t};
      t.state.open := t.state.open + {t};
    }

    /** The connection logged in or closed: it stops counting as a startup, once. */
    method Release(t: Ticket)
      requires Valid() && t in tickets
      modifies this`startups, this`open, t`counted, t.state`startups, t.state`open
      ensures Valid() && open == old(open) - {t}
      ensures startups == old(startups) - if t in old(open) then 1 else 0
    {
      if t.counted { Uncount(t); }
    }

    method Uncount(t: Ticket)
      requires StateOk() && t in open
      modifies this`startups, this`open, t`counted, t.state`startups, t.state`open
      ensures StateOk() && open == old(open) - {t} && startups == old(startups) - 1
    {
      startups := startups - 1;
      UncountAt(t);
    }

    method UncountAt(t: Ticket)
      requires SourcesOk() && TicketsOk() && CountedOk() && StateCountsOk() && t in open
      modifies this`open, t`counted, t.state`startups, t.state`open
      ensures TicketsOk() && CountedOk() && StateCountsOk() && open == old(open) - {t}
    {
      t.state.startups := t.state.startups - 1;
      DropTicket(t);
      assert t.state.Counts();
    }

    method DropTicket(t: Ticket)
      requires SourcesOk() && TicketsOk() && CountedOk() && t in open
      modifies this`open, t`counted, t.state`open
      ensures TicketsOk() && CountedOk() && open == old(open) - {t} && t.state.open == old(t.state.open) - {t}
    {
      t.counted := false;
      open := open - {t};
      t.state.open := t.state.open - {t};
    }

    // -------------------------------------------------------------------------------------------
    // Key lookups
    // -------------------------------------------------------------------------------------------

    /** The state is its source's, not one a sweep has since forgotten. */
    ghost predicate IsLive(state: SourceState)
      reads this`sources
    {
      state.source in sources && sources[state.source] == state
    }

    /** Spends one key lookup; false: none is left. */
    method TakeKeyLookup(t: Ticket, now: nat) returns (taken: bool)
      requires Valid() && t in tickets && clock <= now
      modifies this`clock, this`history, t.state`lookups, t.state`refilledAt
      ensures Valid() && clock == now
      ensures taken <==> limits.perSourceKeyLookupsPerMinute == 0 || old(t.state.LevelAt(now, Budget())) >= 60_000
      ensures Levels(now) == SetIf(taken && limits.perSourceKeyLookupsPerMinute > 0 && IsLive(t.state), old(Levels(now)),
                                   t.state.source, old(t.state.LevelAt(now, Budget())) - 60_000)
      ensures history == old(history) + [Passes(now - old(clock))] + Using(t.state, if taken then Taken else TakeRefused)
    {
      hide LevelsAfter, EventsOk, TimeOf;
      if Budget() == 0 {
        Arrive(now);
        return true;
      }
      taken := TakeFrom(t.state, now);
    }

    /** What using a state is to the levels: nothing without a budget, or once a sweep has forgotten it. */
    ghost function Using(state: SourceState, use: Use): seq<Event>
      reads this`sources
    {
      if Budget() > 0 && IsLive(state) then [Uses(state.source, use)] else []
    }

    method TakeFrom(state: SourceState, now: nat) returns (taken: bool)
      requires SourcesOk() && BucketsOk() && Accounted() && state in states && clock <= now && Budget() > 0
      modifies this`clock, this`history, state`lookups, state`refilledAt
      ensures BucketsOk() && Accounted() && clock == now
      ensures taken <==> old(state.LevelAt(now, Budget())) >= LOOKUP
      ensures Levels(now) == SetIf(taken && IsLive(state), old(Levels(now)), state.source,
                                   old(state.LevelAt(now, Budget())) - LOOKUP)
      ensures history == old(history) + [Passes(now - old(clock))] + Using(state, if taken then Taken else TakeRefused)
    {
      hide Once, LevelsAfter, EventsOk, TimeOf, Accounted, Accounts;
      RefillNow(state, now);
      taken := state.lookups >= LOOKUP;
      if taken { SetLookups(state, state.lookups - LOOKUP, Taken); } else { SetLookups(state, state.lookups, TakeRefused); }
    }

    /** Reads the clock and brings a state's level up to it. */
    method RefillNow(state: SourceState, now: nat)
      requires SourcesOk() && BucketsOk() && Accounted() && state in states && clock <= now
      modifies this`clock, this`history, state`lookups, state`refilledAt
      ensures BucketsOk() && Accounted() && clock == now && state.refilledAt == now
      ensures state.lookups == old(state.LevelAt(now, Budget())) && Levels(now) == old(Levels(now))
      ensures history == old(history) + [Passes(now - old(clock))]
    {
      hide Once, LevelsAfter, EventsOk, TimeOf;
      Pass(now);
      RefillState(state, now);
    }

    /** Gives back the lookup a registered key was found with. */
    method RefundKeyLookup(t: Ticket, now: nat)
      requires Valid() && t in tickets && clock <= now
      modifies this`clock, this`history, t.state`lookups, t.state`refilledAt
      ensures Valid() && clock == now
      ensures var refunded := old(t.state.LevelAt(now, Budget())) + 60_000;
              Levels(now) == SetIf(limits.perSourceKeyLookupsPerMinute > 0 && IsLive(t.state), old(Levels(now)), t.state.source,
                                   if refunded < limits.perSourceKeyLookupsPerMinute * 60_000 then refunded
                                   else limits.perSourceKeyLookupsPerMinute * 60_000)
      ensures history == old(history) + [Passes(now - old(clock))] + Using(t.state, Refunded)
    {
      hide LevelsAfter, EventsOk, TimeOf;
      if Budget() == 0 {
        Arrive(now);
      } else {
        RefundTo(t.state, now);
      }
    }

    method RefundTo(state: SourceState, now: nat)
      requires SourcesOk() && BucketsOk() && Accounted() && state in states && clock <= now && Budget() > 0
      modifies this`clock, this`history, state`lookups, state`refilledAt
      ensures BucketsOk() && Accounted() && clock == now
      ensures Levels(now) == SetIf(IsLive(state), old(Levels(now)), state.source,
                                   Min(Full(Budget()), old(state.LevelAt(now, Budget())) + LOOKUP))
      ensures history == old(history) + [Passes(now - old(clock))] + Using(state, Refunded)
    {
      hide Once, LevelsAfter, EventsOk, TimeOf, Accounted, Accounts;
      RefillNow(state, now);
      SetLookups(state, Min(Full(Budget()), state.lookups + LOOKUP), Refunded);
    }

    /** Brings a state's level up to an instant; no level at that instant changes. */
    method RefillState(state: SourceState, at: nat)
      requires SourcesOk() && BucketsOk() && state in states && clock == at
      modifies state`lookups, state`refilledAt
      ensures BucketsOk() && state.refilledAt == at && state.lookups == old(state.LevelAt(at, Budget()))
      ensures Levels(at) == old(Levels(at))
      ensures forall s | s in states :: s.LevelAt(at, Budget()) == old(s.LevelAt(at, Budget()))
    {
      RefilledInRange(state.lookups, at - state.refilledAt, Budget());
      state.Refill(at, Budget());
      assert Refilled(state.lookups, 0, Budget()) == state.lookups;
    }

    /** Uses a state's lookups, which is an event to its source while the state is live. */
    method SetLookups(state: SourceState, lookups: int, ghost use: Use)
      requires SourcesOk() && BucketsOk() && Accounted() && state in states && state.refilledAt == clock && Budget() > 0
      requires UseOk(state.lookups, use) && lookups == Used(state.lookups, use, Budget()) && 0 <= lookups <= Full(Budget())
      modifies this`history, state`lookups
      ensures BucketsOk() && Accounted() && state.lookups == lookups && history == old(history) + Using(state, use)
      ensures Levels(clock) == SetIf(IsLive(state), old(Levels(clock)), state.source, lookups)
    {
      hide LevelsAfter, EventsOk, TimeOf;
      ghost var was := Levels(clock);
      assert Refilled(state.lookups, 0, Budget()) == state.lookups;
      PutLookups(state, lookups);
      if IsLive(state) {
        assert At(was, state.source) == was[state.source];
        OneMore(history, was, clock, Uses(state.source, use), Budget());
        history := history + [Uses(state.source, use)];
      } else {
        assert history + [] == history;
      }
    }

    method PutLookups(state: SourceState, lookups: int)
      requires SourcesOk() && BucketsOk() && state in states && state.refilledAt == clock && 0 <= lookups <= Full(Budget())
      modifies state`lookups
      ensures BucketsOk() && state.lookups == lookups
      ensures Levels(clock) == SetIf(IsLive(state), old(Levels(clock)), state.source, lookups)
    {
      state.lookups := lookups;
      assert Refilled(lookups, 0, Budget()) == lookups;
    }

    // -------------------------------------------------------------------------------------------
    // Sweeping
    // -------------------------------------------------------------------------------------------

    /** Forgets the sources with nothing open and a full budget; no level changes. */
    method Sweep(now: nat)
      requires Valid() && clock <= now
      modifies this`clock, this`history, this`sources, states`lookups, states`refilledAt
      ensures Valid() && clock == now && history == old(history) + [Passes(now - old(clock))]
      ensures sources.Keys == old(Unswept(now)) && Levels(now) == old(Levels(now))
    {
      Arrive(now);
      SweepSources(now);
    }

    method SweepSources(now: nat)
      requires StateOk() && clock <= now
      modifies this`clock, this`sources, states`lookups, states`refilledAt
      ensures StateOk() && clock == now
      ensures sources.Keys == old(Unswept(now)) && Levels(now) == old(Levels(now))
    {
      hide BucketsOk, TicketsOk, CountedOk, StateCountsOk;
      ghost var kept := Unswept(now);
      Tick(now);
      var todo := sources.Keys;
      while todo != {}
        invariant StateOk() && clock == now && sources.Keys == kept + todo && Levels(now) == old(Levels(now))
        invariant forall src | src in todo :: src in kept <==> !Forgettable(sources[src], now)
      {
        var src :| src in todo;
        SweepSource(src, sources[src], now, kept, todo);
        todo := todo - {src};
      }
    }

    method SweepSource(src: Source, state: SourceState, now: nat, ghost kept: set<Source>, ghost todo: set<Source>)
      requires StateOk() && clock == now && src in todo && sources.Keys == kept + todo && sources[src] == state
      requires forall s | s in todo :: s in kept <==> !Forgettable(sources[s], clock)
      modifies this`sources, state`lookups, state`refilledAt
      ensures StateOk() && sources.Keys == kept + (todo - {src}) && Levels(clock) == old(Levels(clock))
      ensures forall s | s in todo - {src} :: s in kept <==> !Forgettable(sources[s], clock)
    {
      hide BucketsOk, TicketsOk, CountedOk, StateCountsOk;
      RefillOne(state, now);
      if state.startups == 0 && state.lookups >= Full(Budget()) { Forget(src); }
    }

    method RefillOne(state: SourceState, now: nat)
      requires StateOk() && clock == now && state in states
      modifies state`lookups, state`refilledAt
      ensures StateOk() && state.refilledAt == now && state.lookups == old(state.LevelAt(now, Budget()))
      ensures Levels(now) == old(Levels(now))
      ensures forall s | s in states :: Forgettable(s, now) == old(Forgettable(s, now))
    {
      RefillState(state, now);
    }

    /** Forgets a source with nothing open and a full budget: one not tracked has a full budget too. */
    method Forget(src: Source)
      requires StateOk() && src in sources && Forgettable(sources[src], clock)
      modifies this`sources
      ensures StateOk() && sources == old(sources) - {src} && Levels(clock) == old(Levels(clock))
    {
      assert sources[src].Counts() && sources[src].open == {};
      sources := sources - {src};
    }

    /** Records a refused authentication attempt; true: the connection has used all it may. */
    method RefusedAttempt(t: Ticket) returns (last: bool)
      requires Valid() && t in tickets
      modifies t`attempts
      ensures Valid() && t.attempts == old(t.attempts) + 1
      ensures last <==> t.attempts >= limits.maxAuthTries
    {
      t.attempts := t.attempts + 1;
      last := t.attempts >= limits.maxAuthTries;
    }
  }
}
