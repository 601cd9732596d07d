/** Which run each event of a shared stream belongs to (packages/telemetry/src/attribution.ts), and the
    ingester's cache of what the resolver said (packages/telemetry/src/ingester.ts). */
module Attribution {
  import opened Wrappers
  import opened RecordEvents
  import opened Redelivery

  type WorkspaceId = string
  /** The workspace each run is in. */
  type Runs = map<RunId, WorkspaceId>

  function Attribute(event: Event, resolutions: map<RunId, RunId>): Event {
    if event.facts.executionId.Some? && event.facts.executionId.value in resolutions
    then event.(attributedRunId := Some(resolutions[event.facts.executionId.value]))
    else event
  }

  function AttributeBatch(batch: seq<Event>, resolutions: map<RunId, RunId>): (attributed: seq<Event>)
    ensures |attributed| == |batch| && forall i | 0 <= i < |batch| :: attributed[i] == Attribute(batch[i], resolutions)
  {
    seq(|batch|, i requires 0 <= i < |batch| => Attribute(batch[i], resolutions))
  }

  /** The distinct execution ids in a batch, the empty one left out. */
  function ExecutionIds(batch: seq<Event>): set<RunId> {
    set e | e in batch && e.facts.executionId.Some? && e.facts.executionId.value != "" :: e.facts.executionId.value
  }

  method CollectExecutionIds(batch: seq<Event>) returns (ids: set<RunId>)
    ensures ids == ExecutionIds(batch)
  {
    ids := {};
    for i := 0 to |batch|
      invariant ids == ExecutionIds(batch[..i])
    {
      assert batch[..i + 1] == batch[..i] + [batch[i]];
      var executionId := batch[i].facts.executionId;
      if executionId.Some? && executionId.value != "" { ids := ids + {executionId.value}; }
    }
    assert batch[..|batch|] == batch;
  }

  /** The resolver: the ids that are runs of the default run's workspace, each as itself. */
  function Resolve(runs: Runs, defaultRunId: RunId, ids: set<RunId>): map<RunId, RunId> {
    if defaultRunId !in runs then map[]
    else map id | id in ids && id in runs && runs[id] == runs[defaultRunId] :: id
  }

  predicate IsSibling(runs: Runs, defaultRunId: RunId, id: RunId) {
    id != "" && defaultRunId in runs && id in runs && runs[id] == runs[defaultRunId]
  }

  /** The run an event belongs to on the connection of a default run. */
  function HomeRun(runs: Runs, defaultRunId: RunId, facts: Facts): RunId {
    if facts.executionId.Some? && IsSibling(runs, defaultRunId, facts.executionId.value) then facts.executionId.value
    else defaultRunId
  }

  /** Attribution puts each event of a batch in the run its execution names when that is a run of the
      same workspace, and in the default run otherwise: never in another workspace's run. */
  lemma {:induction false} AttributesHome(runs: Runs, defaultRunId: RunId, batch: seq<Event>, i: nat)
    requires i < |batch| && batch[i].attributedRunId.None?
    ensures var attributed := AttributeBatch(batch, Resolve(runs, defaultRunId, ExecutionIds(batch)));
            var runId := RunIdFor(defaultRunId, attributed[i]);
            && attributed[i].facts == batch[i].facts && attributed[i].eventId == batch[i].eventId
            && runId == HomeRun(runs, defaultRunId, batch[i].facts)
            && runId == (match batch[i].facts.executionId
                         case None => defaultRunId
                         case Some(id) =>
                           if id != "" && defaultRunId in runs && id in runs && runs[id] == runs[defaultRunId] then id
                           else defaultRunId)
            && (runId == defaultRunId || (defaultRunId in runs && runId in runs && runs[runId] == runs[defaultRunId]))
  {
    assert batch[i] in batch;
  }

  /** What the resolver says of each id: the run it names, or that it names none. */
  function Answers(runs: Runs, defaultRunId: RunId, ids: set<RunId>): (answers: map<RunId, Option<RunId>>)
    ensures forall id :: id in answers <==> id in ids
    ensures forall id | id in answers :: answers[id] == if id in Resolve(runs, defaultRunId, {id}) then Some(id) else None
  {
    var resolved := Resolve(runs, defaultRunId, ids);
    map id | id in ids :: if id in resolved then Some(resolved[id]) else None
  }

  /** The ingester's cache, for one connection. */
  class AttributionCache {
    const defaultRunId: RunId
    var cache: map<RunId, Option<RunId>>

    /** Every answer cached is the resolver's. */
    ghost predicate Agrees(runs: Runs)
      reads this
    {
      CacheAgrees(runs, defaultRunId, cache)
    }

    constructor (defaultRunId: RunId)
      ensures this.defaultRunId == defaultRunId && cache == map[] && forall runs :: Agrees(runs)
    {
      this.defaultRunId := defaultRunId;
      cache := map[];
    }

    /** Asks the resolver only for ids not asked before; what comes back is what it would say of all. */
    method ResolveAttributions(runs: Runs, executionIds: set<RunId>) returns (resolutions: map<RunId, RunId>)
      requires Agrees(runs)
      modifies this
      ensures Agrees(runs)
      ensures forall id :: id in cache <==> id in old(cache) || id in executionIds
      ensures resolutions == Resolve(runs, defaultRunId, executionIds)
    {
      AgreesAfter(runs, defaultRunId, cache, executionIds);
      var unknown := Unasked(cache, executionIds);
      if unknown != {} { cache := cache + Answers(runs, defaultRunId, unknown); }
      resolutions := CachedResolutions(cache, executionIds);
    }
  }

  /** Every answer cached is the resolver's. */
  ghost predicate CacheAgrees(runs: Runs, defaultRunId: RunId, cache: map<RunId, Option<RunId>>) {
    forall id | id in cache :: cache[id] == if id in Resolve(runs, defaultRunId, {id}) then Some(id) else None
  }

  function Unasked(cache: map<RunId, Option<RunId>>, ids: set<RunId>): (unknown: set<RunId>)
    ensures forall id :: id in unknown <==> id in ids && id !in cache
  {
    set id | id in ids && id !in cache
  }

  function CachedResolutions(cache: map<RunId, Option<RunId>>, ids: set<RunId>): map<RunId, RunId>
    requires forall id | id in ids :: id in cache
  {
    map id | id in ids && cache[id].Some? :: cache[id].value
  }

  lemma {:induction false} AgreesAfter(runs: Runs, defaultRunId: RunId, cache: map<RunId, Option<RunId>>, ids: set<RunId>)
    requires CacheAgrees(runs, defaultRunId, cache)
    ensures var unknown := Unasked(cache, ids);
            var after := if unknown == {} then cache else cache + Answers(runs, defaultRunId, unknown);
            && CacheAgrees(runs, defaultRunId, after)
            && (forall id :: id in after <==> id in cache || id in ids)
            && CachedResolutions(after, ids) == Resolve(runs, defaultRunId, ids)
  {
    var unknown := Unasked(cache, ids);
    if unknown == {} {
      assert forall id | id in ids :: id !in unknown;
      CachedIsResolved(runs, defaultRunId, cache, ids);
    } else {
      CachedIsResolved(runs, defaultRunId, cache + Answers(runs, defaultRunId, unknown), ids);
    }
  }

  lemma {:induction false} CachedIsResolved(runs: Runs, defaultRunId: RunId, cache: map<RunId, Option<RunId>>, ids: set<RunId>)
    requires CacheAgrees(runs, defaultRunId, cache) && forall id | id in ids :: id in cache
    ensures CachedResolutions(cache, ids) == Resolve(runs, defaultRunId, ids)
  {
  }
}
