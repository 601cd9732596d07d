/** Which events an append could not take as recorded (packages/telemetry/src/redelivery.ts). */
module Redelivery {
  import opened Wrappers
  import opened RecordEvents

  datatype Against = Log | Batch
  datatype Conflict = Conflict(eventId: EventId, against: Against, runId: RunId, runtimeId: RuntimeId, sequence: nat,
                               storedEventIdAtSequence: Option<EventId>, differences: seq<Field>)

  /** The run an event is appended for: its own, or the append's default. */
  function RunIdFor(runId: RunId, event: Event): RunId {
    if event.attributedRunId.Some? then event.attributedRunId.value else runId
  }

  // ---------------------------------------------------------------------------------------------
  // Within a batch
  // ---------------------------------------------------------------------------------------------

  /** The first event of a batch with an id. */
  function FirstWith(batch: seq<Event>, id: EventId): (first: Option<Event>)
    ensures first.Some? ==> first.value in batch && first.value.eventId == id
    ensures first.None? ==> forall e | e in batch :: e.eventId != id
  {
    if batch == [] then None
    else
      var before := FirstWith(batch[..|batch| - 1], id);
      if before.Some? then before else if batch[|batch| - 1].eventId == id then Some(batch[|batch| - 1]) else None
  }

  /** Each id once, by its first event. */
  function Unique(batch: seq<Event>): seq<Event> {
    if batch == [] then []
    else
      var before, e := batch[..|batch| - 1], batch[|batch| - 1];
      Unique(before) + if FirstWith(before, e.eventId).None? then [e] else []
  }

  function DuplicateDifferences(earlier: Event, event: Event, runId: RunId): seq<Field> {
    Differs(RunIdFor(runId, earlier) != RunIdFor(runId, event), FRunId) + EventDifferences(earlier, event)
  }

  function DuplicateConflict(earlier: Event, event: Event, runId: RunId): seq<Conflict> {
    var differences := DuplicateDifferences(earlier, event, runId);
    if differences == [] then []
    else [Conflict(event.eventId, Batch, RunIdFor(runId, event), event.facts.runtimeId, event.facts.sequence, None, differences)]
  }

  function BatchConflicts(batch: seq<Event>, runId: RunId): seq<Conflict> {
    if batch == [] then []
    else
      var before, e := batch[..|batch| - 1], batch[|batch| - 1];
      var earlier := FirstWith(before, e.eventId);
      BatchConflicts(before, runId) + if earlier.None? then [] else DuplicateConflict(earlier.value, e, runId)
  }

  method SplitDuplicateIds(batch: seq<Event>, runId: RunId) returns (unique: seq<Event>, conflicts: seq<Conflict>)
    ensures unique == Unique(batch)
    ensures conflicts == BatchConflicts(batch, runId)
  {
    var first: map<EventId, Event> := map[];
    unique, conflicts := [], [];
    for i := 0 to |batch|
      invariant forall id :: id in first <==> FirstWith(batch[..i], id).Some?
      invariant forall id | id in first :: FirstWith(batch[..i], id) == Some(first[id])
      invariant unique == Unique(batch[..i])
      invariant conflicts == BatchConflicts(batch[..i], runId)
    {
      var event := batch[i];
      assert batch[..i + 1][..i] == batch[..i];
      if event.eventId !in first {
        first := first[event.eventId := event];
        unique := unique + [event];
      } else {
        var earlier := first[event.eventId];
        var differences := EventDifferences(earlier, event);
        if RunIdFor(runId, earlier) != RunIdFor(runId, event) { differences := [FRunId] + differences; }
        assert differences == DuplicateDifferences(earlier, event, runId);
        if differences != [] {
          conflicts := conflicts + [Conflict(event.eventId, Batch, RunIdFor(runId, event), event.facts.runtimeId,
                                             event.facts.sequence, None, differences)];
        }
      }
    }
    assert batch[..|batch|] == batch;
  }

  /** A later event of the batch that reuses an id for other facts, or for another run. */
  predicate Reuses(batch: seq<Event>, runId: RunId, i: nat)
    requires i < |batch|
  {
    var earlier := FirstWith(batch[..i], batch[i].eventId);
    && earlier.Some?
    && (earlier.value.facts != batch[i].facts || RunIdFor(runId, earlier.value) != RunIdFor(runId, batch[i]))
  }

  predicate ReusesId(batch: seq<Event>, runId: RunId, id: EventId) {
    exists i :: 0 <= i < |batch| && batch[i].eventId == id && Reuses(batch, runId, i)
  }

  predicate Named(conflicts: seq<Conflict>, id: EventId) {
    exists c :: c in conflicts && c.eventId == id
  }

  lemma {:induction false} NamedConcat(a: seq<Conflict>, b: seq<Conflict>, id: EventId)
    ensures Named(a + b, id) <==> Named(a, id) || Named(b, id)
  {
    if Named(a, id) { var c :| c in a && c.eventId == id; assert c in a + b; }
    if Named(b, id) { var c :| c in b && c.eventId == id; assert c in a + b; }
  }

  lemma {:induction false} DuplicateNamed(earlier: Event, event: Event, runId: RunId, id: EventId)
    ensures Named(DuplicateConflict(earlier, event, runId), id)
            <==> id == event.eventId && (earlier.facts != event.facts || RunIdFor(runId, earlier) != RunIdFor(runId, event))
  {
    NoDifferencesMeansSame(earlier, event);
    var differences := DuplicateDifferences(earlier, event, runId);
    assert differences == [] <==> earlier.facts == event.facts && RunIdFor(runId, earlier) == RunIdFor(runId, event);
    if differences != [] {
      var c := DuplicateConflict(earlier, event, runId)[0];
      assert c in DuplicateConflict(earlier, event, runId);
    }
  }

  /** The in-batch conflicts name exactly the ids reused within the batch. */
  lemma {:induction false} BatchConflictsExactly(batch: seq<Event>, runId: RunId, id: EventId)
    ensures Named(BatchConflicts(batch, runId), id) <==> ReusesId(batch, runId, id)
  {
    if batch != [] {
      var n := |batch| - 1;
      var before, e := batch[..n], batch[n];
      BatchConflictsExactly(before, runId, id);
      ReusesOneMore(batch, runId, id);
      var earlier := FirstWith(before, e.eventId);
      var added := if earlier.None? then [] else DuplicateConflict(earlier.value, e, runId);
      NamedConcat(BatchConflicts(before, runId), added, id);
      if earlier.Some? { DuplicateNamed(earlier.value, e, runId, id); }
    }
  }

  lemma {:induction false} ReusesOneMore(batch: seq<Event>, runId: RunId, id: EventId)
    requires batch != []
    ensures var n := |batch| - 1;
            ReusesId(batch, runId, id) <==> ReusesId(batch[..n], runId, id) || (batch[n].eventId == id && Reuses(batch, runId, n))
  {
    var n := |batch| - 1;
    if ReusesId(batch[..n], runId, id) {
      var i :| 0 <= i < |batch[..n]| && batch[..n][i].eventId == id && Reuses(batch[..n], runId, i);
      ReusesInPrefix(batch, runId, i, n);
    }
    if ReusesId(batch, runId, id) {
      var i :| 0 <= i < |batch| && batch[i].eventId == id && Reuses(batch, runId, i);
      if i < n { ReusesInPrefix(batch, runId, i, n); }
    }
  }

  lemma {:induction false} ReusesInPrefix(batch: seq<Event>, runId: RunId, i: nat, n: nat)
    requires i < n <= |batch|
    ensures Reuses(batch[..n], runId, i) <==> Reuses(batch, runId, i)
    ensures batch[..n][i] == batch[i]
  {
    assert batch[..n][..i] == batch[..i];
  }

  /** A conflict within a batch is of a later event with an id, says where it was to go, and which columns
      differ from the first event's, the run's among them. */
  lemma {:induction false} BatchConflictTells(batch: seq<Event>, runId: RunId, c: Conflict)
    requires c in BatchConflicts(batch, runId)
    ensures exists i, j :: 0 <= i < j < |batch| && IsFirstWith(batch, i, c.eventId) && DuplicateOf(runId, batch[i], batch[j], c)
  {
    hide DuplicateOf, DuplicateConflict;
    var n := |batch| - 1;
    var before, e := batch[..n], batch[n];
    if c in BatchConflicts(before, runId) {
      BatchConflictTells(before, runId, c);
      var i, j :| 0 <= i < j < n && IsFirstWith(before, i, c.eventId) && DuplicateOf(runId, before[i], before[j], c);
      assert before[i] == batch[i] && before[j] == batch[j] && IsFirstWith(batch, i, c.eventId);
    } else {
      var i := FirstIs(before, e.eventId);
      DuplicateTells(runId, before[i], e, c);
      assert before[i] == batch[i] && IsFirstWith(batch, i, c.eventId) && DuplicateOf(runId, batch[i], batch[n], c);
    }
  }

  predicate IsFirstWith(batch: seq<Event>, i: nat, id: EventId) {
    i < |batch| && batch[i].eventId == id && forall k | 0 <= k < i :: batch[k].eventId != id
  }

  ghost predicate DuplicateOf(runId: RunId, earlier: Event, e: Event, c: Conflict) {
    && earlier.eventId == e.eventId == c.eventId && c.against == Batch && c.storedEventIdAtSequence == None
    && c.runId == (if e.attributedRunId.Some? then e.attributedRunId.value else runId)
    && c.runtimeId == e.facts.runtimeId && c.sequence == e.facts.sequence
    && (FRunId in c.differences <==> RunIdFor(runId, earlier) != RunIdFor(runId, e))
    && forall f | f != FRunId :: f in c.differences <==> f in EventDifferences(earlier, e)
  }

  lemma {:induction false} DuplicateTells(runId: RunId, earlier: Event, e: Event, c: Conflict)
    requires earlier.eventId == e.eventId && c in DuplicateConflict(earlier, e, runId)
    ensures DuplicateOf(runId, earlier, e, c) && c.eventId == e.eventId
  {
    hide EventDifferences;
    DifferencesByColumn(earlier, e, FRunId);
  }

  lemma {:induction false} FirstIs(batch: seq<Event>, id: EventId) returns (i: nat)
    requires FirstWith(batch, id).Some?
    ensures IsFirstWith(batch, i, id) && FirstWith(batch, id) == Some(batch[i])
  {
    var n := |batch| - 1;
    if FirstWith(batch[..n], id).Some? {
      i := FirstIs(batch[..n], id);
      assert forall k | 0 <= k < n :: batch[..n][k] == batch[k];
    } else {
      i := n;
      assert forall k | 0 <= k < n :: batch[k] in batch[..n];
    }
  }

  /** The split keeps the first event of each id, each once. */
  lemma {:induction false} UniqueExactly(batch: seq<Event>, e: Event)
    ensures e in Unique(batch) <==> FirstWith(batch, e.eventId) == Some(e)
  {
    if batch != [] { UniqueExactly(batch[..|batch| - 1], e); }
  }

  lemma {:induction false} UniqueIds(batch: seq<Event>)
    ensures forall i, j | 0 <= i < j < |Unique(batch)| :: Unique(batch)[i].eventId != Unique(batch)[j].eventId
  {
    if batch != [] {
      var before, e := batch[..|batch| - 1], batch[|batch| - 1];
      UniqueIds(before);
      forall u | u in Unique(before) ensures u in before { UniqueExactly(before, u); }
      forall i | 0 <= i < |Unique(before)| ensures Unique(before)[i] in Unique(before) {}
    }
  }

  // ---------------------------------------------------------------------------------------------
  // Against the log
  // ---------------------------------------------------------------------------------------------

  function RowWithId(rows: seq<Stored>, id: EventId): (row: Option<Stored>)
    ensures row.Some? ==> row.value in rows && row.value.eventId == id
    ensures row.None? ==> forall r | r in rows :: r.eventId != id
  {
    if rows == [] then None
    else if rows[|rows| - 1].eventId == id then Some(rows[|rows| - 1]) else RowWithId(rows[..|rows| - 1], id)
  }

  function RowAtPosition(rows: seq<Stored>, position: (RuntimeId, nat)): (row: Option<Stored>)
    ensures row.Some? ==> row.value in rows && PositionOf(row.value.facts) == position
    ensures row.None? ==> forall r | r in rows :: PositionOf(r.facts) != position
  {
    if rows == [] then None
    else if PositionOf(rows[|rows| - 1].facts) == position then Some(rows[|rows| - 1])
    else RowAtPosition(rows[..|rows| - 1], position)
  }

  function PositionOf(facts: Facts): (RuntimeId, nat) {
    (facts.runtimeId, facts.sequence)
  }

  function LogDifferences(event: Event, sameId: Option<Stored>, runId: RunId): seq<Field> {
    if sameId.None? then [FEventId] else RedeliveryDifferences(sameId.value, event, RunIdFor(runId, event))
  }

  function LogConflict(event: Event, sameId: Option<Stored>, atPosition: Option<Stored>, runId: RunId): seq<Conflict> {
    var differences := LogDifferences(event, sameId, runId);
    if differences == [] then []
    else [Conflict(event.eventId, Log, RunIdFor(runId, event), event.facts.runtimeId, event.facts.sequence,
                   if atPosition.None? || atPosition.value.eventId == event.eventId then None
                   else Some(atPosition.value.eventId),
                   differences)]
  }

  function LogConflicts(skipped: seq<Event>, rows: seq<Stored>, runId: RunId): seq<Conflict> {
    if skipped == [] then []
    else
      var e := skipped[|skipped| - 1];
      LogConflicts(skipped[..|skipped| - 1], rows, runId)
      + LogConflict(e, RowWithId(rows, e.eventId), RowAtPosition(rows, PositionOf(e.facts)), runId)
  }

  method IndexRows(rows: seq<Stored>) returns (byId: map<EventId, Stored>, byPosition: map<(RuntimeId, nat), Stored>)
    ensures forall id :: id in byId <==> RowWithId(rows, id).Some?
    ensures forall id | id in byId :: RowWithId(rows, id) == Some(byId[id])
    ensures forall p :: p in byPosition <==> RowAtPosition(rows, p).Some?
    ensures forall p | p in byPosition :: RowAtPosition(rows, p) == Some(byPosition[p])
  {
    byId, byPosition := map[], map[];
    for i := 0 to |rows|
      invariant forall id :: id in byId <==> RowWithId(rows[..i], id).Some?
      invariant forall id | id in byId :: RowWithId(rows[..i], id) == Some(byId[id])
      invariant forall p :: p in byPosition <==> RowAtPosition(rows[..i], p).Some?
      invariant forall p | p in byPosition :: RowAtPosition(rows[..i], p) == Some(byPosition[p])
    {
      assert rows[..i + 1][..i] == rows[..i];
      byId := byId[rows[i].eventId := rows[i]];
      byPosition := byPosition[PositionOf(rows[i].facts) := rows[i]];
    }
    assert rows[..|rows|] == rows;
  }

  method ConflictingRedeliveries(skipped: seq<Event>, rows: seq<Stored>, runId: RunId) returns (conflicts: seq<Conflict>)
    ensures conflicts == LogConflicts(skipped, rows, runId)
  {
    var byId, byPosition := IndexRows(rows);
    conflicts := [];
    for i := 0 to |skipped|
      invariant conflicts == LogConflicts(skipped[..i], rows, runId)
    {
      var event := skipped[i];
      assert skipped[..i + 1][..i] == skipped[..i];
      var sameId := if event.eventId in byId then Some(byId[event.eventId]) else None;
      var position := PositionOf(event.facts);
      var atPosition := if position in byPosition then Some(byPosition[position]) else None;
      conflicts := conflicts + LogConflict(event, sameId, atPosition, runId);
    }
    assert skipped[..|skipped|] == skipped;
  }

  // ---------------------------------------------------------------------------------------------
  // What a conflict means
  // ---------------------------------------------------------------------------------------------

  /** The log holds the event, in a run that holds it. */
  predicate HeldIn(rows: seq<Stored>, event: Event, runId: RunId) {
    exists row :: row in rows && Holds(row, event, RunIdFor(runId, event))
  }

  ghost predicate UniqueRowIds(rows: seq<Stored>) {
    forall r, s | r in rows && s in rows && r.eventId == s.eventId :: r == s
  }

  /** An event is named against the log exactly when the log does not hold it. */
  lemma {:induction false} NamedWhenNotHeld(event: Event, rows: seq<Stored>, runId: RunId)
    requires UniqueRowIds(rows)
    ensures LogDifferences(event, RowWithId(rows, event.eventId), runId) == [] <==> HeldIn(rows, event, runId)
  {
    var sameId := RowWithId(rows, event.eventId);
    if sameId.Some? {
      HoldsMeansNoDifferences(sameId.value, event, RunIdFor(runId, event));
    }
  }

  lemma {:induction false} LogConflictsExactly(skipped: seq<Event>, rows: seq<Stored>, runId: RunId, id: EventId)
    requires UniqueRowIds(rows)
    ensures Named(LogConflicts(skipped, rows, runId), id)
            <==> exists e :: e in skipped && e.eventId == id && !HeldIn(rows, e, runId)
  {
    if skipped != [] {
      var before, e := skipped[..|skipped| - 1], skipped[|skipped| - 1];
      assert skipped == before + [e];
      LogConflictsExactly(before, rows, runId, id);
      NamedWhenNotHeld(e, rows, runId);
      var added := LogConflict(e, RowWithId(rows, e.eventId), RowAtPosition(rows, PositionOf(e.facts)), runId);
      NamedConcat(LogConflicts(before, rows, runId), added, id);
      if added != [] { assert added[0] in added; }
      assert Named(added, id) <==> e.eventId == id && !HeldIn(rows, e, runId);
    }
  }

  /** A conflict against the log is of a skipped event, says where it was to go, which event has its place
      when another has, and what the stored row differs in: its id when there is none, else the columns,
      the run's among them unless the row is in the event's own run or in the one appended for. */
  lemma {:induction false} LogConflictTells(skipped: seq<Event>, rows: seq<Stored>, runId: RunId, c: Conflict)
    requires c in LogConflicts(skipped, rows, runId)
    ensures exists e :: e in skipped && ConflictOf(rows, runId, e, c)
  {
    hide ConflictOf, LogConflict, RowWithId, RowAtPosition;
    var before, e := skipped[..|skipped| - 1], skipped[|skipped| - 1];
    assert skipped == before + [e];
    if c in LogConflicts(before, rows, runId) {
      LogConflictTells(before, rows, runId, c);
      var d :| d in before && ConflictOf(rows, runId, d, c);
      assert d in skipped;
    } else {
      ConflictTells(rows, runId, e, c);
    }
  }

  ghost predicate ConflictOf(rows: seq<Stored>, runId: RunId, e: Event, c: Conflict) {
    var appendedFor := if e.attributedRunId.Some? then e.attributedRunId.value else runId;
    && c.eventId == e.eventId && c.against == Log && c.runId == appendedFor
    && c.runtimeId == e.facts.runtimeId && c.sequence == e.facts.sequence
    && (c.storedEventIdAtSequence.Some? ==>
          exists r :: r in rows && r.facts.runtimeId == e.facts.runtimeId && r.facts.sequence == e.facts.sequence
                      && r.eventId == c.storedEventIdAtSequence.value != e.eventId)
    && (c.storedEventIdAtSequence.None? ==>
          (forall r | r in rows :: !(r.facts.runtimeId == e.facts.runtimeId && r.facts.sequence == e.facts.sequence))
          || exists r :: r in rows && r.facts.runtimeId == e.facts.runtimeId && r.facts.sequence == e.facts.sequence
                         && r.eventId == e.eventId)
    && (if forall r | r in rows :: r.eventId != e.eventId then c.differences == [FEventId]
        else
          exists r :: r in rows && r.eventId == e.eventId
                      && (FRunId in c.differences
                          <==> e.facts.executionId.Some? && r.runId != e.facts.executionId.value && r.runId != appendedFor)
                      && forall f | f != FRunId :: f in c.differences <==> f in EventDifferences(RowToNormalized(r), e))
  }

  lemma {:induction false} ConflictTells(rows: seq<Stored>, runId: RunId, e: Event, c: Conflict)
    requires c in LogConflict(e, RowWithId(rows, e.eventId), RowAtPosition(rows, PositionOf(e.facts)), runId)
    ensures ConflictOf(rows, runId, e, c)
  {
    hide EventDifferences;
    var sameId := RowWithId(rows, e.eventId);
    if sameId.Some? { DifferencesByColumn(RowToNormalized(sameId.value), e, FRunId); }
  }

  // ---------------------------------------------------------------------------------------------
  // Reading back only what is needed
  // ---------------------------------------------------------------------------------------------

  predicate Wanted(skipped: seq<Event>, row: Stored) {
    exists e :: e in skipped && (e.eventId == row.eventId || PositionOf(e.facts) == PositionOf(row.facts))
  }

  /** The rows of the log with the id or the position of a skipped event. */
  function ReadBack(rows: seq<Stored>, skipped: seq<Event>): seq<Stored> {
    if rows == [] then []
    else ReadBack(rows[..|rows| - 1], skipped) + if Wanted(skipped, rows[|rows| - 1]) then [rows[|rows| - 1]] else []
  }

  lemma {:induction false} ReadBackFinds(rows: seq<Stored>, skipped: seq<Event>, e: Event)
    requires e in skipped
    ensures RowWithId(ReadBack(rows, skipped), e.eventId) == RowWithId(rows, e.eventId)
    ensures RowAtPosition(ReadBack(rows, skipped), PositionOf(e.facts)) == RowAtPosition(rows, PositionOf(e.facts))
  {
    if rows != [] {
      var before, row := rows[..|rows| - 1], rows[|rows| - 1];
      ReadBackFinds(before, skipped, e);
      var back := ReadBack(before, skipped);
      if Wanted(skipped, row) {
        assert (back + [row])[..|back|] == back;
      } else {
        assert ReadBack(rows, skipped) == back;
      }
    }
  }

  /** The conflicts are those against the whole log. */
  lemma {:induction false} ReadBackIsEnough(rows: seq<Stored>, all: seq<Event>, skipped: seq<Event>, runId: RunId)
    requires forall e | e in skipped :: e in all
    ensures LogConflicts(skipped, ReadBack(rows, all), runId) == LogConflicts(skipped, rows, runId)
  {
    if skipped != [] {
      ReadBackIsEnough(rows, all, skipped[..|skipped| - 1], runId);
      ReadBackFinds(rows, all, skipped[|skipped| - 1]);
    }
  }
}
