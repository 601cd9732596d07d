/** The record's tables as one object that appends, epochs and loss spans change in place, each
    operation proved against the functions of `RecordSink`. */
module RecordStore {
  import opened Wrappers
  import opened Tables
  import opened RecordEvents
  import opened Redelivery
  import opened RecordSink
  import opened SpanPlaces

  lemma {:induction false} TimelineGrows(history: seq<Committed>, added: seq<Committed>)
    ensures TimelineTable(history + added) == Insert(TimelineTable(history), Map(TimelineOf, added), TimelineClash)
  {
    InsertConcat([], history, added, TimelineEntryClash);
    InsertMap(Insert([], history, TimelineEntryClash), added, TimelineOf, TimelineClash, TimelineEntryClash);
  }

  lemma {:induction false} ScrollbackGrows(history: seq<Committed>, added: seq<Committed>)
    ensures ScrollbackTable(history + added) == Insert(ScrollbackTable(history), Map(ChunkRowOf, Chunks(added)), ScrollbackClash)
  {
    FilterConcat(history, added, HasChunk);
    InsertConcat([], Chunks(history), Chunks(added), ScrollbackEntryClash);
    InsertFrom([], Chunks(history), ScrollbackEntryClash);
    InsertMap(Insert([], Chunks(history), ScrollbackEntryClash), Chunks(added), ChunkRowOf, ScrollbackClash, ScrollbackEntryClash);
  }

  /** The tables once the projections of what an append committed are written. */
  function TimelineAfter(timeline: seq<TimelineRow>, runId: RunId, committed: seq<Event>): seq<TimelineRow> {
    Insert(timeline, Map(TimelineOf, EntriesFor(runId, committed)), TimelineClash)
  }

  function ScrollbackAfter(scrollback: seq<ScrollbackRow>, runId: RunId, committed: seq<Event>): seq<ScrollbackRow> {
    Insert(scrollback, Map(ChunkRowOf, Chunks(EntriesFor(runId, committed))), ScrollbackClash)
  }

  function EpochsAfter(epochs: Epochs, key: (RunId, RuntimeId), committed: seq<Event>): Epochs {
    if committed == [] then epochs else RaiseTo(epochs, key, Highest(committed))
  }

  /** What an append leaves of the tables, from what its insert took. */
  lemma {:induction false} TablesGrow(history: seq<Committed>, runId: RunId, batch: seq<Event>)
    requires NoClash(history, EntryClash)
    ensures NoClash(After(history, runId, batch), EntryClash)
    ensures TimelineTable(After(history, runId, batch))
            == TimelineAfter(TimelineTable(history), runId, Newly(history, runId, batch))
    ensures ScrollbackTable(After(history, runId, batch))
            == ScrollbackAfter(ScrollbackTable(history), runId, Newly(history, runId, batch))
  {
    InsertUnique(history, EntriesFor(runId, Unique(batch)), EntryClash);
    AfterShape(history, runId, batch);
    TimelineGrows(history, EntriesFor(runId, Newly(history, runId, batch)));
    ScrollbackGrows(history, EntriesFor(runId, Newly(history, runId, batch)));
  }

  /** A timeline row is of an event the log took, each column the event's own, at its monotonic time. */
  lemma {:induction false} TimelineColumns(history: seq<Committed>, t: TimelineRow)
    requires t in TimelineTable(history)
    ensures exists c :: c in history && t.eventId == c.event.eventId && t.runId == c.runId
                        && t.sequence == c.event.facts.sequence && t.kind == c.event.facts.payloadCase
                        && t.occurredAt == c.event.facts.monotonicTimestamp && t.ref == c.event.facts.payload
  {
    InsertFrom([], history, TimelineEntryClash);
    var c :| c in Insert([], history, TimelineEntryClash) && t == TimelineOf(c);
  }

  /** And each event the log took has its row, unless the timeline already had one of the event's id, or
      of its run at its sequence. */
  lemma {:induction false} TimelineIsWhole(history: seq<Committed>, c: Committed)
    requires c in history
    ensures exists t :: t in TimelineTable(history)
                        && (t.eventId == c.event.eventId || (t.runId == c.runId && t.sequence == c.event.facts.sequence))
  {
    InsertFrom([], history, TimelineEntryClash);
    var kept := Insert([], history, TimelineEntryClash);
    var d :| d in kept && (d == c || TimelineEntryClash(d, c));
    assert TimelineOf(d) in TimelineTable(history);
  }

  /** A scrollback row is of a chunk the log took, with the event's own scrollback and sequence. */
  lemma {:induction false} ScrollbackColumns(history: seq<Committed>, s: ScrollbackRow)
    requires s in ScrollbackTable(history)
    ensures exists c :: c in history && s.eventId == c.event.eventId && s.runId == c.runId
                        && Some(s.chunk) == c.event.scrollback && s.sequence == c.event.facts.sequence
  {
    InsertFrom([], Chunks(history), ScrollbackEntryClash);
    var c :| c in Insert([], Chunks(history), ScrollbackEntryClash) && s == ChunkRowOf(c);
  }

  /** And each chunk the log took has its row, unless the table already had one of the event's id, or of
      its run, process, stream and offset. */
  lemma {:induction false} ScrollbackIsWhole(history: seq<Committed>, c: Committed)
    requires c in history && c.event.scrollback.Some?
    ensures exists s :: s in ScrollbackTable(history)
                        && (s.eventId == c.event.eventId
                            || (s.runId == c.runId && s.chunk.processId.Some?
                                && s.chunk.processId == c.event.scrollback.value.processId
                                && s.chunk.stream == c.event.scrollback.value.stream
                                && s.chunk.streamOffset == c.event.scrollback.value.streamOffset))
  {
    InsertFrom([], Chunks(history), ScrollbackEntryClash);
    var kept := Insert([], Chunks(history), ScrollbackEntryClash);
    var d :| d in kept && (d == c || ScrollbackEntryClash(d, c));
    assert d in Chunks(history) && ChunkRowOf(d) in ScrollbackTable(history);
  }

  function RowsFor(runId: RunId, batch: seq<Event>): seq<Stored> {
    Map((e: Event) => EventRow(e, RunIdFor(runId, e)), batch)
  }

  /** Inserting the rows of a batch is what the log's history takes of it. */
  lemma {:induction false} EventsGrow(history: seq<Committed>, runId: RunId, batch: seq<Event>)
    ensures var inserted := Insert(EventTable(history), RowsFor(runId, Unique(batch)), EventsClash);
            && inserted == EventTable(After(history, runId, batch))
            && (set r | r in inserted[|history|..] :: r.eventId) == TakenIds(history, runId, batch)
  {
    var entries := EntriesFor(runId, Unique(batch));
    assert Map(RowOf, entries) == RowsFor(runId, Unique(batch));
    InsertMap(history, entries, RowOf, EventsClash, EntryClash);
    var after := After(history, runId, batch);
    assert EventTable(after)[|history|..] == EventTable(after[|history|..]);
  }

  lemma {:induction false} NothingUnique(batch: seq<Event>)
    ensures Unique(batch) == [] ==> batch == []
  {
    if batch != [] {
      assert batch[0] in batch;
      var first := FirstWith(batch, batch[0].eventId);
      UniqueExactly(batch, first.value);
    }
  }

  lemma {:induction false} NothingAppended(history: seq<Committed>, runId: RunId)
    ensures After(history, runId, []) == history && AppendResultOf(history, runId, []) == Appended([])
    ensures Newly(history, runId, []) == []
  {
    assert EntriesFor(runId, []) == [];
    assert AppendConflicts(history, runId, []) == [];
  }

  method HighestSequence(batch: seq<Event>) returns (highest: nat)
    requires batch != []
    ensures Highest(batch) == Some(highest)
    ensures exists e :: e in batch && e.facts.sequence == highest
    ensures forall e | e in batch :: e.facts.sequence <= highest
  {
    HighestIsHighest(batch);
    highest := batch[0].facts.sequence;
    assert batch[..1][..0] == [];
    for i := 1 to |batch|
      invariant Highest(batch[..i]) == Some(highest)
    {
      assert batch[..i + 1][..i] == batch[..i];
      if batch[i].facts.sequence > highest { highest := batch[i].facts.sequence; }
    }
    assert batch[..|batch|] == batch;
  }

  /** What an append of `committed` makes of its runtime's epoch: the last sequence becomes the greater of
      what it was and the highest committed; the rest of the epoch, and every other epoch, stays. */
  lemma {:induction false} AppendRaises(epochs: Epochs, key: (RunId, RuntimeId), committed: seq<Event>)
    ensures EpochsAfter(epochs, key, committed).Keys == epochs.Keys
    ensures forall k | k in epochs && k != key :: EpochsAfter(epochs, key, committed)[k] == epochs[k]
    ensures key in epochs ==>
              var was, now := epochs[key], EpochsAfter(epochs, key, committed)[key];
              && now == was.(lastSequence := now.lastSequence)
              && (forall e | e in committed :: now.lastSequence.Some? && e.facts.sequence <= now.lastSequence.value)
              && (was.lastSequence.Some? ==> now.lastSequence.Some? && was.lastSequence.value <= now.lastSequence.value)
              && (now.lastSequence == was.lastSequence
                  || exists e :: e in committed && now.lastSequence == Some(e.facts.sequence))
  {
    HighestIsHighest(committed);
  }

  /** A runtime's last sequence once its epoch is closed: no lower than it was, nor than any sequence the
      log holds of the runtime, and one of these. */
  ghost predicate EndsAt(rows: seq<Stored>, runtimeId: RuntimeId, was: Option<nat>, now: Option<nat>) {
    && (forall r | r in rows && r.facts.runtimeId == runtimeId :: now.Some? && r.facts.sequence <= now.value)
    && (was.Some? ==> now.Some? && was.value <= now.value)
    && (now == was || exists r :: r in rows && r.facts.runtimeId == runtimeId && now == Some(r.facts.sequence))
  }

  lemma {:induction false} EndsAtHighest(rows: seq<Stored>, runtimeId: RuntimeId, was: Option<nat>)
    ensures EndsAt(rows, runtimeId, was, Greatest(was, MaxSequence(rows, runtimeId)))
  {
    MaxSequenceIsHighest(rows, runtimeId);
  }

  class Store {
    var events: seq<Stored>
    var timeline: seq<TimelineRow>
    var scrollback: seq<ScrollbackRow>
    var epochs: Epochs
    var lossSpans: LossSpans
    /** The events the log took, in the order it took them. */
    ghost var history: seq<Committed>

    ghost predicate Valid()
      reads this
    {
      && events == EventTable(history) && NoClash(history, EntryClash)
      && timeline == TimelineTable(history) && scrollback == ScrollbackTable(history)
    }

    constructor ()
      ensures Valid() && history == [] && epochs == map[] && lossSpans == map[]
    {
      events, timeline, scrollback, epochs, lossSpans, history := [], [], [], map[], map[], [];
    }

    /** Opens the epoch of a runtime in a run, unless it has one; says where to resume. */
    method OpenEpoch(runId: RunId, runtimeId: RuntimeId, schemaVersion: int) returns (resumeFrom: Option<nat>)
      requires Valid()
      modifies this`epochs
      ensures Valid()
      ensures epochs == if (runId, runtimeId) in old(epochs) then old(epochs)
                        else old(epochs)[(runId, runtimeId) := Epoch(schemaVersion, Open, None, None)]
      ensures (runId, runtimeId) in epochs && forall key | key in old(epochs) :: epochs[key] == old(epochs)[key]
      ensures resumeFrom == MaxSequence(events, runtimeId)
      ensures resumeFrom.None? <==> forall r | r in events :: r.facts.runtimeId != runtimeId
      ensures forall r | r in events && r.facts.runtimeId == runtimeId :: r.facts.sequence <= resumeFrom.value
      ensures resumeFrom.Some? ==> exists r :: r in events && PositionOf(r.facts) == (runtimeId, resumeFrom.value)
    {
      MaxSequenceIsHighest(events, runtimeId);
      if (runId, runtimeId) !in epochs {
        epochs := epochs[(runId, runtimeId) := Epoch(schemaVersion, Open, None, None)];
      }
      resumeFrom := MaxSequence(events, runtimeId);
    }

    /** Appends a batch: what is new goes into the log and its projections; what the insert did not
        take is read back, and the append fails with what differs. */
    method AppendBatch(runId: RunId, runtimeId: RuntimeId, batch: seq<Event>) returns (result: AppendResult)
      requires Valid()
      modifies this`events, this`history, this`timeline, this`scrollback, this`epochs
      ensures Valid()
      ensures history == After(old(history), runId, batch)
      ensures result == AppendResultOf(old(history), runId, batch)
      ensures epochs == EpochsAfter(old(epochs), (runId, runtimeId), Newly(old(history), runId, batch))
      ensures epochs.Keys == old(epochs).Keys && forall k | k in epochs && k != (runId, runtimeId) :: epochs[k] == old(epochs)[k]
      ensures (runId, runtimeId) in old(epochs) ==>
                var was, now := old(epochs)[(runId, runtimeId)], epochs[(runId, runtimeId)];
                && now == was.(lastSequence := now.lastSequence)
                && (forall e | e in Newly(old(history), runId, batch) ::
                      now.lastSequence.Some? && e.facts.sequence <= now.lastSequence.value)
                && (was.lastSequence.Some? ==> now.lastSequence.Some? && was.lastSequence.value <= now.lastSequence.value)
                && (now.lastSequence == was.lastSequence
                    || exists e :: e in Newly(old(history), runId, batch) && now.lastSequence == Some(e.facts.sequence))
    {
      AppendRaises(epochs, (runId, runtimeId), Newly(history, runId, batch));
      var unique, inBatch := SplitDuplicateIds(batch, runId);
      if unique == [] {
        NothingUnique(batch);
        NothingAppended(history, runId);
        return Appended([]);
      }
      result := AppendUnique(runId, runtimeId, batch, unique, inBatch);
    }

    /** The append of a batch already split, as one transaction and the read-back after it. */
    method AppendUnique(runId: RunId, runtimeId: RuntimeId, ghost batch: seq<Event>, unique: seq<Event>, inBatch: seq<Conflict>)
      returns (result: AppendResult)
      requires Valid() && unique == Unique(batch) && inBatch == BatchConflicts(batch, runId)
      modifies this`events, this`history, this`timeline, this`scrollback, this`epochs
      ensures Valid()
      ensures history == After(old(history), runId, batch)
      ensures result == AppendResultOf(old(history), runId, batch)
      ensures epochs == EpochsAfter(old(epochs), (runId, runtimeId), Newly(old(history), runId, batch))
    {
      TablesGrow(history, runId, batch);
      var committed, skipped := TakeEvents(runId, batch, unique);
      Project(runId, runtimeId, committed);
      var back := ReadBackConflicts(runId, skipped);
      var conflicts := inBatch + back;
      result := if conflicts == [] then Appended(committed) else Conflicted(conflicts);
    }

    /** Inserts the rows of a split batch; says which events it took and which it did not. */
    method TakeEvents(runId: RunId, ghost batch: seq<Event>, unique: seq<Event>) returns (committed: seq<Event>, skipped: seq<Event>)
      requires unique == Unique(batch) && events == EventTable(history)
      modifies this`events, this`history
      ensures history == After(old(history), runId, batch) && events == EventTable(history)
      ensures committed == Newly(old(history), runId, batch) && skipped == Skipped(old(history), runId, batch)
    {
      EventsGrow(history, runId, batch);
      var inserted := InsertRows(events, RowsFor(runId, unique), EventsClash);
      var taken := set r | r in inserted[|events|..] :: r.eventId;
      events, history := inserted, After(history, runId, batch);
      committed, skipped := Only(unique, taken), Except(unique, taken);
    }

    /** The conflicts of the events an insert did not take, against the rows read back. */
    method ReadBackConflicts(runId: RunId, skipped: seq<Event>) returns (conflicts: seq<Conflict>)
      ensures conflicts == LogConflicts(skipped, events, runId)
    {
      if skipped == [] { return []; }
      conflicts := ConflictingRedeliveries(skipped, ReadBack(events, skipped), runId);
      ReadBackIsEnough(events, skipped, skipped, runId);
    }

    /** Writes the projections of the events an append committed, and raises its epoch. */
    method Project(runId: RunId, runtimeId: RuntimeId, committed: seq<Event>)
      modifies this`timeline, this`scrollback, this`epochs
      ensures timeline == TimelineAfter(old(timeline), runId, committed)
      ensures scrollback == ScrollbackAfter(old(scrollback), runId, committed)
      ensures epochs == EpochsAfter(old(epochs), (runId, runtimeId), committed)
    {
      if committed == [] {
        assert EntriesFor(runId, committed) == [];
        return;
      }
      var entries := EntriesFor(runId, committed);
      var timelineRows := Map(TimelineOf, entries);
      timeline := InsertRows(timeline, timelineRows, TimelineClash);
      var scrollbackRows := Map(ChunkRowOf, Chunks(entries));
      scrollback := InsertRows(scrollback, scrollbackRows, ScrollbackClash);
      var highest := HighestSequence(committed);
      epochs := RaiseTo(epochs, (runId, runtimeId), Some(highest));
    }

    method InsertLossSpan(runId: RunId, runtimeId: RuntimeId, span: LossSpan)
      requires Valid()
      modifies this`lossSpans
      ensures Valid()
      ensures lossSpans == AddSpan(old(lossSpans), SpanId(runId, runtimeId, span), span)
      ensures SpanId(runId, runtimeId, span) in lossSpans && forall id | id in old(lossSpans) :: lossSpans[id] == old(lossSpans)[id]
    {
      lossSpans := AddSpan(lossSpans, SpanId(runId, runtimeId, span), span);
    }

    /** Closes an epoch at the highest sequence the log holds of its runtime, never lowering what it
        had, and records an early close when its end was suspicious. */
    method CloseEpoch(runId: RunId, runtimeId: RuntimeId, reason: CloseReason, suspicious: bool)
      requires Valid()
      modifies this`epochs, this`lossSpans
      ensures Valid()
      ensures var key := (runId, runtimeId);
              epochs == if key !in old(epochs) then old(epochs)
                        else RaiseTo(old(epochs)[key := old(epochs)[key].(status := Closed, closeReason := Some(reason))], key,
                                     MaxSequence(events, runtimeId))
      ensures (runId, runtimeId) in old(epochs) ==>
                && (runId, runtimeId) in epochs
                && var was, now := old(epochs)[(runId, runtimeId)].lastSequence, epochs[(runId, runtimeId)].lastSequence;
                   && epochs[(runId, runtimeId)] == Epoch(old(epochs)[(runId, runtimeId)].schemaVersion, Closed, now, Some(reason))
                   && EndsAt(events, runtimeId, was, now)
      ensures var span := LossSpan(EarlyClose, None, MaxSequence(events, runtimeId), None, None);
              lossSpans == if suspicious then AddSpan(old(lossSpans), SpanId(runId, runtimeId, span), span) else old(lossSpans)
    {
      hide EndsAt, MaxSequence, SpanId, PlaceText, AddSpan, Greatest, EventTable, TimelineTable, ScrollbackTable;
      var highest := MaxSequence(events, runtimeId);
      if (runId, runtimeId) in epochs {
        var epoch := epochs[(runId, runtimeId)];
        EndsAtHighest(events, runtimeId, epoch.lastSequence);
        epochs := epochs[(runId, runtimeId) := epoch.(status := Closed, closeReason := Some(reason),
                                                       lastSequence := Greatest(epoch.lastSequence, highest))];
      }
      if suspicious {
        var span := LossSpan(EarlyClose, None, highest, None, None);
        lossSpans := AddSpan(lossSpans, SpanId(runId, runtimeId, span), span);
      }
    }
  }
}
