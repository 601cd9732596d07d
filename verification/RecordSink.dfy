/** The record's tables and the appends that write them (packages/telemetry/src/sink.ts). Each append
    is one transaction followed by the read-back of what it did not take. */
module RecordSink {
  import opened Wrappers
  import opened Tables
  import opened RecordEvents
  import opened Redelivery
  import opened SpanPlaces

  datatype TimelineRow = TimelineRow(eventId: EventId, runId: RunId, sequence: nat, kind: PayloadCase, occurredAt: int,
                                     ref: Payload)
  datatype ScrollbackRow = ScrollbackRow(eventId: EventId, runId: RunId, chunk: Scrollback, sequence: nat)

  /** An event the log took, and the run it is in. */
  datatype Committed = Committed(event: Event, runId: RunId)

  // ---------------------------------------------------------------------------------------------
  // Rows and their keys
  // ---------------------------------------------------------------------------------------------

  function RowOf(c: Committed): Stored {
    EventRow(c.event, c.runId)
  }

  function TimelineOf(c: Committed): TimelineRow {
    var f := c.event.facts;
    TimelineRow(c.event.eventId, c.runId, f.sequence, f.payloadCase, f.monotonicTimestamp, f.payload)
  }

  function ScrollbackRowOf(c: Committed): ScrollbackRow
    requires c.event.scrollback.Some?
  {
    ScrollbackRow(c.event.eventId, c.runId, c.event.scrollback.value, c.event.facts.sequence)
  }

  predicate EventsClash(a: Stored, b: Stored) {
    a.eventId == b.eventId || PositionOf(a.facts) == PositionOf(b.facts)
  }

  predicate TimelineClash(a: TimelineRow, b: TimelineRow) {
    a.eventId == b.eventId || (a.runId == b.runId && a.sequence == b.sequence)
  }

  /** A chunk of no process clashes with none: the unique key holds nulls apart. */
  predicate ScrollbackClash(a: ScrollbackRow, b: ScrollbackRow) {
    || a.eventId == b.eventId
    || (&& a.runId == b.runId && a.chunk.processId.Some? && a.chunk.processId == b.chunk.processId
        && a.chunk.stream == b.chunk.stream && a.chunk.streamOffset == b.chunk.streamOffset)
  }

  predicate EntryClash(a: Committed, b: Committed) {
    EventsClash(RowOf(a), RowOf(b))
  }

  predicate TimelineEntryClash(a: Committed, b: Committed) {
    TimelineClash(TimelineOf(a), TimelineOf(b))
  }

  predicate ScrollbackEntryClash(a: Committed, b: Committed) {
    && a.event.scrollback.Some? && b.event.scrollback.Some?
    && ScrollbackClash(ScrollbackRowOf(a), ScrollbackRowOf(b))
  }

  /** A row for an entry that may have no scrollback: none is ever asked of those. */
  function ChunkRowOf(c: Committed): ScrollbackRow {
    if c.event.scrollback.Some? then ScrollbackRowOf(c)
    else ScrollbackRow(c.event.eventId, c.runId, Scrollback(None, None, 0, 0, 0, None, None, false, false, false, None), 0)
  }

  /** The entries with a scrollback row. */
  function Chunks(entries: seq<Committed>): (chunks: seq<Committed>) {
    Filter(entries, HasChunk)
  }

  predicate HasChunk(c: Committed) {
    c.event.scrollback.Some?
  }

  function EventTable(history: seq<Committed>): seq<Stored> {
    Map(RowOf, history)
  }

  function TimelineTable(history: seq<Committed>): seq<TimelineRow> {
    Map(TimelineOf, Insert([], history, TimelineEntryClash))
  }

  function ScrollbackTable(history: seq<Committed>): seq<ScrollbackRow> {
    Map(ChunkRowOf, Insert([], Chunks(history), ScrollbackEntryClash))
  }

  // ---------------------------------------------------------------------------------------------
  // One append
  // ---------------------------------------------------------------------------------------------

  function EntryFor(runId: RunId, event: Event): Committed {
    Committed(event, RunIdFor(runId, event))
  }

  function EntriesFor(runId: RunId, batch: seq<Event>): seq<Committed> {
    Map((e: Event) => EntryFor(runId, e), batch)
  }

  /** The log after an append. */
  function After(history: seq<Committed>, runId: RunId, batch: seq<Event>): (after: seq<Committed>)
    ensures history <= after
  {
    Insert(history, EntriesFor(runId, Unique(batch)), EntryClash)
  }

  function IdsOf(entries: seq<Committed>): set<EventId> {
    set c | c in entries :: c.event.eventId
  }

  /** The ids the append's insert returned. */
  function TakenIds(history: seq<Committed>, runId: RunId, batch: seq<Event>): set<EventId> {
    IdsOf(After(history, runId, batch)[|history|..])
  }

  function Only(batch: seq<Event>, ids: set<EventId>): (kept: seq<Event>)
    ensures forall e :: e in kept <==> e in batch && e.eventId in ids
  {
    if batch == [] then []
    else Only(batch[..|batch| - 1], ids) + if batch[|batch| - 1].eventId in ids then [batch[|batch| - 1]] else []
  }

  function Except(batch: seq<Event>, ids: set<EventId>): (left: seq<Event>)
    ensures forall e :: e in left <==> e in batch && e.eventId !in ids
  {
    if batch == [] then []
    else Except(batch[..|batch| - 1], ids) + if batch[|batch| - 1].eventId in ids then [] else [batch[|batch| - 1]]
  }

  function Newly(history: seq<Committed>, runId: RunId, batch: seq<Event>): seq<Event> {
    Only(Unique(batch), TakenIds(history, runId, batch))
  }

  function Skipped(history: seq<Committed>, runId: RunId, batch: seq<Event>): seq<Event> {
    Except(Unique(batch), TakenIds(history, runId, batch))
  }

  function AppendConflicts(history: seq<Committed>, runId: RunId, batch: seq<Event>): seq<Conflict> {
    BatchConflicts(batch, runId)
    + LogConflicts(Skipped(history, runId, batch), EventTable(After(history, runId, batch)), runId)
  }

  datatype AppendResult = Appended(newly: seq<Event>) | Conflicted(conflicts: seq<Conflict>)

  function AppendResultOf(history: seq<Committed>, runId: RunId, batch: seq<Event>): AppendResult {
    var conflicts := AppendConflicts(history, runId, batch);
    if conflicts == [] then Appended(Newly(history, runId, batch)) else Conflicted(conflicts)
  }

  // ---------------------------------------------------------------------------------------------
  // Epochs and loss spans
  // ---------------------------------------------------------------------------------------------

  datatype EpochStatus = Open | Closed
  datatype CloseReason = StreamEnd | TransportClose | Shutdown
  datatype Epoch = Epoch(schemaVersion: int, status: EpochStatus, lastSequence: Option<nat>, closeReason: Option<CloseReason>)
  type Epochs = map<(RunId, RuntimeId), Epoch>

  /** A span's id: its run, its runtime, and the text of its place. */
  datatype LossSpanId = LossSpanId(runId: RunId, runtimeId: RuntimeId, place: string)
  type LossSpans = map<LossSpanId, LossSpan>

  function SpanId(runId: RunId, runtimeId: RuntimeId, span: LossSpan): LossSpanId {
    LossSpanId(runId, runtimeId, PlaceText(span))
  }

  function AddSpan(spans: LossSpans, id: LossSpanId, span: LossSpan): LossSpans {
    if id in spans then spans else spans[id := span]
  }

  function Greatest(a: Option<nat>, b: Option<nat>): Option<nat> {
    if a.None? then b else if b.None? then a else Some(if a.value < b.value then b.value else a.value)
  }

  function RaiseTo(epochs: Epochs, key: (RunId, RuntimeId), sequence: Option<nat>): Epochs {
    if key in epochs then epochs[key := epochs[key].(lastSequence := Greatest(epochs[key].lastSequence, sequence))] else epochs
  }

  /** Two spans share an id exactly when they are of one place of one runtime in one run. */
  lemma {:induction false} SpanIdsTellApart(runId: RunId, runtimeId: RuntimeId, a: LossSpan, otherRun: RunId,
                                           otherRuntime: RuntimeId, b: LossSpan)
    ensures SpanId(runId, runtimeId, a) == SpanId(otherRun, otherRuntime, b)
            <==> runId == otherRun && runtimeId == otherRuntime && SamePlace(a, b)
  {
    PlacesTellApart(a, b);
  }

  function AddSpans(spans: LossSpans, runId: RunId, runtimeId: RuntimeId, found: seq<LossSpan>): LossSpans {
    if found == [] then spans
    else
      var span := found[|found| - 1];
      AddSpan(AddSpans(spans, runId, runtimeId, found[..|found| - 1]), SpanId(runId, runtimeId, span), span)
  }

  lemma {:induction false} SpansStay(spans: LossSpans, runId: RunId, runtimeId: RuntimeId, found: seq<LossSpan>)
    ensures forall id | id in spans :: id in AddSpans(spans, runId, runtimeId, found) && AddSpans(spans, runId, runtimeId, found)[id] == spans[id]
    ensures forall span | span in found :: SpanId(runId, runtimeId, span) in AddSpans(spans, runId, runtimeId, found)
  {
    if found != [] {
      SpansStay(spans, runId, runtimeId, found[..|found| - 1]);
      assert found == found[..|found| - 1] + [found[|found| - 1]];
    }
  }

  lemma {:induction false} KnownSpansAddNothing(spans: LossSpans, runId: RunId, runtimeId: RuntimeId, found: seq<LossSpan>)
    requires forall span | span in found :: SpanId(runId, runtimeId, span) in spans
    ensures AddSpans(spans, runId, runtimeId, found) == spans
  {
    if found != [] {
      assert forall span | span in found[..|found| - 1] :: span in found;
      KnownSpansAddNothing(spans, runId, runtimeId, found[..|found| - 1]);
      assert found[|found| - 1] in found;
    }
  }

  /** Ingesting a stream again records no loss twice, and keeps what was recorded of each. */
  lemma {:induction false} ReplayAddsNoSpan(spans: LossSpans, runId: RunId, runtimeId: RuntimeId, found: seq<LossSpan>)
    ensures var once := AddSpans(spans, runId, runtimeId, found); AddSpans(once, runId, runtimeId, found) == once
  {
    SpansStay(spans, runId, runtimeId, found);
    KnownSpansAddNothing(AddSpans(spans, runId, runtimeId, found), runId, runtimeId, found);
  }

  predicate AtMost(a: Option<nat>, b: Option<nat>) {
    a.None? || (b.Some? && a.value <= b.value)
  }

  /** Whichever writer commits last, no epoch's last sequence is lowered, and the one raised is at least
      what it was raised to. */
  lemma {:induction false} NeverLowered(epochs: Epochs, key: (RunId, RuntimeId), sequence: Option<nat>, k: (RunId, RuntimeId))
    requires k in epochs
    ensures k in RaiseTo(epochs, key, sequence) && AtMost(epochs[k].lastSequence, RaiseTo(epochs, key, sequence)[k].lastSequence)
    ensures k == key ==> AtMost(sequence, RaiseTo(epochs, key, sequence)[k].lastSequence)
    ensures RaiseTo(epochs, key, sequence)[k] == epochs[k]
            || (k == key && RaiseTo(epochs, key, sequence)[k] == epochs[k].(lastSequence := sequence))
    ensures RaiseTo(RaiseTo(epochs, key, sequence), key, sequence) == RaiseTo(epochs, key, sequence)
  {
  }

  /** The highest sequence of a batch. */
  function Highest(batch: seq<Event>): Option<nat> {
    if batch == [] then None else Greatest(Highest(batch[..|batch| - 1]), Some(batch[|batch| - 1].facts.sequence))
  }

  lemma {:induction false} HighestIsHighest(batch: seq<Event>)
    ensures Highest(batch).None? <==> batch == []
    ensures Highest(batch).Some? ==> exists e :: e in batch && e.facts.sequence == Highest(batch).value
    ensures forall e | e in batch :: Highest(batch).Some? && e.facts.sequence <= Highest(batch).value
  {
    if batch != [] {
      var before, last := batch[..|batch| - 1], batch[|batch| - 1];
      HighestIsHighest(before);
      forall e | e in batch ensures e.facts.sequence <= Highest(batch).value {
        var i :| 0 <= i < |batch| && batch[i] == e;
        assert i < |before| ==> before[i] in before;
      }
      if before == [] || Highest(before).value < last.facts.sequence {
        assert last in batch;
      } else {
        var e :| e in before && e.facts.sequence == Highest(before).value;
        assert e in batch;
      }
    }
  }

  /** The highest sequence the log holds of a runtime. */
  function MaxSequence(rows: seq<Stored>, runtimeId: RuntimeId): Option<nat> {
    if rows == [] then None
    else
      var before, row := MaxSequence(rows[..|rows| - 1], runtimeId), rows[|rows| - 1];
      if row.facts.runtimeId == runtimeId then Greatest(before, Some(row.facts.sequence)) else before
  }

  lemma {:induction false} MaxSequenceIsHighest(rows: seq<Stored>, runtimeId: RuntimeId)
    ensures forall r | r in rows && r.facts.runtimeId == runtimeId ::
              MaxSequence(rows, runtimeId).Some? && r.facts.sequence <= MaxSequence(rows, runtimeId).value
    ensures MaxSequence(rows, runtimeId).Some? ==>
              exists r :: r in rows && PositionOf(r.facts) == (runtimeId, MaxSequence(rows, runtimeId).value)
  {
    if rows != [] {
      var before, row := rows[..|rows| - 1], rows[|rows| - 1];
      assert rows == before + [row];
      MaxSequenceIsHighest(before, runtimeId);
    }
  }

  // ---------------------------------------------------------------------------------------------
  // What the insert took
  // ---------------------------------------------------------------------------------------------

  lemma {:induction false} OnlyIds(batch: seq<Event>, ids: set<EventId>, more: set<EventId>)
    requires forall e | e in batch :: e.eventId in ids <==> e.eventId in more
    ensures Only(batch, ids) == Only(batch, more) && Except(batch, ids) == Except(batch, more)
  {
    if batch != [] {
      assert batch[|batch| - 1] in batch;
      OnlyIds(batch[..|batch| - 1], ids, more);
    }
  }

  ghost predicate DistinctIds(batch: seq<Event>) {
    forall i, j | 0 <= i < j < |batch| :: batch[i].eventId != batch[j].eventId
  }

  /** The entries inserted are those of the batch the insert returned, in their order. */
  ghost predicate TookOnly(entries: seq<Committed>, runId: RunId, batch: seq<Event>) {
    entries == EntriesFor(runId, Only(batch, IdsOf(entries)))
  }

  lemma {:induction false} InsertedEntries(history: seq<Committed>, runId: RunId, unique: seq<Event>)
    requires DistinctIds(unique)
    ensures TookOnly(Insert(history, EntriesFor(runId, unique), EntryClash)[|history|..], runId, unique)
  {
    if unique == [] {
      assert Insert(history, [], EntryClash)[|history|..] == [];
    } else {
      var before, e := unique[..|unique| - 1], unique[|unique| - 1];
      assert EntriesFor(runId, unique)[..|unique| - 1] == EntriesFor(runId, before);
      InsertedEntries(history, runId, before);
      InsertedOneMore(history, Insert(history, EntriesFor(runId, before), EntryClash), runId, before, e);
      assert unique == before + [e];
    }
  }

  lemma {:induction false} InsertedOneMore(history: seq<Committed>, inserted: seq<Committed>, runId: RunId, before: seq<Event>, e: Event)
    requires (forall b | b in before :: b.eventId != e.eventId) && history <= inserted
    requires TookOnly(inserted[|history|..], runId, before)
    ensures TookOnly(InsertOne(inserted, EntryFor(runId, e), EntryClash)[|history|..], runId, before + [e])
  {
    var entries := inserted[|history|..];
    if Taken(inserted, EntryFor(runId, e), EntryClash) {
      OneLeft(runId, before, e, entries);
    } else {
      assert (inserted + [EntryFor(runId, e)])[|history|..] == entries + [EntryFor(runId, e)];
      OneTaken(runId, before, e, entries);
    }
  }

  lemma {:induction false} OneLeft(runId: RunId, before: seq<Event>, e: Event, entries: seq<Committed>)
    requires forall b | b in before :: b.eventId != e.eventId
    requires TookOnly(entries, runId, before)
    ensures TookOnly(entries, runId, before + [e])
  {
    assert (before + [e])[..|before|] == before;
    forall c | c in entries ensures c.event.eventId != e.eventId {
      assert c.event in Only(before, IdsOf(entries));
    }
  }

  lemma {:induction false} OneTaken(runId: RunId, before: seq<Event>, e: Event, entries: seq<Committed>)
    requires forall b | b in before :: b.eventId != e.eventId
    requires TookOnly(entries, runId, before)
    ensures TookOnly(entries + [EntryFor(runId, e)], runId, before + [e])
  {
    var after := entries + [EntryFor(runId, e)];
    assert (before + [e])[..|before|] == before;
    assert after[|entries|] in after;
    assert e.eventId in IdsOf(after);
    forall b | b in before ensures b.eventId in IdsOf(entries) <==> b.eventId in IdsOf(after) {
      if b.eventId in IdsOf(entries) {
        var c :| c in entries && c.event.eventId == b.eventId;
        assert c in after;
      }
    }
    OnlyIds(before, IdsOf(entries), IdsOf(after));
  }

  lemma {:induction false} AfterShape(history: seq<Committed>, runId: RunId, batch: seq<Event>)
    ensures After(history, runId, batch) == history + EntriesFor(runId, Newly(history, runId, batch))
  {
    UniqueIds(batch);
    InsertedEntries(history, runId, Unique(batch));
    var after := After(history, runId, batch);
    assert after == history + after[|history|..];
  }
}
