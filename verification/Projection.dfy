/** Rebuilding a run's projections from the log (packages/telemetry/src/projector.ts), against what the
    appends wrote of them. */
module Projection {
  import opened Wrappers
  import opened Tables
  import opened RecordEvents
  import opened RecordSink

  /** A scrollback whose content was dropped: it no longer names any. */
  function Blank(s: Scrollback): Scrollback {
    s.(contentAlgo := None, contentHash := None)
  }

  /** An event as ingest appends it: its scrollback is the one its payload gives, or that one blanked
      because the output budget dropped its content. */
  predicate Ingestable(event: Event) {
    && Recordable(event)
    && match ScrollbackOf(event.facts)
       case None => event.scrollback.None?
       case Some(s) => event.scrollback == Some(s) || event.scrollback == Some(Blank(s))
  }

  // ---------------------------------------------------------------------------------------------
  // The rebuild
  // ---------------------------------------------------------------------------------------------

  predicate RowBefore(a: Stored, b: Stored) {
    a.facts.runtimeId < b.facts.runtimeId || (a.facts.runtimeId == b.facts.runtimeId && a.facts.sequence < b.facts.sequence)
  }

  /** A row put where it belongs among sorted ones. */
  function Place(row: Stored, ordered: seq<Stored>): seq<Stored> {
    if ordered == [] then [row]
    else if RowBefore(ordered[|ordered| - 1], row) then ordered + [row]
    else Place(row, ordered[..|ordered| - 1]) + [ordered[|ordered| - 1]]
  }

  function InOrder(rows: seq<Stored>): seq<Stored> {
    if rows == [] then [] else Place(rows[|rows| - 1], InOrder(rows[..|rows| - 1]))
  }

  function RowsOfRun(rows: seq<Stored>, runId: RunId): seq<Stored> {
    Filter(rows, (r: Stored) => r.runId == runId)
  }

  function Reread(row: Stored): Committed {
    Committed(RowToNormalized(row), row.runId)
  }

  /** The timeline row the log gives an event. */
  function TimelineRowOf(row: Stored): TimelineRow {
    TimelineOf(Reread(row))
  }

  /** The scrollback row the log gives an event that is an output chunk. */
  function LogChunkRow(row: Stored): ScrollbackRow {
    ChunkRowOf(Reread(row))
  }

  predicate IsChunk(row: Stored) {
    row.facts.payloadCase == IoChunk
  }

  function RebuiltTimeline(rows: seq<Stored>, runId: RunId): seq<TimelineRow> {
    Insert([], Map(TimelineRowOf, InOrder(RowsOfRun(rows, runId))), TimelineClash)
  }

  function RebuiltScrollback(rows: seq<Stored>, runId: RunId): seq<ScrollbackRow> {
    Insert([], Map(LogChunkRow, Filter(InOrder(RowsOfRun(rows, runId)), IsChunk)), ScrollbackClash)
  }

  class Projections {
    var timeline: seq<TimelineRow>
    var scrollback: seq<ScrollbackRow>

    constructor (timeline: seq<TimelineRow>, scrollback: seq<ScrollbackRow>)
      ensures this.timeline == timeline && this.scrollback == scrollback
    {
      this.timeline, this.scrollback := timeline, scrollback;
    }

    /** Deletes a run's rows, then inserts those its log gives. */
    method Rebuild(events: seq<Stored>, runId: RunId)
      modifies this
      ensures timeline == TimelineAfterRebuild(old(timeline), events, runId)
      ensures scrollback == ScrollbackAfterRebuild(old(scrollback), events, runId)
    {
      timeline := Filter(timeline, (t: TimelineRow) => t.runId != runId);
      scrollback := Filter(scrollback, (s: ScrollbackRow) => s.runId != runId);
      var rows := InOrder(RowsOfRun(events, runId));
      if rows == [] { return; }
      var normalized := Map(Reread, rows);
      var timelineRows := Map(TimelineOf, normalized);
      assert timelineRows == Map(TimelineRowOf, rows);
      timeline := InsertRows(timeline, timelineRows, TimelineClash);
      ChunksOfRows(rows);
      var scrollbackRows := Map(ChunkRowOf, Chunks(normalized));
      scrollback := InsertRows(scrollback, scrollbackRows, ScrollbackClash);
    }
  }

  /** The chunks among reread rows are the rereads of the chunk rows. */
  lemma {:induction false} ChunksOfRows(rows: seq<Stored>)
    ensures Map(ChunkRowOf, Chunks(Map(Reread, rows))) == Map(LogChunkRow, Filter(rows, IsChunk))
  {
    forall row { ChunkReread(row); }
    FilterMap(rows, Reread, IsChunk, HasChunk);
    MapMap(Filter(rows, IsChunk), Reread, ChunkRowOf, LogChunkRow);
  }

  lemma {:induction false} ChunkReread(row: Stored)
    ensures HasChunk(Reread(row)) <==> IsChunk(row)
  {
  }

  function TimelineAfterRebuild(timeline: seq<TimelineRow>, events: seq<Stored>, runId: RunId): seq<TimelineRow> {
    Insert(Filter(timeline, (t: TimelineRow) => t.runId != runId), Map(TimelineRowOf, InOrder(RowsOfRun(events, runId))),
           TimelineClash)
  }

  function ScrollbackAfterRebuild(scrollback: seq<ScrollbackRow>, events: seq<Stored>, runId: RunId): seq<ScrollbackRow> {
    Insert(Filter(scrollback, (s: ScrollbackRow) => s.runId != runId),
           Map(LogChunkRow, Filter(InOrder(RowsOfRun(events, runId)), IsChunk)), ScrollbackClash)
  }

  /** Rows that clash with none of a table's are inserted as into an empty one. */
  lemma {:induction false} InsertApart<R>(table: seq<R>, rows: seq<R>, clash: (R, R) -> bool)
    requires forall t, r | t in table && r in rows :: !clash(t, r)
    ensures Insert(table, rows, clash) == table + Insert([], rows, clash)
  {
    if rows != [] {
      InsertApart(table, rows[..|rows| - 1], clash);
      var row, before := rows[|rows| - 1], Insert([], rows[..|rows| - 1], clash);
      assert Taken(table + before, row, clash) <==> Taken(before, row, clash);
    }
  }

  lemma {:induction false} InOrderMembers(rows: seq<Stored>, r: Stored)
    ensures r in InOrder(rows) <==> r in rows
  {
    if rows != [] {
      InOrderMembers(rows[..|rows| - 1], r);
      PlaceMembers(rows[|rows| - 1], InOrder(rows[..|rows| - 1]), r);
    }
  }

  lemma {:induction false} PlaceMembers(row: Stored, ordered: seq<Stored>, r: Stored)
    ensures r in Place(row, ordered) <==> r == row || r in ordered
  {
    if ordered != [] && !RowBefore(ordered[|ordered| - 1], row) {
      PlaceMembers(row, ordered[..|ordered| - 1], r);
      assert ordered == ordered[..|ordered| - 1] + [ordered[|ordered| - 1]];
    }
  }
}
