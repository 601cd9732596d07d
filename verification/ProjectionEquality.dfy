/** Exactly when rebuilding a run's projections gives back what its appends wrote. */
module ProjectionEquality {
  import opened Wrappers
  import opened Tables
  import opened RecordEvents
  import opened Redelivery
  import opened RecordSink
  import opened AppendVerdicts
  import opened Projection

  // ---------------------------------------------------------------------------------------------
  // The rebuild's order
  // ---------------------------------------------------------------------------------------------

  lemma {:induction false} PlaceSorted(row: Stored, ordered: seq<Stored>)
    requires StrictlySorted(ordered, RowBefore) && forall o | o in ordered :: PositionOf(o.facts) != PositionOf(row.facts)
    ensures StrictlySorted(Place(row, ordered), RowBefore)
  {
    if ordered != [] && !RowBefore(ordered[|ordered| - 1], row) {
      var before, last := ordered[..|ordered| - 1], ordered[|ordered| - 1];
      assert forall o | o in before :: o in ordered;
      PlaceSorted(row, before);
      assert last in ordered;
      forall p | p in Place(row, before) ensures RowBefore(p, last) { PlacedBefore(row, ordered, p); }
      SortedSnoc(Place(row, before), last);
    } else if ordered != [] {
      assert ordered[|ordered| - 1] in ordered;
      forall p | p in ordered ensures RowBefore(p, row) { LastIsGreatest(ordered, p); }
      SortedSnoc(ordered, row);
    }
  }

  lemma {:induction false} LastIsGreatest(ordered: seq<Stored>, p: Stored)
    requires StrictlySorted(ordered, RowBefore) && p in ordered
    ensures p == ordered[|ordered| - 1] || RowBefore(p, ordered[|ordered| - 1])
  {
    var i :| 0 <= i < |ordered| && ordered[i] == p;
  }

  lemma {:induction false} PlacedBefore(row: Stored, ordered: seq<Stored>, p: Stored)
    requires ordered != [] && StrictlySorted(ordered, RowBefore) && p in Place(row, ordered[..|ordered| - 1])
    requires !RowBefore(ordered[|ordered| - 1], row) && PositionOf(ordered[|ordered| - 1].facts) != PositionOf(row.facts)
    ensures RowBefore(p, ordered[|ordered| - 1])
  {
    PlaceMembers(row, ordered[..|ordered| - 1], p);
  }

  lemma {:induction false} SortedSnoc(ordered: seq<Stored>, row: Stored)
    requires StrictlySorted(ordered, RowBefore) && forall p | p in ordered :: RowBefore(p, row)
    ensures StrictlySorted(ordered + [row], RowBefore)
  {
  }

  lemma {:induction false} InOrderSorted(rows: seq<Stored>)
    requires NoClash(rows, EventsClash)
    ensures StrictlySorted(InOrder(rows), RowBefore)
  {
    if rows != [] {
      var before, row := rows[..|rows| - 1], rows[|rows| - 1];
      InOrderSorted(before);
      forall o | o in InOrder(before) ensures PositionOf(o.facts) != PositionOf(row.facts) {
        InOrderMembers(before, o);
        var i :| 0 <= i < |before| && before[i] == o;
        assert !EventsClash(rows[i], row);
      }
      PlaceSorted(row, InOrder(before));
    }
  }

  lemma {:induction false} FilterKeepsApart(rows: seq<Stored>, keep: Stored -> bool)
    requires NoClash(rows, EventsClash)
    ensures NoClash(Filter(rows, keep), EventsClash)
  {
    if rows != [] {
      var before, row := rows[..|rows| - 1], rows[|rows| - 1];
      FilterKeepsApart(before, keep);
      forall i | 0 <= i < |Filter(before, keep)| ensures !EventsClash(Filter(before, keep)[i], row) {
        assert Filter(before, keep)[i] in before;
        var j :| 0 <= j < |before| && before[j] == Filter(before, keep)[i];
        assert !EventsClash(rows[j], row);
      }
    }
  }

  lemma {:induction false} FilterKeepsSorted(rows: seq<Stored>, keep: Stored -> bool)
    requires StrictlySorted(rows, RowBefore)
    ensures StrictlySorted(Filter(rows, keep), RowBefore)
  {
    if rows != [] {
      var before, row := rows[..|rows| - 1], rows[|rows| - 1];
      FilterKeepsSorted(before, keep);
      if keep(row) {
        forall p | p in Filter(before, keep) ensures RowBefore(p, row) {
          var i :| 0 <= i < |before| && before[i] == p;
        }
        SortedSnoc(Filter(before, keep), row);
      } else {
        assert Filter(rows, keep) == Filter(before, keep);
      }
    }
  }

  // ---------------------------------------------------------------------------------------------
  // Keeping the same rows of the log
  // ---------------------------------------------------------------------------------------------

  type Clash = (Stored, Stored) -> bool

  predicate Kept(rows: seq<Stored>, clash: Clash, r: Stored) {
    r in Insert([], rows, clash)
  }

  /** What the appends kept of a run, a rebuild keeps, and nothing else. */
  ghost predicate SameKeptOfRun(rows: seq<Stored>, ordered: seq<Stored>, clash: Clash, runId: RunId) {
    forall r :: Kept(ordered, clash, r) <==> Kept(rows, clash, r) && r.runId == runId
  }

  /** Each row of the run that was kept comes, in the log's order, before every one it kept out. */
  ghost predicate EarliestKept(rows: seq<Stored>, clash: Clash, runId: RunId) {
    forall c, d | Kept(rows, clash, c) && c.runId == runId && d in rows && d != c && clash(d, c) :: RowBefore(c, d)
  }

  /** Of the rows of the run that clash, the one committed first is also the first in the log's order. */
  ghost predicate CommittedInOrder(rows: seq<Stored>, clash: Clash, runId: RunId) {
    forall i, j | 0 <= i < |rows| && 0 <= j < |rows| && i != j && rows[i].runId == runId && clash(rows[j], rows[i])
                  && First(rows, i, clash) ::
      RowBefore(rows[i], rows[j])
  }

  /** What was kept is what was committed first. */
  lemma {:induction false} KeptIsCommittedFirst(rows: seq<Stored>, clash: Clash, runId: RunId)
    requires Grouped(rows, clash) && forall i, j | 0 <= i < j < |rows| :: rows[i] != rows[j]
    ensures EarliestKept(rows, clash, runId) <==> CommittedInOrder(rows, clash, runId)
  {
    forall c ensures Kept(rows, clash, c) <==> FirstOf(rows, c, clash) { KeepsFirsts(rows, clash, c); }
    if EarliestKept(rows, clash, runId) {
      forall i, j | 0 <= i < |rows| && 0 <= j < |rows| && i != j && rows[i].runId == runId && clash(rows[j], rows[i])
                    && First(rows, i, clash)
        ensures RowBefore(rows[i], rows[j])
      {
        assert Kept(rows, clash, rows[i]) && rows[j] in rows;
      }
    }
    if CommittedInOrder(rows, clash, runId) {
      forall c, d | Kept(rows, clash, c) && c.runId == runId && d in rows && d != c && clash(d, c) ensures RowBefore(c, d) {
        var i :| 0 <= i < |rows| && rows[i] == c && First(rows, i, clash);
        var j :| 0 <= j < |rows| && rows[j] == d;
      }
    }
  }

  ghost predicate WithinRuns(rows: seq<Stored>, clash: Clash) {
    forall a, b | a in rows && b in rows && clash(a, b) :: a.runId == b.runId
  }

  lemma {:induction false} KeptAgree(rows: seq<Stored>, ordered: seq<Stored>, runId: RunId, clash: Clash)
    requires Grouped(rows, clash) && WithinRuns(rows, clash) && StrictlySorted(ordered, RowBefore)
    requires forall r :: r in ordered <==> r in rows && r.runId == runId
    ensures SameKeptOfRun(rows, ordered, clash, runId) <==> EarliestKept(rows, clash, runId)
  {
    var keep := (c: Stored) => c.runId == runId;
    var ofRun := Filter(rows, keep);
    InsertFilter(rows, keep, clash);
    SameKept(ofRun, ordered, clash, RowBefore);
    forall c ensures FirstOf(ofRun, c, clash) <==> Kept(rows, clash, c) && c.runId == runId { KeepsFirsts(ofRun, clash, c); }
    InsertFrom([], rows, clash);
    assert KeepsLeast(ofRun, clash, RowBefore) <==> EarliestKept(rows, clash, runId);
  }

  /** The rows of a run in the log's order, and those of them that are chunks. */
  lemma {:induction false} OrderedRows(rows: seq<Stored>, runId: RunId)
    requires NoClash(rows, EventsClash)
    ensures var ordered := InOrder(RowsOfRun(rows, runId));
            StrictlySorted(ordered, RowBefore) && forall r :: r in ordered <==> r in rows && r.runId == runId
    ensures var ordered := InOrder(RowsOfRun(rows, runId));
            forall i, j | 0 <= i < j < |ordered| ::
              || ordered[i].facts.runtimeId < ordered[j].facts.runtimeId
              || (ordered[i].facts.runtimeId == ordered[j].facts.runtimeId && ordered[i].facts.sequence < ordered[j].facts.sequence)
  {
    FilterKeepsApart(rows, (r: Stored) => r.runId == runId);
    InOrderSorted(RowsOfRun(rows, runId));
    forall r ensures r in InOrder(RowsOfRun(rows, runId)) <==> r in RowsOfRun(rows, runId) {
      InOrderMembers(RowsOfRun(rows, runId), r);
    }
  }

  // ---------------------------------------------------------------------------------------------
  // The timeline
  // ---------------------------------------------------------------------------------------------

  predicate SameMoment(a: Stored, b: Stored) {
    a.eventId == b.eventId || (a.runId == b.runId && a.facts.sequence == b.facts.sequence)
  }

  lemma {:induction false} TimelineRowKeys(a: Stored, b: Stored)
    ensures TimelineClash(TimelineRowOf(a), TimelineRowOf(b)) <==> SameMoment(a, b)
    ensures TimelineRowOf(a).runId == a.runId && TimelineRowOf(a).eventId == a.eventId
  {
  }

  lemma {:induction false} ReadsBack(c: Committed)
    requires Recordable(c.event)
    ensures TimelineRowOf(RowOf(c)) == TimelineOf(c)
  {
    RecordableRoundTrip(c.event, c.runId);
  }

  /** The timeline the appends wrote is that of the log's rows, in the order they were committed. */
  lemma {:induction false} TimelineOfRows(history: seq<Committed>)
    requires forall c | c in history :: Recordable(c.event)
    ensures TimelineTable(history) == Map(TimelineRowOf, Insert([], EventTable(history), SameMoment))
  {
    var rows := EventTable(history);
    forall c | c in history ensures TimelineRowOf(RowOf(c)) == TimelineOf(c) { ReadsBack(c); }
    MapMap(history, RowOf, TimelineRowOf, TimelineOf);
    TimelineOfSome(rows);
    assert Map(TimelineOf, []) == [];
    InsertMap([], history, TimelineOf, TimelineClash, TimelineEntryClash);
  }

  lemma {:induction false} TimelineOfSome(rows: seq<Stored>)
    ensures Insert([], Map(TimelineRowOf, rows), TimelineClash) == Map(TimelineRowOf, Insert([], rows, SameMoment))
  {
    forall a, b { TimelineRowKeys(a, b); }
    assert Map(TimelineRowOf, []) == [];
    InsertMap([], rows, TimelineRowOf, TimelineClash, SameMoment);
  }

  lemma {:induction false} MomentsGroup(rows: seq<Stored>)
    requires UniqueRowIds(rows)
    ensures Grouped(rows, SameMoment) && WithinRuns(rows, SameMoment)
  {
  }

  lemma {:induction false} TimelineRowsDiffer(all: seq<Stored>, a: Stored, b: Stored)
    requires UniqueRowIds(all) && a in all && b in all && TimelineRowOf(a) == TimelineRowOf(b)
    ensures a == b
  {
    TimelineRowKeys(a, b);
    TimelineRowKeys(b, a);
  }

  /** The run's timeline holds the same rows rebuilt as ingested. */
  ghost predicate SameTimeline(history: seq<Committed>, runId: RunId) {
    forall t :: t in RebuiltTimeline(EventTable(history), runId) <==> t in TimelineTable(history) && t.runId == runId
  }

  /** No event committed earlier is of the same run at the same sequence. */
  ghost predicate FirstAtSequence(history: seq<Committed>, i: nat)
    requires i < |history|
  {
    forall k | 0 <= k < i :: !AtOneSequence(history[k], history[i])
  }

  predicate AtOneSequence(c: Committed, d: Committed) {
    c.runId == d.runId && c.event.facts.sequence == d.event.facts.sequence
  }

  /** Wherever events of the run share a sequence, the one committed first is of the earliest runtime. */
  ghost predicate EarlierRuntimeFirst(history: seq<Committed>, runId: RunId) {
    forall i, j | 0 <= i < |history| && 0 <= j < |history| && i != j && history[i].runId == runId
                  && AtOneSequence(history[i], history[j]) && FirstAtSequence(history, i) ::
      history[i].event.facts.runtimeId < history[j].event.facts.runtimeId
  }

  /** Rebuilding gives a run the timeline its appends wrote exactly when, wherever two of its runtimes
      share a sequence, the event committed first there is the earliest runtime's: ingest keeps what was
      committed first, a rebuild what comes first in the log's order. */
  lemma {:induction false} TimelineAgrees(history: seq<Committed>, runId: RunId)
    requires LogOk(history)
    ensures SameTimeline(history, runId) <==> EarlierRuntimeFirst(history, runId)
  {
    var rows := EventTable(history);
    LogHasUniqueIds(history);
    LogRowsApart(history);
    TimelineOfRows(history);
    OrderedRows(rows, runId);
    MomentsGroup(rows);
    KeptAgree(rows, InOrder(RowsOfRun(rows, runId)), runId, SameMoment);
    SameTimelineRows(rows, InOrder(RowsOfRun(rows, runId)), runId);
    RowsAreApart(rows);
    KeptIsCommittedFirst(rows, SameMoment, runId);
    MomentsInOrder(history, runId);
  }

  lemma {:induction false} RowsAreApart(rows: seq<Stored>)
    requires NoClash(rows, EventsClash)
    ensures forall i, j | 0 <= i < j < |rows| :: rows[i] != rows[j]
  {
    forall i, j | 0 <= i < j < |rows| ensures rows[i] != rows[j] { assert !EventsClash(rows[i], rows[j]); }
  }

  lemma {:induction false} MomentIsSequence(history: seq<Committed>, i: nat, j: nat)
    requires LogOk(history) && i < |history| && j < |history| && i != j
    ensures SameMoment(EventTable(history)[i], EventTable(history)[j]) <==> AtOneSequence(history[i], history[j])
    ensures AtOneSequence(history[i], history[j]) ==>
              (RowBefore(EventTable(history)[i], EventTable(history)[j])
               <==> history[i].event.facts.runtimeId < history[j].event.facts.runtimeId)
  {
    assert i < j ==> !EntryClash(history[i], history[j]);
    assert j < i ==> !EntryClash(history[j], history[i]);
  }

  lemma {:induction false} FirstMoment(history: seq<Committed>, i: nat)
    requires LogOk(history) && i < |history|
    ensures First(EventTable(history), i, SameMoment) <==> FirstAtSequence(history, i)
  {
    forall k | 0 <= k < i { MomentIsSequence(history, k, i); }
  }

  lemma {:induction false} MomentsInOrder(history: seq<Committed>, runId: RunId)
    requires LogOk(history)
    ensures CommittedInOrder(EventTable(history), SameMoment, runId) <==> EarlierRuntimeFirst(history, runId)
  {
    var rows := EventTable(history);
    forall i | 0 <= i < |history| ensures First(rows, i, SameMoment) <==> FirstAtSequence(history, i) { FirstMoment(history, i); }
    if CommittedInOrder(rows, SameMoment, runId) {
      forall i, j | 0 <= i < |history| && 0 <= j < |history| && i != j && history[i].runId == runId
                    && AtOneSequence(history[i], history[j]) && FirstAtSequence(history, i)
        ensures history[i].event.facts.runtimeId < history[j].event.facts.runtimeId
      {
        MomentIsSequence(history, i, j);
        MomentIsSequence(history, j, i);
      }
    }
    if EarlierRuntimeFirst(history, runId) {
      forall i, j | 0 <= i < |rows| && 0 <= j < |rows| && i != j && rows[i].runId == runId && SameMoment(rows[j], rows[i])
                    && First(rows, i, SameMoment)
        ensures RowBefore(rows[i], rows[j])
      {
        MomentIsSequence(history, i, j);
        MomentIsSequence(history, j, i);
      }
    }
  }

  lemma {:induction false} LogRowsApart(history: seq<Committed>)
    requires NoClash(history, EntryClash)
    ensures NoClash(EventTable(history), EventsClash)
  {
    var rows := EventTable(history);
    forall i, j | 0 <= i < j < |rows| ensures !EventsClash(rows[i], rows[j]) { assert !EntryClash(history[i], history[j]); }
  }

  lemma {:induction false} SameTimelineRows(rows: seq<Stored>, ordered: seq<Stored>, runId: RunId)
    requires UniqueRowIds(rows) && forall r | r in ordered :: r in rows
    ensures (forall t :: t in Insert([], Map(TimelineRowOf, ordered), TimelineClash)
                         <==> t in Map(TimelineRowOf, Insert([], rows, SameMoment)) && t.runId == runId)
            <==> SameKeptOfRun(rows, ordered, SameMoment, runId)
  {
    TimelineOfSome(ordered);
    InsertFrom([], rows, SameMoment);
    InsertFrom([], ordered, SameMoment);
    TimelineSelection(rows, Insert([], ordered, SameMoment), Insert([], rows, SameMoment), runId);
  }

  lemma {:induction false} TimelineSelection(all: seq<Stored>, part: seq<Stored>, whole: seq<Stored>, runId: RunId)
    requires UniqueRowIds(all) && (forall r | r in part :: r in all) && (forall r | r in whole :: r in all)
    ensures (forall t :: t in Map(TimelineRowOf, part) <==> t in Map(TimelineRowOf, whole) && t.runId == runId)
            <==> (forall r :: r in part <==> r in whole && r.runId == runId)
  {
    forall a, b | a in all && b in all && TimelineRowOf(a) == TimelineRowOf(b) ensures a == b { TimelineRowsDiffer(all, a, b); }
    var test := (r: Stored) => r.runId == runId;
    var onMade := (t: TimelineRow) => t.runId == runId;
    forall a | a in all ensures onMade(TimelineRowOf(a)) == test(a) { TimelineRowKeys(a, a); }
    SameSelection(all, part, whole, TimelineRowOf, test, onMade);
  }

  /** A run of one runtime rebuilds to the timeline its appends wrote. */
  lemma {:induction false} OneRuntimeAgrees(history: seq<Committed>, runId: RunId)
    requires LogOk(history)
    requires forall c, d | c in history && d in history && c.runId == runId && d.runId == runId ::
               c.event.facts.runtimeId == d.event.facts.runtimeId
    ensures SameTimeline(history, runId)
  {
    TimelineAgrees(history, runId);
    forall i, j | 0 <= i < j < |history| && history[i].runId == runId && history[j].runId == runId
      ensures !AtOneSequence(history[i], history[j])
    {
      assert !EntryClash(history[i], history[j]);
    }
  }

  /** A rebuild replaces the run's timeline rows and leaves the other runs' as they are. */
  lemma {:induction false} RebuildSparesOthers(history: seq<Committed>, runId: RunId)
    requires LogOk(history)
    ensures TimelineAfterRebuild(TimelineTable(history), EventTable(history), runId)
            == Filter(TimelineTable(history), (t: TimelineRow) => t.runId != runId) + RebuiltTimeline(EventTable(history), runId)
  {
    var rows := EventTable(history);
    var others := Filter(TimelineTable(history), (t: TimelineRow) => t.runId != runId);
    var made := Map(TimelineRowOf, InOrder(RowsOfRun(rows, runId)));
    LogHasUniqueIds(history);
    LogRowsApart(history);
    OrderedRows(rows, runId);
    TimelineOfRows(history);
    InsertFrom([], rows, SameMoment);
    forall t, u | t in others && u in made ensures !TimelineClash(t, u) {
      var a :| a in Insert([], rows, SameMoment) && t == TimelineRowOf(a);
      var b :| b in InOrder(RowsOfRun(rows, runId)) && u == TimelineRowOf(b);
      OtherRunsApart(rows, a, b);
    }
    InsertApart(others, made, TimelineClash);
  }

  lemma {:induction false} OtherRunsApart(rows: seq<Stored>, a: Stored, b: Stored)
    requires UniqueRowIds(rows) && a in rows && b in rows && TimelineRowOf(a).runId != b.runId
    ensures !TimelineClash(TimelineRowOf(a), TimelineRowOf(b))
  {
    TimelineRowKeys(a, b);
  }

  function BeatOf(eventId: EventId, runtimeId: RuntimeId): Event {
    Event(eventId, Facts(runtimeId, 1, None, None, None, None, 1, 0, 0, 0, 0, RuntimeHeartbeat, Payload(None, None, None, "")),
          None, None, None)
  }

  /** It fails for a run whose daemon restarted when the later runtime's event is committed first:
      where both have one sequence, ingest keeps the one and a rebuild the other. */
  lemma {:induction false} LaterRuntimeFirst(c: Committed, d: Committed)
    requires Recordable(c.event) && Recordable(d.event) && c.runId == d.runId && c.event.eventId != d.event.eventId
    requires c.event.facts.sequence == d.event.facts.sequence && c.event.facts.runtimeId > d.event.facts.runtimeId
    ensures LogOk([c, d]) && !SameTimeline([c, d], c.runId)
  {
    var history := [c, d];
    TimelineAgrees(history, c.runId);
    assert FirstAtSequence(history, 0) && AtOneSequence(history[0], history[1]);
  }

  lemma {:induction false} RestartedRunDiffers()
    ensures var history := [Committed(BeatOf("second", 2), "run"), Committed(BeatOf("first", 1), "run")];
            LogOk(history) && !SameTimeline(history, "run")
  {
    LaterRuntimeFirst(Committed(BeatOf("second", 2), "run"), Committed(BeatOf("first", 1), "run"));
  }

  // ---------------------------------------------------------------------------------------------
  // The scrollback
  // ---------------------------------------------------------------------------------------------

  ghost predicate AllIngestable(history: seq<Committed>) {
    forall c | c in history :: Ingestable(c.event)
  }

  /** Two chunks at one offset of one stream of one process, in one run; or two copies of one. */
  predicate SameSpot(a: Stored, b: Stored) {
    ScrollbackClash(LogChunkRow(a), LogChunkRow(b))
  }

  predicate HasRow(table: seq<ScrollbackRow>, id: EventId, runId: RunId) {
    exists s :: s in table && s.eventId == id && s.runId == runId
  }

  /** The run's scrollback holds rows of the same events rebuilt as ingested. */
  ghost predicate SameScrollbackEvents(history: seq<Committed>, runId: RunId) {
    forall id :: HasRow(RebuiltScrollback(EventTable(history), runId), id, runId) <==> HasRow(ScrollbackTable(history), id, runId)
  }

  /** Wherever chunks of the run share a spot, the one committed first is the first in the log's order. */
  ghost predicate EarlierChunkFirst(history: seq<Committed>, runId: RunId) {
    CommittedInOrder(ChunkRows(EventTable(history)), SameSpot, runId)
  }

  lemma {:induction false} ChunkReadsBack(c: Committed)
    requires Ingestable(c.event)
    ensures IsChunk(RowOf(c)) <==> HasChunk(c)
    ensures LogChunkRow(RowOf(c)).eventId == c.event.eventId && LogChunkRow(RowOf(c)).runId == c.runId
    ensures HasChunk(c) ==>
              && ScrollbackOf(c.event.facts).Some? && LogChunkRow(RowOf(c)).chunk == ScrollbackOf(c.event.facts).value
              && Blank(ChunkRowOf(c).chunk) == Blank(LogChunkRow(RowOf(c)).chunk)
  {
    RecordableRoundTrip(c.event, c.runId);
  }

  lemma {:induction false} SpotsAgree(c: Committed, d: Committed)
    requires Ingestable(c.event) && Ingestable(d.event) && HasChunk(c) && HasChunk(d)
    ensures ScrollbackEntryClash(c, d) <==> SameSpot(RowOf(c), RowOf(d))
  {
    ChunkReadsBack(c);
    ChunkReadsBack(d);
  }

  function ChunkRows(rows: seq<Stored>): seq<Stored> {
    Filter(rows, IsChunk)
  }

  /** The chunks whose rows the appends kept are those kept of the log's chunk rows, in the order they
      were committed. */
  lemma {:induction false} ScrollbackOfRows(history: seq<Committed>)
    requires AllIngestable(history)
    ensures Map(RowOf, Insert([], Chunks(history), ScrollbackEntryClash)) == Insert([], ChunkRows(EventTable(history)), SameSpot)
  {
    forall c | c in history ensures IsChunk(RowOf(c)) == HasChunk(c) { ChunkReadsBack(c); }
    FilterMap(history, RowOf, HasChunk, IsChunk);
    forall c, d | c in Chunks(history) && d in Chunks(history) { SpotsAgree(c, d); }
    assert Map(RowOf, []) == [];
    InsertMap([], Chunks(history), RowOf, SameSpot, ScrollbackEntryClash);
  }

  lemma {:induction false} ChunkRowIds(c: Committed)
    ensures ChunkRowOf(c).eventId == c.event.eventId && ChunkRowOf(c).runId == c.runId
  {
  }

  lemma {:induction false} KeptHasRow(history: seq<Committed>, r: Stored)
    requires AllIngestable(history) && Kept(ChunkRows(EventTable(history)), SameSpot, r)
    ensures HasRow(ScrollbackTable(history), r.eventId, r.runId)
  {
    var kept := Insert([], Chunks(history), ScrollbackEntryClash);
    ScrollbackOfRows(history);
    var c :| c in kept && r == RowOf(c);
    ChunkRowIds(c);
    assert ChunkRowOf(c) in ScrollbackTable(history);
  }

  lemma {:induction false} KeptEntryRow(history: seq<Committed>, c: Committed)
    requires AllIngestable(history) && c in Insert([], Chunks(history), ScrollbackEntryClash)
    ensures Kept(ChunkRows(EventTable(history)), SameSpot, RowOf(c)) && RowOf(c) in EventTable(history)
  {
    ScrollbackOfRows(history);
    InsertFrom([], Chunks(history), ScrollbackEntryClash);
    assert RowOf(c) in Map(RowOf, Insert([], Chunks(history), ScrollbackEntryClash));
  }

  lemma {:induction false} RowWasKept(history: seq<Committed>, r: Stored, runId: RunId)
    requires AllIngestable(history) && UniqueRowIds(EventTable(history)) && r in EventTable(history)
    requires HasRow(ScrollbackTable(history), r.eventId, runId)
    ensures Kept(ChunkRows(EventTable(history)), SameSpot, r) && r.runId == runId
  {
    var s :| s in ScrollbackTable(history) && s.eventId == r.eventId && s.runId == runId;
    var c :| c in Insert([], Chunks(history), ScrollbackEntryClash) && s == ChunkRowOf(c);
    ChunkRowIds(c);
    KeptEntryRow(history, c);
    assert RowOf(c) == r;
  }

  lemma {:induction false} RowIsOfSome(history: seq<Committed>, id: EventId, runId: RunId) returns (r: Stored)
    requires HasRow(ScrollbackTable(history), id, runId)
    ensures r in EventTable(history) && r.eventId == id
  {
    var kept := Insert([], Chunks(history), ScrollbackEntryClash);
    InsertFrom([], Chunks(history), ScrollbackEntryClash);
    var s :| s in ScrollbackTable(history) && s.eventId == id && s.runId == runId;
    var c :| c in kept && s == ChunkRowOf(c);
    ChunkRowIds(c);
    r := RowOf(c);
    assert RowOf(c) in EventTable(history);
  }

  lemma {:induction false} RowsOfRebuilt(rows: seq<Stored>, ordered: seq<Stored>, r: Stored, runId: RunId)
    requires UniqueRowIds(rows) && r in rows && forall o | o in ordered :: o in rows && o.runId == runId
    ensures HasRow(Insert([], Map(LogChunkRow, ordered), ScrollbackClash), r.eventId, runId) <==> Kept(ordered, SameSpot, r)
  {
    assert Map(LogChunkRow, []) == [];
    InsertMap([], ordered, LogChunkRow, ScrollbackClash, SameSpot);
    InsertFrom([], ordered, SameSpot);
    var kept := Insert([], ordered, SameSpot);
    if HasRow(Map(LogChunkRow, kept), r.eventId, runId) {
      var s :| s in Map(LogChunkRow, kept) && s.eventId == r.eventId && s.runId == runId;
      var q :| q in kept && s == LogChunkRow(q);
      LogChunkIds(q);
      assert q == r;
    }
    if Kept(ordered, SameSpot, r) {
      LogChunkIds(r);
      assert LogChunkRow(r) in Map(LogChunkRow, kept);
    }
  }

  lemma {:induction false} LogChunkIds(r: Stored)
    ensures LogChunkRow(r).eventId == r.eventId && LogChunkRow(r).runId == r.runId
  {
  }

  lemma {:induction false} SpotsGroup(rows: seq<Stored>)
    requires UniqueRowIds(rows)
    ensures Grouped(rows, SameSpot) && WithinRuns(rows, SameSpot)
  {
    forall a, b | a in rows && b in rows && SameSpot(a, b) ensures SameSpot(b, a) && a.runId == b.runId {
      LogChunkIds(a);
      LogChunkIds(b);
    }
    forall a, b, c | a in rows && b in rows && c in rows && SameSpot(a, b) && SameSpot(b, c) ensures SameSpot(a, c) {
      LogChunkIds(a);
      LogChunkIds(b);
      LogChunkIds(c);
    }
  }

  lemma {:induction false} RebuiltIsOfSome(rows: seq<Stored>, ordered: seq<Stored>, id: EventId, runId: RunId) returns (r: Stored)
    requires HasRow(Insert([], Map(LogChunkRow, ordered), ScrollbackClash), id, runId) && forall o | o in ordered :: o in rows
    ensures r in rows && r.eventId == id
  {
    var made := Map(LogChunkRow, ordered);
    InsertFrom([], made, ScrollbackClash);
    var s :| s in Insert([], made, ScrollbackClash) && s.eventId == id && s.runId == runId;
    r :| r in ordered && s == LogChunkRow(r);
    LogChunkIds(r);
  }

  /** Rebuilding gives a run the scrollback rows of the same events exactly when, wherever two of its
      chunks share a spot, the one committed first is the first in the log's order. */
  lemma {:induction false} ScrollbackAgrees(history: seq<Committed>, runId: RunId)
    requires LogOk(history) && AllIngestable(history)
    ensures SameScrollbackEvents(history, runId) <==> EarlierChunkFirst(history, runId)
  {
    var rows := EventTable(history);
    var chunks, ordered := ChunkRows(rows), ChunkRows(InOrder(RowsOfRun(rows, runId)));
    LogHasUniqueIds(history);
    LogRowsApart(history);
    OrderedRows(rows, runId);
    FilterKeepsSorted(InOrder(RowsOfRun(rows, runId)), IsChunk);
    SpotsGroup(chunks);
    KeptAgree(chunks, ordered, runId, SameSpot);
    SameChunkEvents(history, ordered, runId);
    FilterKeepsApart(rows, IsChunk);
    RowsAreApart(chunks);
    KeptIsCommittedFirst(chunks, SameSpot, runId);
  }

  lemma {:induction false} SameChunkEvents(history: seq<Committed>, ordered: seq<Stored>, runId: RunId)
    requires AllIngestable(history) && UniqueRowIds(EventTable(history))
    requires ordered == ChunkRows(InOrder(RowsOfRun(EventTable(history), runId)))
    requires forall o :: o in ordered <==> o in ChunkRows(EventTable(history)) && o.runId == runId
    ensures SameScrollbackEvents(history, runId)
            <==> SameKeptOfRun(ChunkRows(EventTable(history)), ordered, SameSpot, runId)
  {
    var chunks := ChunkRows(EventTable(history));
    InsertFrom([], chunks, SameSpot);
    InsertFrom([], ordered, SameSpot);
    forall r | r in EventTable(history)
      ensures HasRow(ScrollbackTable(history), r.eventId, runId) <==> Kept(chunks, SameSpot, r) && r.runId == runId
      ensures HasRow(RebuiltScrollback(EventTable(history), runId), r.eventId, runId) <==> Kept(ordered, SameSpot, r)
    {
      ChunkEvents(history, ordered, r, runId);
    }
    forall id | HasRow(ScrollbackTable(history), id, runId) || HasRow(RebuiltScrollback(EventTable(history), runId), id, runId)
      ensures exists r :: r in EventTable(history) && r.eventId == id
    {
      if HasRow(ScrollbackTable(history), id, runId) {
        var r := RowIsOfSome(history, id, runId);
      } else {
        var r := RebuiltIsOfSome(EventTable(history), ordered, id, runId);
      }
    }
  }

  lemma {:induction false} ChunkEvents(history: seq<Committed>, ordered: seq<Stored>, r: Stored, runId: RunId)
    requires AllIngestable(history) && UniqueRowIds(EventTable(history)) && r in EventTable(history)
    requires ordered == ChunkRows(InOrder(RowsOfRun(EventTable(history), runId)))
    requires forall o :: o in ordered <==> o in ChunkRows(EventTable(history)) && o.runId == runId
    ensures HasRow(ScrollbackTable(history), r.eventId, runId)
            <==> Kept(ChunkRows(EventTable(history)), SameSpot, r) && r.runId == runId
    ensures HasRow(RebuiltScrollback(EventTable(history), runId), r.eventId, runId) <==> Kept(ordered, SameSpot, r)
  {
    var chunks := ChunkRows(EventTable(history));
    if Kept(chunks, SameSpot, r) { KeptHasRow(history, r); }
    if HasRow(ScrollbackTable(history), r.eventId, runId) { RowWasKept(history, r, runId); }
    RowsOfRebuilt(EventTable(history), ordered, r, runId);
  }

  /** It fails whenever a chunk is committed before one at its spot that comes earlier in the log's
      order: ingest keeps the one and a rebuild the other. */
  lemma {:induction false} LaterChunkFirst(c: Committed, d: Committed)
    requires LogOk([c, d]) && AllIngestable([c, d]) && HasChunk(c) && HasChunk(d)
    requires SameSpot(RowOf(d), RowOf(c)) && RowBefore(RowOf(d), RowOf(c))
    ensures !SameScrollbackEvents([c, d], c.runId)
  {
    ScrollbackAgrees([c, d], c.runId);
    ChunksOfTwo(c, d);
    OutOfOrder(RowOf(c), RowOf(d));
  }

  lemma {:induction false} ChunksOfTwo(c: Committed, d: Committed)
    requires Ingestable(c.event) && Ingestable(d.event) && HasChunk(c) && HasChunk(d)
    ensures ChunkRows(EventTable([c, d])) == [RowOf(c), RowOf(d)]
  {
    ChunkReadsBack(c);
    ChunkReadsBack(d);
    assert EventTable([c, d]) == ([] + [RowOf(c)]) + [RowOf(d)];
    FilterSnoc([], RowOf(c), IsChunk);
    FilterSnoc([RowOf(c)], RowOf(d), IsChunk);
  }

  lemma {:induction false} OutOfOrder(a: Stored, b: Stored)
    requires SameSpot(b, a) && RowBefore(b, a)
    ensures !CommittedInOrder([a, b], SameSpot, a.runId)
  {
    var rows := [a, b];
    assert First(rows, 0, SameSpot) && SameSpot(rows[1], rows[0]) && !RowBefore(rows[0], rows[1]);
  }

  function ChunkAt(eventId: EventId, runtimeId: RuntimeId, sequence: nat): Event {
    var facts := Facts(runtimeId, sequence, None, None, Some("process"), None, 1, 0, 0, 0, 0, IoChunk,
                       Payload(None, None, Some(Io(1, 0, 5, None, None, None)), ""));
    Event(eventId, facts, None, ScrollbackOf(facts), None)
  }

  /** A run whose daemon restarted and wrote the same stream again: the rebuilt scrollback has the other
      runtime's chunk. */
  lemma {:induction false} RestartedScrollbackDiffers()
    ensures var history := [Committed(ChunkAt("second", 2, 1), "run"), Committed(ChunkAt("first", 1, 1), "run")];
            LogOk(history) && AllIngestable(history) && !SameScrollbackEvents(history, "run")
  {
    LaterChunkFirst(Committed(ChunkAt("second", 2, 1), "run"), Committed(ChunkAt("first", 1, 1), "run"));
  }

  /** A rebuild replaces the run's scrollback rows and leaves the other runs' as they are. */
  lemma {:induction false} RebuildSparesOtherScrollback(history: seq<Committed>, runId: RunId)
    requires LogOk(history)
    ensures ScrollbackAfterRebuild(ScrollbackTable(history), EventTable(history), runId)
            == Filter(ScrollbackTable(history), (s: ScrollbackRow) => s.runId != runId)
               + RebuiltScrollback(EventTable(history), runId)
  {
    var rows := EventTable(history);
    var others := Filter(ScrollbackTable(history), (s: ScrollbackRow) => s.runId != runId);
    var made := Map(LogChunkRow, ChunkRows(InOrder(RowsOfRun(rows, runId))));
    LogHasUniqueIds(history);
    LogRowsApart(history);
    OrderedRows(rows, runId);
    forall s, t | s in others && t in made ensures !ScrollbackClash(s, t) {
      var c := EntryOf(history, s);
      var r :| r in ChunkRows(InOrder(RowsOfRun(rows, runId))) && t == LogChunkRow(r);
      ChunkRowIds(c);
      LogChunkIds(r);
      assert RowOf(c) in rows && r in rows;
    }
    InsertApart(others, made, ScrollbackClash);
  }

  /** A row the appends wrote and the one a rebuild gives the same event differ at most in the content
      they name: a rebuild names again what the output budget dropped, and changes nothing else. */
  lemma {:induction false} RebuildNamesDroppedContent(history: seq<Committed>, runId: RunId, s: ScrollbackRow, t: ScrollbackRow)
    requires LogOk(history) && AllIngestable(history) && s in ScrollbackTable(history)
    requires t in RebuiltScrollback(EventTable(history), runId) && t.eventId == s.eventId
    ensures t.(chunk := Blank(t.chunk)) == s.(chunk := Blank(s.chunk))
    ensures s == t || s == t.(chunk := t.chunk.(contentAlgo := None, contentHash := None))
  {
    var rows := EventTable(history);
    var ordered := ChunkRows(InOrder(RowsOfRun(rows, runId)));
    LogHasUniqueIds(history);
    OrderedMembers(rows, runId);
    var c := EntryOf(history, s);
    var r := LogRowOf(rows, ordered, t);
    ChunkRowIds(c);
    LogChunkIds(r);
    assert RowOf(c) in rows;
    assert r == RowOf(c);
    ChunkRowsAlike(c);
  }

  lemma {:induction false} OrderedMembers(rows: seq<Stored>, runId: RunId)
    ensures forall r | r in ChunkRows(InOrder(RowsOfRun(rows, runId))) :: r in rows && IsChunk(r)
  {
    forall r ensures r in InOrder(RowsOfRun(rows, runId)) <==> r in RowsOfRun(rows, runId) {
      InOrderMembers(RowsOfRun(rows, runId), r);
    }
  }

  lemma {:induction false} EntryOf(history: seq<Committed>, s: ScrollbackRow) returns (c: Committed)
    requires s in ScrollbackTable(history)
    ensures c in history && HasChunk(c) && s == ChunkRowOf(c)
  {
    InsertFrom([], Chunks(history), ScrollbackEntryClash);
    c :| c in Insert([], Chunks(history), ScrollbackEntryClash) && s == ChunkRowOf(c);
  }

  lemma {:induction false} LogRowOf(rows: seq<Stored>, ordered: seq<Stored>, t: ScrollbackRow) returns (r: Stored)
    requires t in Insert([], Map(LogChunkRow, ordered), ScrollbackClash) && forall o | o in ordered :: o in rows
    ensures r in rows && t == LogChunkRow(r)
  {
    InsertFrom([], Map(LogChunkRow, ordered), ScrollbackClash);
    r :| r in ordered && t == LogChunkRow(r);
  }

  lemma {:induction false} ChunkRowsAlike(c: Committed)
    requires Ingestable(c.event) && HasChunk(c)
    ensures var s, t := ChunkRowOf(c), LogChunkRow(RowOf(c));
            && t.(chunk := Blank(t.chunk)) == s.(chunk := Blank(s.chunk))
            && (s == t || s == t.(chunk := t.chunk.(contentAlgo := None, contentHash := None)))
  {
    RecordableRoundTrip(c.event, c.runId);
  }
}
