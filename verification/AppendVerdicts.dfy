/** What an append that succeeds, fails, or is repeated says of the log. */
module AppendVerdicts {
  import opened Wrappers
  import opened Tables
  import opened RecordEvents
  import opened Redelivery
  import opened RecordSink

  /** A log no two of whose events share an id or a position, each stored as it reads back. */
  ghost predicate LogOk(history: seq<Committed>) {
    NoClash(history, EntryClash) && forall c | c in history :: Recordable(c.event)
  }

  ghost predicate AllRecordable(batch: seq<Event>) {
    forall e | e in batch :: Recordable(e)
  }

  lemma {:induction false} LogHasUniqueIds(history: seq<Committed>)
    requires NoClash(history, EntryClash)
    ensures UniqueRowIds(EventTable(history))
  {
    var rows := EventTable(history);
    forall r, s | r in rows && s in rows && r.eventId == s.eventId ensures r == s {
      var i :| 0 <= i < |rows| && rows[i] == r;
      var j :| 0 <= j < |rows| && rows[j] == s;
      assert EntryClash(history[i], history[j]) && EntryClash(history[j], history[i]);
    }
  }

  lemma {:induction false} UniqueIsInBatch(batch: seq<Event>, e: Event)
    requires e in Unique(batch)
    ensures e in batch
  {
    UniqueExactly(batch, e);
  }

  /** Every append keeps the log in order. */
  lemma {:induction false} AppendKeepsLog(history: seq<Committed>, runId: RunId, batch: seq<Event>)
    requires LogOk(history) && AllRecordable(batch)
    ensures LogOk(After(history, runId, batch)) && UniqueRowIds(EventTable(After(history, runId, batch)))
    ensures var after := After(history, runId, batch);
            forall i, j | 0 <= i < j < |after| ::
              && after[i].event.eventId != after[j].event.eventId
              && (after[i].event.facts.runtimeId == after[j].event.facts.runtimeId ==>
                    after[i].event.facts.sequence != after[j].event.facts.sequence)
  {
    var entries := EntriesFor(runId, Unique(batch));
    InsertUnique(history, entries, EntryClash);
    InsertFrom(history, entries, EntryClash);
    forall e | e in Unique(batch) { UniqueIsInBatch(batch, e); }
    LogHasUniqueIds(After(history, runId, batch));
  }

  /** What the insert took is held. */
  lemma {:induction false} TakenIsHeld(history: seq<Committed>, runId: RunId, batch: seq<Event>, e: Event)
    requires AllRecordable(batch) && e in Newly(history, runId, batch)
    ensures HeldIn(EventTable(After(history, runId, batch)), e, runId)
  {
    AfterShape(history, runId, batch);
    UniqueIsInBatch(batch, e);
    var c := EntryFor(runId, e);
    assert c in EntriesFor(runId, Newly(history, runId, batch));
    assert RowOf(c) in EventTable(After(history, runId, batch));
    RecordableRoundTrip(e, c.runId);
  }

  /** A copy of an event the log holds is held too. */
  lemma {:induction false} CopyIsHeld(rows: seq<Stored>, runId: RunId, first: Event, copy: Event)
    requires HeldIn(rows, first, runId) && copy.eventId == first.eventId && copy.facts == first.facts
    requires RunIdFor(runId, copy) == RunIdFor(runId, first)
    ensures HeldIn(rows, copy, runId)
  {
    var row :| row in rows && Holds(row, first, RunIdFor(runId, first));
    assert Holds(row, copy, RunIdFor(runId, copy));
  }

  /** The append's conflicts name exactly the ids a batch reuses, and those of its events that the log
      does not hold once the append is done. */
  lemma {:induction false} ConflictsExactly(history: seq<Committed>, runId: RunId, batch: seq<Event>, id: EventId)
    requires LogOk(history) && AllRecordable(batch)
    ensures Named(AppendConflicts(history, runId, batch), id)
            <==> || ReusesId(batch, runId, id)
                 || exists e :: e in Unique(batch) && e.eventId == id
                                && !HeldIn(EventTable(After(history, runId, batch)), e, runId)
  {
    var rows := EventTable(After(history, runId, batch));
    var skipped := Skipped(history, runId, batch);
    AppendKeepsLog(history, runId, batch);
    NamedConcat(BatchConflicts(batch, runId), LogConflicts(skipped, rows, runId), id);
    BatchConflictsExactly(batch, runId, id);
    LogConflictsExactly(skipped, rows, runId, id);
    forall e | e in Unique(batch) && !HeldIn(rows, e, runId) ensures e in skipped {
      if e !in skipped { TakenIsHeld(history, runId, batch, e); }
    }
  }

  lemma {:induction false} NoneNamed(conflicts: seq<Conflict>)
    ensures conflicts == [] <==> forall id :: !Named(conflicts, id)
  {
    if conflicts != [] {
      var c := conflicts[0];
      assert c in conflicts && Named(conflicts, c.eventId);
    }
  }

  /** With no id reused in the batch, an event of it is named exactly when the log does not hold it. */
  lemma {:induction false} NamedExactlyWhenNotHeld(history: seq<Committed>, runId: RunId, batch: seq<Event>, e: Event)
    requires LogOk(history) && AllRecordable(batch) && e in batch && !ReusesId(batch, runId, e.eventId)
    ensures Named(AppendConflicts(history, runId, batch), e.eventId)
            <==> !HeldIn(EventTable(After(history, runId, batch)), e, runId)
  {
    var rows := EventTable(After(history, runId, batch));
    ConflictsExactly(history, runId, batch, e.eventId);
    var first := FirstWith(batch, e.eventId).value;
    UniqueExactly(batch, first);
    NotReusedIsCopy(batch, runId, e);
    if HeldIn(rows, first, runId) { CopyIsHeld(rows, runId, first, e); }
    if HeldIn(rows, e, runId) { CopyIsHeld(rows, runId, e, first); }
    forall u | u in Unique(batch) && u.eventId == e.eventId ensures u == first { UniqueExactly(batch, u); }
  }

  /** An event whose id the batch does not reuse is a copy of the first with that id. */
  lemma {:induction false} NotReusedIsCopy(batch: seq<Event>, runId: RunId, e: Event)
    requires e in batch && !ReusesId(batch, runId, e.eventId)
    ensures var first := FirstWith(batch, e.eventId);
            && first.Some? && first.value.facts == e.facts && first.value.eventId == e.eventId
            && RunIdFor(runId, first.value) == RunIdFor(runId, e)
  {
    var i :| 0 <= i < |batch| && batch[i] == e;
    assert !Reuses(batch, runId, i);
    FirstInPrefix(batch, e.eventId, i);
  }

  lemma {:induction false} FirstInPrefix(batch: seq<Event>, id: EventId, i: nat)
    requires i < |batch| && batch[i].eventId == id
    ensures FirstWith(batch, id) == if FirstWith(batch[..i], id).Some? then FirstWith(batch[..i], id) else Some(batch[i])
  {
    if i < |batch| - 1 {
      assert batch[..|batch| - 1][..i] == batch[..i];
      FirstInPrefix(batch[..|batch| - 1], id, i);
    }
  }

  /** An append that succeeds means every event of its batch is in the log as the same event, in a run
      that holds it. */
  lemma {:induction false} SuccessMeansHeld(history: seq<Committed>, runId: RunId, batch: seq<Event>)
    requires LogOk(history) && AllRecordable(batch)
    ensures AppendResultOf(history, runId, batch).Appended?
            <==> && (forall e | e in batch :: HeldIn(EventTable(After(history, runId, batch)), e, runId))
                 && (forall e | e in batch :: !ReusesId(batch, runId, e.eventId))
  {
    var rows := EventTable(After(history, runId, batch));
    var conflicts := AppendConflicts(history, runId, batch);
    NoneNamed(conflicts);
    if conflicts == [] {
      forall e | e in batch ensures HeldIn(rows, e, runId) && !ReusesId(batch, runId, e.eventId) {
        ConflictsExactly(history, runId, batch, e.eventId);
        NamedExactlyWhenNotHeld(history, runId, batch, e);
      }
    } else if (forall e | e in batch :: HeldIn(rows, e, runId)) && (forall e | e in batch :: !ReusesId(batch, runId, e.eventId)) {
      var id :| Named(conflicts, id);
      NothingNamed(history, runId, batch, id);
    }
  }

  lemma {:induction false} NothingNamed(history: seq<Committed>, runId: RunId, batch: seq<Event>, id: EventId)
    requires LogOk(history) && AllRecordable(batch)
    requires forall e | e in batch :: HeldIn(EventTable(After(history, runId, batch)), e, runId)
    requires forall e | e in batch :: !ReusesId(batch, runId, e.eventId)
    ensures !Named(AppendConflicts(history, runId, batch), id)
  {
    ConflictsExactly(history, runId, batch, id);
    forall e | e in Unique(batch) { UniqueIsInBatch(batch, e); }
    forall i | 0 <= i < |batch| ensures batch[i] in batch {}
  }

  /** An entry that clashes with none of a table's rows, nor with an earlier one that went in. */
  ghost predicate Free(history: seq<Committed>, entries: seq<Committed>, i: nat)
    requires i < |entries|
  {
    !Taken(Insert(history, entries[..i], EntryClash), entries[i], EntryClash)
  }

  lemma {:induction false} InsertedInTurn(history: seq<Committed>, entries: seq<Committed>, i: nat)
    requires i < |entries|
    requires forall j, k | 0 <= j < k < |entries| :: entries[j].event.eventId != entries[k].event.eventId
    ensures entries[i] in Insert(history, entries, EntryClash)[|history|..] <==> Free(history, entries, i)
    decreases |entries|
  {
    var n := |entries| - 1;
    var before := Insert(history, entries[..n], EntryClash);
    if i < n {
      InsertedInTurn(history, entries[..n], i);
      assert entries[..n][..i] == entries[..i];
    } else {
      NotYetInserted(history, entries);
    }
    assert Insert(history, entries, EntryClash)[|history|..] == before[|history|..]
           + if Taken(before, entries[n], EntryClash) then [] else [entries[n]];
  }

  lemma {:induction false} NotYetInserted(history: seq<Committed>, entries: seq<Committed>)
    requires entries != []
    requires forall j, k | 0 <= j < k < |entries| :: entries[j].event.eventId != entries[k].event.eventId
    ensures entries[|entries| - 1] !in Insert(history, entries[..|entries| - 1], EntryClash)[|history|..]
  {
    NewFrom(history, entries[..|entries| - 1]);
  }

  /** What an insertion adds is among what was inserted. */
  lemma {:induction false} NewFrom(history: seq<Committed>, entries: seq<Committed>)
    ensures forall c | c in Insert(history, entries, EntryClash)[|history|..] :: c in entries
  {
    if entries != [] {
      var n := |entries| - 1;
      var before := Insert(history, entries[..n], EntryClash);
      NewFrom(history, entries[..n]);
      assert Insert(history, entries, EntryClash)[|history|..] == before[|history|..]
             + if Taken(before, entries[n], EntryClash) then [] else [entries[n]];
    }
  }

  /** Whatever its verdict, an append stores exactly the events of the batch, one an id, whose id and
      position are free when their turn comes: held by no event of the log, and by none the append has
      stored before. */
  lemma {:induction false} StoresWhatItCan(history: seq<Committed>, runId: RunId, batch: seq<Event>, i: nat)
    requires i < |Unique(batch)|
    ensures var entries := EntriesFor(runId, Unique(batch));
            entries[i] in After(history, runId, batch)[|history|..] <==> Free(history, entries, i)
  {
    var unique, entries := Unique(batch), EntriesFor(runId, Unique(batch));
    UniqueIds(batch);
    forall j, k | 0 <= j < k < |entries| ensures entries[j].event.eventId != entries[k].event.eventId {
      assert unique[j].eventId != unique[k].eventId;
    }
    InsertedInTurn(history, entries, i);
  }

  /** So an event of the batch that clashes with none of the log, and none earlier in the batch, is stored
      as it is. */
  lemma {:induction false} FreeIsStored(history: seq<Committed>, runId: RunId, batch: seq<Event>, i: nat)
    requires i < |Unique(batch)|
    requires forall c | c in history ::
               && c.event.eventId != Unique(batch)[i].eventId
               && (c.event.facts.runtimeId == Unique(batch)[i].facts.runtimeId ==>
                     c.event.facts.sequence != Unique(batch)[i].facts.sequence)
    requires forall j | 0 <= j < i ::
               && Unique(batch)[j].eventId != Unique(batch)[i].eventId
               && (Unique(batch)[j].facts.runtimeId == Unique(batch)[i].facts.runtimeId ==>
                     Unique(batch)[j].facts.sequence != Unique(batch)[i].facts.sequence)
    ensures EntryFor(runId, Unique(batch)[i]) in After(history, runId, batch)
    ensures RowOf(EntryFor(runId, Unique(batch)[i])) in EventTable(After(history, runId, batch))
  {
    var entries := EntriesFor(runId, Unique(batch));
    StoresWhatItCan(history, runId, batch, i);
    InsertFrom(history, entries[..i], EntryClash);
    assert Free(history, entries, i);
  }

  // ---------------------------------------------------------------------------------------------
  // Appending again
  // ---------------------------------------------------------------------------------------------

  lemma {:induction false} NothingLeftToTake(history: seq<Committed>, runId: RunId, batch: seq<Event>)
    ensures var after := After(history, runId, batch); After(after, runId, batch) == after
  {
    var entries := EntriesFor(runId, Unique(batch));
    var after := After(history, runId, batch);
    InsertFrom(history, entries, EntryClash);
    forall c | c in entries ensures Taken(after, c, EntryClash) {
      if c in after { assert EntryClash(c, c); }
    }
    InsertNothing(after, entries, EntryClash);
  }

  lemma {:induction false} SkippedAgain(batch: seq<Event>, ids: set<EventId>, rows: seq<Stored>, runId: RunId)
    requires UniqueRowIds(rows) && forall e | e in batch && e.eventId in ids :: HeldIn(rows, e, runId)
    ensures LogConflicts(Except(batch, {}), rows, runId) == LogConflicts(Except(batch, ids), rows, runId)
  {
    if batch != [] {
      var before, e := batch[..|batch| - 1], batch[|batch| - 1];
      SkippedAgain(before, ids, rows, runId);
      OneMoreSkipped(Except(before, {}), e, rows, runId);
      if e.eventId in ids {
        NamedWhenNotHeld(e, rows, runId);
        assert Except(batch, ids) == Except(before, ids);
      } else {
        OneMoreSkipped(Except(before, ids), e, rows, runId);
      }
    }
  }

  lemma {:induction false} OneMoreSkipped(skipped: seq<Event>, e: Event, rows: seq<Stored>, runId: RunId)
    ensures LogConflicts(skipped + [e], rows, runId)
            == LogConflicts(skipped, rows, runId)
               + LogConflict(e, RowWithId(rows, e.eventId), RowAtPosition(rows, PositionOf(e.facts)), runId)
  {
    assert (skipped + [e])[..|skipped|] == skipped;
  }

  /** Appending a batch again changes nothing and gives the same conflicts. */
  lemma {:induction false} AppendingAgain(history: seq<Committed>, runId: RunId, batch: seq<Event>)
    requires LogOk(history) && AllRecordable(batch)
    ensures var after := After(history, runId, batch);
            && After(after, runId, batch) == after && Newly(after, runId, batch) == []
            && AppendConflicts(after, runId, batch) == AppendConflicts(history, runId, batch)
  {
    var after := After(history, runId, batch);
    var rows := EventTable(after);
    NothingLeftToTake(history, runId, batch);
    assert TakenIds(after, runId, batch) == {};
    OnlyNone(Unique(batch));
    AppendKeepsLog(history, runId, batch);
    forall e | e in Unique(batch) && e.eventId in TakenIds(history, runId, batch) ensures HeldIn(rows, e, runId) {
      TakenIsHeld(history, runId, batch, e);
    }
    SkippedAgain(Unique(batch), TakenIds(history, runId, batch), rows, runId);
  }

  lemma {:induction false} OnlyNone(batch: seq<Event>)
    ensures Only(batch, {}) == []
  {
    if batch != [] { OnlyNone(batch[..|batch| - 1]); }
  }

  // ---------------------------------------------------------------------------------------------
  // An event named although the log holds it
  // ---------------------------------------------------------------------------------------------

  function Beat(sequence: nat, observedAt: int): Event {
    Event("evt_1", Facts(1, sequence, None, None, None, None, 1, observedAt, 0, 0, 0, RuntimeHeartbeat,
                         Payload(None, None, None, "")), None, None, None)
  }

  /** Named does not mean absent when a batch reuses an id: a batch that first gives an id other facts
      and then the ones the log holds has that id named, though the log holds its second event. */
  lemma {:induction false} NamedThoughHeld()
    ensures var history := [Committed(Beat(1, 0), "run")];
            var batch := [Beat(1, 5), Beat(1, 0)];
            && LogOk(history) && AllRecordable(batch)
            && HeldIn(EventTable(After(history, "run", batch)), batch[1], "run")
            && Named(AppendConflicts(history, "run", batch), batch[1].eventId)
            && ReusesId(batch, "run", batch[1].eventId)
  {
    var history := [Committed(Beat(1, 0), "run")];
    var batch := [Beat(1, 5), Beat(1, 0)];
    assert batch[..1] == [batch[0]] && batch[..0] == [];
    assert FirstWith(batch[..1], "evt_1") == Some(batch[0]) by {
      assert batch[..1][..0] == [] && FirstWith([], "evt_1") == None;
    }
    assert Reuses(batch, "run", 1);
    ConflictsExactly(history, "run", batch, "evt_1");
    var after := After(history, "run", batch);
    assert RowOf(history[0]) == RowOf(after[0]) && RowOf(after[0]) in EventTable(after);
    assert Holds(RowOf(after[0]), batch[1], "run");
  }
}
