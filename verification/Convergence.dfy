/** Two kinds of writer append one runtime's events to one log: an exec recorder its own run's events
    and the untagged ones, the full-stream ingester every event. Whatever the batching, the order and
    the repeats, they end in the same log (packages/telemetry/src/exec-run.ts,
    packages/telemetry/src/ingester.ts, packages/telemetry/src/sink.ts). */
module Convergence {
  import opened Wrappers
  import opened Tables
  import opened RecordEvents
  import opened Redelivery
  import opened RecordSink
  import opened AppendVerdicts
  import opened Attribution

  datatype Writer = Recorder(runId: RunId) | Ingester

  /** One append: some events of the stream, in any order and with any repeats, by one writer. */
  datatype Delivery = Delivery(writer: Writer, events: seq<Event>)

  /** What does not change while the stream is recorded: the runs, and the ingester's default run. */
  datatype World = World(runs: Runs, launchRun: RunId)

  /** The copies of one runtime's events: copies with one id, or at one position, are of one event. */
  ghost predicate StreamOk(stream: set<Event>) {
    && (forall e | e in stream :: Recordable(e) && e.attributedRunId.None?)
    && forall d, e | d in stream && e in stream && (d.eventId == e.eventId || PositionOf(d.facts) == PositionOf(e.facts)) ::
         d.eventId == e.eventId && d.facts == e.facts
  }

  /** A recorder is given the events of its own run, a run of the workspace, and the untagged ones. */
  ghost predicate DeliveryOk(world: World, stream: set<Event>, d: Delivery) {
    && (forall e | e in d.events :: e in stream)
    && (d.writer.Recorder? ==>
          && IsSibling(world.runs, world.launchRun, d.writer.runId)
          && forall e | e in d.events :: e.facts.executionId.None? || e.facts.executionId == Some(d.writer.runId))
  }

  function DefaultOf(world: World, writer: Writer): RunId {
    match writer
    case Recorder(runId) => runId
    case Ingester => world.launchRun
  }

  function BatchOf(world: World, d: Delivery): seq<Event> {
    match d.writer
    case Recorder(_) => d.events
    case Ingester => AttributeBatch(d.events, Resolve(world.runs, world.launchRun, ExecutionIds(d.events)))
  }

  /** The log after a delivery. */
  function Deliver(world: World, history: seq<Committed>, d: Delivery): seq<Committed> {
    After(history, DefaultOf(world, d.writer), BatchOf(world, d))
  }

  function DeliverAll(world: World, ds: seq<Delivery>): seq<Committed> {
    if ds == [] then [] else Deliver(world, DeliverAll(world, ds[..|ds| - 1]), ds[|ds| - 1])
  }

  // ---------------------------------------------------------------------------------------------
  // What every delivery keeps
  // ---------------------------------------------------------------------------------------------

  predicate Logged(history: seq<Committed>, id: EventId) {
    exists c :: c in history && c.event.eventId == id
  }

  predicate IsCopy(e: Event, c: Committed) {
    e.eventId == c.event.eventId && e.facts == c.event.facts
  }

  ghost predicate FromStream(stream: set<Event>, c: Committed) {
    exists e :: e in stream && IsCopy(e, c)
  }

  /** A tagged event is in the run it belongs to. */
  predicate InItsRun(world: World, c: Committed) {
    c.event.facts.executionId.Some? ==> c.runId == HomeRun(world.runs, world.launchRun, c.event.facts)
  }

  ghost predicate Converging(world: World, stream: set<Event>, history: seq<Committed>) {
    && LogOk(history)
    && forall c | c in history :: FromStream(stream, c) && InItsRun(world, c)
  }

  /** The run a writer appends an event of the stream for. */
  function RunOf(world: World, writer: Writer, facts: Facts): RunId {
    match writer
    case Recorder(runId) => runId
    case Ingester => HomeRun(world.runs, world.launchRun, facts)
  }

  /** Each event of a batch is a copy of the stream's, appended for the run it belongs to. */
  lemma {:induction false} BatchIsStream(world: World, stream: set<Event>, d: Delivery, e: Event)
    requires StreamOk(stream) && DeliveryOk(world, stream, d) && e in BatchOf(world, d)
    ensures var c := EntryFor(DefaultOf(world, d.writer), e);
            && FromStream(stream, c) && InItsRun(world, c) && Recordable(e)
            && c.runId == RunOf(world, d.writer, e.facts)
  {
    var c := EntryFor(DefaultOf(world, d.writer), e);
    if d.writer.Ingester? {
      var i :| 0 <= i < |d.events| && BatchOf(world, d)[i] == e;
      assert d.events[i] in stream;
      AttributesHome(world.runs, world.launchRun, d.events, i);
      assert IsCopy(d.events[i], c);
    } else {
      assert IsCopy(e, c);
    }
  }

  lemma {:induction false} DeliveryKeeps(world: World, stream: set<Event>, history: seq<Committed>, d: Delivery)
    requires StreamOk(stream) && Converging(world, stream, history) && DeliveryOk(world, stream, d)
    ensures Converging(world, stream, Deliver(world, history, d)) && AllRecordable(BatchOf(world, d))
  {
    var batch, runId := BatchOf(world, d), DefaultOf(world, d.writer);
    forall e | e in batch { BatchIsStream(world, stream, d, e); }
    AppendKeepsLog(history, runId, batch);
    InsertFrom(history, EntriesFor(runId, Unique(batch)), EntryClash);
    forall c | c in EntriesFor(runId, Unique(batch)) ensures FromStream(stream, c) && InItsRun(world, c) {
      var e :| e in Unique(batch) && c == EntryFor(runId, e);
      UniqueIsInBatch(batch, e);
    }
  }

  /** A copy of an event the log took, appended for the run it belongs to, is held. */
  lemma {:induction false} CopyIsTaken(world: World, stream: set<Event>, history: seq<Committed>, c: Committed, e: Event, runId: RunId)
    requires StreamOk(stream) && Converging(world, stream, history) && c in history
    requires FromStream(stream, EntryFor(runId, e)) && InItsRun(world, EntryFor(runId, e))
    requires EntryClash(c, EntryFor(runId, e))
    ensures HeldIn(EventTable(history), e, runId) && c.event.eventId == e.eventId && c.event.facts == e.facts
  {
    var d :| d in stream && IsCopy(d, c);
    var f :| f in stream && IsCopy(f, EntryFor(runId, e));
    assert PositionOf(d.facts) == PositionOf(f.facts) || d.eventId == f.eventId;
    assert d.facts == f.facts && d.eventId == f.eventId;
    RecordableRoundTrip(c.event, c.runId);
    assert RowOf(c) in EventTable(history);
    assert Holds(RowOf(c), e, RunIdFor(runId, e));
  }

  /** Two events of a delivery with one id are copies. */
  lemma {:induction false} SameIdSameFacts(world: World, stream: set<Event>, d: Delivery, a: Event, b: Event)
    requires StreamOk(stream) && DeliveryOk(world, stream, d)
    requires a in BatchOf(world, d) && b in BatchOf(world, d) && a.eventId == b.eventId
    ensures a.facts == b.facts && RunIdFor(DefaultOf(world, d.writer), a) == RunIdFor(DefaultOf(world, d.writer), b)
  {
    BatchIsStream(world, stream, d, a);
    BatchIsStream(world, stream, d, b);
    var e :| e in stream && IsCopy(e, EntryFor(DefaultOf(world, d.writer), a));
    var f :| f in stream && IsCopy(f, EntryFor(DefaultOf(world, d.writer), b));
  }

  lemma {:induction false} NothingReused(world: World, stream: set<Event>, d: Delivery, id: EventId)
    requires StreamOk(stream) && DeliveryOk(world, stream, d)
    ensures !ReusesId(BatchOf(world, d), DefaultOf(world, d.writer), id)
  {
    var batch := BatchOf(world, d);
    forall i | 0 <= i < |batch| ensures !Reuses(batch, DefaultOf(world, d.writer), i) {
      var earlier := FirstWith(batch[..i], batch[i].eventId);
      if earlier.Some? {
        assert earlier.value in batch && batch[i] in batch;
        SameIdSameFacts(world, stream, d, earlier.value, batch[i]);
      }
    }
  }

  /** The log, after a delivery, has an entry that clashes with each of its events. */
  lemma {:induction false} SomethingWithIt(world: World, stream: set<Event>, history: seq<Committed>, d: Delivery, e: Event)
    returns (c: Committed)
    requires StreamOk(stream) && DeliveryOk(world, stream, d) && e in BatchOf(world, d)
    ensures c in Deliver(world, history, d) && EntryClash(c, EntryFor(DefaultOf(world, d.writer), e))
  {
    var batch, runId := BatchOf(world, d), DefaultOf(world, d.writer);
    var entries := EntriesFor(runId, Unique(batch));
    InsertFrom(history, entries, EntryClash);
    var first := FirstWith(batch, e.eventId).value;
    UniqueExactly(batch, first);
    SameIdSameFacts(world, stream, d, first, e);
    c := EntryFor(runId, first);
    assert c in entries;
    if c !in Deliver(world, history, d) {
      c :| c in Deliver(world, history, d) && EntryClash(c, EntryFor(runId, first));
    }
  }

  /** After a delivery the log holds each of its events. */
  lemma {:induction false} DeliveredIsHeld(world: World, stream: set<Event>, history: seq<Committed>, d: Delivery, e: Event)
    requires StreamOk(stream) && Converging(world, stream, history) && DeliveryOk(world, stream, d) && e in BatchOf(world, d)
    ensures HeldIn(EventTable(Deliver(world, history, d)), e, DefaultOf(world, d.writer))
    ensures Logged(Deliver(world, history, d), e.eventId)
  {
    var runId := DefaultOf(world, d.writer);
    DeliveryKeeps(world, stream, history, d);
    BatchIsStream(world, stream, d, e);
    var c := SomethingWithIt(world, stream, history, d, e);
    CopyIsTaken(world, stream, Deliver(world, history, d), c, e, runId);
  }

  lemma {:induction false} BatchIds(world: World, d: Delivery, id: EventId)
    ensures Brings(d, id) <==> exists e :: e in BatchOf(world, d) && e.eventId == id
  {
    var batch := BatchOf(world, d);
    assert forall i | 0 <= i < |batch| :: batch[i].eventId == d.events[i].eventId;
    if e :| e in batch && e.eventId == id {
      var i :| 0 <= i < |batch| && batch[i] == e;
      assert d.events[i] in d.events;
    }
    if f :| f in d.events && f.eventId == id {
      var i :| 0 <= i < |d.events| && d.events[i] == f;
      assert batch[i] in batch;
    }
  }

  /** A delivery never conflicts. */
  lemma {:induction false} DeliveryAppends(world: World, stream: set<Event>, history: seq<Committed>, d: Delivery)
    requires StreamOk(stream) && Converging(world, stream, history) && DeliveryOk(world, stream, d)
    ensures AppendResultOf(history, DefaultOf(world, d.writer), BatchOf(world, d)).Appended?
  {
    var batch, runId := BatchOf(world, d), DefaultOf(world, d.writer);
    DeliveryKeeps(world, stream, history, d);
    forall e | e in batch
      ensures HeldIn(EventTable(After(history, runId, batch)), e, runId) && !ReusesId(batch, runId, e.eventId)
    {
      DeliveredIsHeld(world, stream, history, d, e);
      NothingReused(world, stream, d, e.eventId);
    }
    SuccessMeansHeld(history, runId, batch);
  }

  predicate Brings(d: Delivery, id: EventId) {
    exists e :: e in d.events && e.eventId == id
  }

  /** A delivery adds to the log exactly the events it brought. */
  lemma {:induction false} DeliveryAdds(world: World, stream: set<Event>, history: seq<Committed>, d: Delivery, id: EventId)
    requires StreamOk(stream) && Converging(world, stream, history) && DeliveryOk(world, stream, d)
    ensures Logged(Deliver(world, history, d), id) <==> Logged(history, id) || Brings(d, id)
  {
    BatchIds(world, d, id);
    StillLogged(history, DefaultOf(world, d.writer), BatchOf(world, d), id);
    if Brings(d, id) {
      var e :| e in BatchOf(world, d) && e.eventId == id;
      DeliveredIsHeld(world, stream, history, d, e);
    } else if Logged(Deliver(world, history, d), id) {
      NewIdsAreTheBatchs(history, DefaultOf(world, d.writer), BatchOf(world, d), id);
    }
  }

  lemma {:induction false} StillLogged(history: seq<Committed>, runId: RunId, batch: seq<Event>, id: EventId)
    ensures Logged(history, id) ==> Logged(After(history, runId, batch), id)
  {
    if c :| c in history && c.event.eventId == id {
      assert c in After(history, runId, batch);
    }
  }

  lemma {:induction false} NewIdsAreTheBatchs(history: seq<Committed>, runId: RunId, batch: seq<Event>, id: EventId)
    requires Logged(After(history, runId, batch), id)
    ensures Logged(history, id) || exists e :: e in batch && e.eventId == id
  {
    InsertFrom(history, EntriesFor(runId, Unique(batch)), EntryClash);
    var c :| c in After(history, runId, batch) && c.event.eventId == id;
    if c !in history {
      var e :| e in Unique(batch) && c == EntryFor(runId, e);
      UniqueIsInBatch(batch, e);
    }
  }

  // ---------------------------------------------------------------------------------------------
  // Every schedule
  // ---------------------------------------------------------------------------------------------

  ghost predicate ScheduleOk(world: World, stream: set<Event>, ds: seq<Delivery>) {
    StreamOk(stream) && forall d | d in ds :: DeliveryOk(world, stream, d)
  }

  ghost predicate Delivered(ds: seq<Delivery>, id: EventId) {
    exists d :: d in ds && Brings(d, id)
  }

  lemma {:induction false} ScheduleKeeps(world: World, stream: set<Event>, ds: seq<Delivery>)
    requires ScheduleOk(world, stream, ds)
    ensures Converging(world, stream, DeliverAll(world, ds))
  {
    if ds != [] {
      ScheduleKeeps(world, stream, ds[..|ds| - 1]);
      DeliveryKeeps(world, stream, DeliverAll(world, ds[..|ds| - 1]), ds[|ds| - 1]);
    }
  }

  /** No append of any schedule conflicts. */
  lemma {:induction false} NoAppendConflicts(world: World, stream: set<Event>, ds: seq<Delivery>, n: nat)
    requires ScheduleOk(world, stream, ds) && n < |ds|
    ensures AppendResultOf(DeliverAll(world, ds[..n]), DefaultOf(world, ds[n].writer), BatchOf(world, ds[n])).Appended?
  {
    assert forall d | d in ds[..n] :: d in ds;
    ScheduleKeeps(world, stream, ds[..n]);
    DeliveryAppends(world, stream, DeliverAll(world, ds[..n]), ds[n]);
  }

  /** The log holds each event delivered, once, and nothing else. */
  lemma {:induction false} HoldsWhatWasDelivered(world: World, stream: set<Event>, ds: seq<Delivery>, id: EventId)
    requires ScheduleOk(world, stream, ds)
    ensures Logged(DeliverAll(world, ds), id) <==> Delivered(ds, id)
    ensures NoClash(DeliverAll(world, ds), EntryClash)
    ensures var log := DeliverAll(world, ds);
            forall i, j | 0 <= i < j < |log| ::
              && log[i].event.eventId != log[j].event.eventId
              && (log[i].event.facts.runtimeId == log[j].event.facts.runtimeId ==>
                    log[i].event.facts.sequence != log[j].event.facts.sequence)
  {
    ScheduleKeeps(world, stream, ds);
    if ds != [] {
      var before, d := ds[..|ds| - 1], ds[|ds| - 1];
      assert ds == before + [d];
      HoldsWhatWasDelivered(world, stream, before, id);
      ScheduleKeeps(world, stream, before);
      DeliveryAdds(world, stream, DeliverAll(world, before), d, id);
      DeliveredSnoc(before, d, id);
    }
  }

  lemma {:induction false} DeliveredSnoc(ds: seq<Delivery>, d: Delivery, id: EventId)
    ensures Delivered(ds + [d], id) <==> Delivered(ds, id) || Brings(d, id)
  {
    assert forall x :: x in ds + [d] <==> x in ds || x == d;
  }

  /** Two schedules that deliver the same events, by whichever writers, in whatever batches, order and
      repeats, end in logs of the same events; at most the run of an untagged one differs. */
  lemma {:induction false} WritersConverge(world: World, stream: set<Event>, ds: seq<Delivery>, es: seq<Delivery>, c: Committed)
    requires ScheduleOk(world, stream, ds) && ScheduleOk(world, stream, es)
    requires forall id :: Delivered(ds, id) <==> Delivered(es, id)
    requires c in DeliverAll(world, ds)
    ensures exists b :: b in DeliverAll(world, es) && b.event.eventId == c.event.eventId && b.event.facts == c.event.facts
                        && (c.event.facts.executionId.Some? ==> b.runId == c.runId)
  {
    ScheduleKeeps(world, stream, ds);
    ScheduleKeeps(world, stream, es);
    HoldsWhatWasDelivered(world, stream, ds, c.event.eventId);
    HoldsWhatWasDelivered(world, stream, es, c.event.eventId);
    assert Logged(DeliverAll(world, ds), c.event.eventId);
    var b :| b in DeliverAll(world, es) && b.event.eventId == c.event.eventId;
    assert FromStream(stream, b) && FromStream(stream, c);
    var d :| d in stream && IsCopy(d, b);
    var e :| e in stream && IsCopy(e, c);
  }

  // ---------------------------------------------------------------------------------------------
  // When the resolver fails
  // ---------------------------------------------------------------------------------------------

  /** A copy of an event the log holds is refused exactly when it is tagged and its row is neither in
      the run its tag names nor in the one it is appended for. So an ingester whose lookup failed, and
      which stored a recorder's event under the launch run, makes the recorder's append fail. */
  lemma {:induction false} CopyConflictsExactly(history: seq<Committed>, c: Committed, e: Event, runId: RunId)
    requires LogOk(history) && c in history && Recordable(e) && e.attributedRunId.None?
    requires e.eventId == c.event.eventId && e.facts == c.event.facts
    ensures AppendResultOf(history, runId, [e]).Conflicted?
            <==> e.facts.executionId.Some? && e.facts.executionId != Some(c.runId) && c.runId != runId
  {
    var after := After(history, runId, [e]);
    AppendOfOne(history, e, runId);
    AppendKeepsLog(history, runId, [e]);
    assert c in after;
    HeldByItsEntry(after, c, e, runId);
  }

  lemma {:induction false} HeldByItsEntry(history: seq<Committed>, c: Committed, e: Event, runId: RunId)
    requires UniqueRowIds(EventTable(history)) && c in history && Recordable(c.event) && e.attributedRunId.None?
    requires e.eventId == c.event.eventId && e.facts == c.event.facts
    ensures HeldIn(EventTable(history), e, runId)
            <==> e.facts.executionId.None? || e.facts.executionId == Some(c.runId) || c.runId == runId
  {
    assert RowOf(c) in EventTable(history);
    RecordableRoundTrip(c.event, c.runId);
    HeldByItsRow(EventTable(history), RowOf(c), e, runId);
  }

  lemma {:induction false} HeldByItsRow(rows: seq<Stored>, row: Stored, e: Event, runId: RunId)
    requires UniqueRowIds(rows) && row in rows && row.eventId == e.eventId
    ensures HeldIn(rows, e, runId) <==> Holds(row, e, RunIdFor(runId, e))
  {
  }

  lemma {:induction false} AppendOfOne(history: seq<Committed>, e: Event, runId: RunId)
    requires LogOk(history) && Recordable(e)
    ensures AppendResultOf(history, runId, [e]).Appended? <==> HeldIn(EventTable(After(history, runId, [e])), e, runId)
  {
    var batch := [e];
    SuccessMeansHeld(history, runId, batch);
    assert forall id :: !ReusesId(batch, runId, id) by { assert batch[..0] == []; }
  }
}
