/** Deleting the records of runs finished long ago (packages/telemetry/src/retention.ts), a bounded
    number of rows a statement and a bounded number a call. */
module Retention {
  import opened Wrappers

  type RunId = string
  datatype Table = Timeline | Scrollback | Artifacts | LossSpans | Events | RunEpochs
  const RECORD_TABLES := [Timeline, Scrollback, Artifacts, LossSpans, Events, RunEpochs]

  datatype RunRow = RunRow(finishedAt: Option<int>, recordDeleted: bool)
  type Runs = map<RunId, RunRow>
  /** How many rows each table holds of each run. */
  type Rows = map<(RunId, Table), nat>

  /** One statement that deleted rows. */
  datatype Statement = Statement(runId: RunId, table: Table, limit: nat, deleted: nat)

  function Count(rows: Rows, runId: RunId, table: Table): nat {
    if (runId, table) in rows then rows[(runId, table)] else 0
  }

  ghost predicate Empty(rows: Rows, runId: RunId) {
    forall t: Table :: Count(rows, runId, t) == 0
  }

  /** Every table of the record is among those emptied. */
  lemma {:induction false} AllTables(t: Table)
    ensures t in RECORD_TABLES
  {
    match t
    case Timeline => assert RECORD_TABLES[0] == t;
    case Scrollback => assert RECORD_TABLES[1] == t;
    case Artifacts => assert RECORD_TABLES[2] == t;
    case LossSpans => assert RECORD_TABLES[3] == t;
    case Events => assert RECORD_TABLES[4] == t;
    case RunEpochs => assert RECORD_TABLES[5] == t;
  }

  /** A run that finished before the instant and whose record is still here. */
  predicate Expired(runs: Runs, runId: RunId, before: int) {
    && runId in runs && runs[runId].finishedAt.Some? && runs[runId].finishedAt.value < before
    && !runs[runId].recordDeleted
  }

  function ExpiredRuns(runs: Runs, before: int): set<RunId> {
    set r | r in runs && Expired(runs, r, before)
  }

  function Deleted(log: seq<Statement>, runId: RunId, table: Table): nat {
    if log == [] then 0
    else
      var s := log[|log| - 1];
      Deleted(log[..|log| - 1], runId, table) + if s.runId == runId && s.table == table then s.deleted else 0
  }

  function Total(log: seq<Statement>): nat {
    if log == [] then 0 else Total(log[..|log| - 1]) + log[|log| - 1].deleted
  }

  /** The rows there were are those there are and those the statements deleted. */
  ghost predicate Accounts(before: Rows, after: Rows, log: seq<Statement>) {
    forall r, t :: Count(before, r, t) == Count(after, r, t) + Deleted(log, r, t)
  }

  lemma {:induction false} DeletedConcat(a: seq<Statement>, b: seq<Statement>, r: RunId, t: Table)
    ensures Deleted(a + b, r, t) == Deleted(a, r, t) + Deleted(b, r, t) && Total(a + b) == Total(a) + Total(b)
  {
    if b == [] {
      assert a + b == a;
    } else {
      assert (a + b)[..|a + b| - 1] == a + b[..|b| - 1];
      DeletedConcat(a, b[..|b| - 1], r, t);
    }
  }

  lemma {:induction false} AccountsConcat(before: Rows, mid: Rows, after: Rows, a: seq<Statement>, b: seq<Statement>)
    requires Accounts(before, mid, a) && Accounts(mid, after, b)
    ensures Accounts(before, after, a + b) && Total(a + b) == Total(a) + Total(b)
  {
    forall r, t { DeletedConcat(a, b, r, t); }
    DeletedConcat(a, b, "", Timeline);
  }

  lemma {:induction false} AccountsNothing(rows: Rows)
    ensures Accounts(rows, rows, []) && Total([]) == 0
  {
    forall r, t ensures Deleted([], r, t) == 0 {}
  }

  lemma {:induction false} ChunkAccounts(before: Rows, s: Statement)
    requires s.deleted <= Count(before, s.runId, s.table)
    ensures Accounts(before, before[(s.runId, s.table) := Count(before, s.runId, s.table) - s.deleted], [s])
    ensures Total([s]) == s.deleted
  {
    assert [s][..0] == [] && Total([]) == 0;
    forall r, t ensures Deleted([s], r, t) == if s.runId == r && s.table == t then s.deleted else 0 {
      assert Deleted([], r, t) == 0;
    }
  }

  ghost predicate Within(log: seq<Statement>, chunkRows: nat) {
    forall s | s in log :: s.deleted <= s.limit <= chunkRows
  }

  ghost predicate OnlyFrom(log: seq<Statement>, runId: RunId) {
    forall s | s in log :: s.runId == runId
  }

  function Min(a: int, b: int): int {
    if a < b then a else b
  }

  /** Only the marks of expired runs change. */
  ghost predicate Marked(before: Runs, after: Runs, instant: int) {
    && after.Keys == before.Keys
    && forall r | r in after ::
         after[r] == before[r] || (Expired(before, r, instant) && after[r] == before[r].(recordDeleted := true))
  }

  /** A run finished no later than each of some others. */
  ghost predicate OldestOf(runs: Runs, runId: RunId, others: set<RunId>) {
    && runId in runs && runs[runId].finishedAt.Some?
    && forall o | o in others && o in runs && runs[o].finishedAt.Some? :: runs[runId].finishedAt.value <= runs[o].finishedAt.value
  }

  class Records {
    var runs: Runs
    var rows: Rows

    constructor (runs: Runs, rows: Rows)
      ensures this.runs == runs && this.rows == rows
    {
      this.runs, this.rows := runs, rows;
    }

    /** One statement: deletes at most `limit` rows of a run from a table. */
    method DeleteChunk(runId: RunId, table: Table, limit: nat) returns (deleted: nat)
      modifies this`rows
      ensures deleted == Min(limit, Count(old(rows), runId, table))
      ensures rows == old(rows)[(runId, table) := Count(old(rows), runId, table) - deleted]
    {
      var count := Count(rows, runId, table);
      deleted := Min(limit, count);
      rows := rows[(runId, table) := count - deleted];
    }

    /** Empties a table of a run, as far as the call's limit allows. */
    method EmptyTable(runId: RunId, table: Table, chunkRows: nat, maxRows: int, deletedBefore: nat)
      returns (finished: bool, deletedRows: nat, ghost log: seq<Statement>)
      requires chunkRows > 0 && deletedBefore <= maxRows
      modifies this`rows
      ensures Accounts(old(rows), rows, log) && Within(log, chunkRows) && OnlyFrom(log, runId)
      ensures deletedRows == deletedBefore + Total(log) <= maxRows
      ensures if finished then Count(rows, runId, table) == 0 else deletedRows == maxRows
      ensures forall t | t != table :: Count(rows, runId, t) == Count(old(rows), runId, t)
    {
      hide Accounts;
      AccountsNothing(rows);
      deletedRows, log := deletedBefore, [];
      while true
        invariant Accounts(old(rows), rows, log) && Within(log, chunkRows) && OnlyFrom(log, runId)
        invariant deletedRows == deletedBefore + Total(log) <= maxRows
        invariant forall t | t != table :: Count(rows, runId, t) == Count(old(rows), runId, t)
        decreases Count(rows, runId, table)
      {
        if deletedRows >= maxRows { return false, deletedRows, log; }
        var limit := Min(chunkRows, maxRows - deletedRows);
        ghost var mid := rows;
        var deleted := DeleteChunk(runId, table, limit);
        ghost var statement := Statement(runId, table, limit, deleted);
        ChunkAccounts(mid, statement);
        AccountsConcat(old(rows), mid, rows, log, [statement]);
        log := log + [statement];
        deletedRows := deletedRows + deleted;
        if deleted < limit { return true, deletedRows, log; }
      }
    }

    /** Empties a run's record, table by table, as far as the call's limit allows. */
    method EmptyRun(runId: RunId, chunkRows: nat, maxRows: int, deletedBefore: nat)
      returns (finished: bool, deletedRows: nat, ghost log: seq<Statement>)
      requires chunkRows > 0 && deletedBefore <= maxRows
      modifies this`rows
      ensures Accounts(old(rows), rows, log) && Within(log, chunkRows) && OnlyFrom(log, runId)
      ensures deletedRows == deletedBefore + Total(log) <= maxRows
      ensures if finished then Empty(rows, runId) else deletedRows == maxRows
    {
      finished, deletedRows, log := true, deletedBefore, [];
      for i := 0 to |RECORD_TABLES|
        invariant Accounts(old(rows), rows, log) && Within(log, chunkRows) && OnlyFrom(log, runId)
        invariant deletedRows == deletedBefore + Total(log) <= maxRows && finished
        invariant forall k | 0 <= k < i :: Count(rows, runId, RECORD_TABLES[k]) == 0
      {
        ghost var mid, more := rows, [];
        finished, deletedRows, more := EmptyTable(runId, RECORD_TABLES[i], chunkRows, maxRows, deletedRows);
        AccountsConcat(old(rows), mid, rows, log, more);
        log := log + more;
        if !finished { break; }
      }
      if finished {
        forall t ensures Count(rows, runId, t) == 0 { AllTables(t); }
      }
    }

    /** The oldest expired run, if there is one. */
    method OldestExpired(before: int) returns (oldest: Option<RunId>)
      ensures oldest.None? <==> ExpiredRuns(runs, before) == {}
      ensures oldest.Some? ==>
                && Expired(runs, oldest.value, before)
                && forall r | Expired(runs, r, before) :: runs[oldest.value].finishedAt.value <= runs[r].finishedAt.value
    {
      oldest := None;
      var todo := ExpiredRuns(runs, before);
      while todo != {}
        invariant todo <= ExpiredRuns(runs, before)
        invariant oldest.None? ==> todo == ExpiredRuns(runs, before)
        invariant oldest.Some? ==>
                    && Expired(runs, oldest.value, before)
                    && forall r | Expired(runs, r, before) && r !in todo ::
                         runs[oldest.value].finishedAt.value <= runs[r].finishedAt.value
      {
        var r :| r in todo;
        todo := todo - {r};
        if oldest.None? || runs[r].finishedAt.value < runs[oldest.value].finishedAt.value { oldest := Some(r); }
      }
      assert oldest.Some? ==> oldest.value in ExpiredRuns(runs, before);
    }

    /** Deletes the record of the oldest expired run, as far as the call's limit allows. */
    method DeleteOldest(before: int, chunkRows: nat, maxRows: int, deletedBefore: nat)
      returns (expired: Option<RunId>, finished: bool, deletedRows: nat, ghost log: seq<Statement>)
      requires chunkRows > 0 && deletedBefore <= maxRows
      modifies this
      ensures Accounts(old(rows), rows, log) && Within(log, chunkRows) && deletedRows == deletedBefore + Total(log) <= maxRows
      ensures expired.None? ==> ExpiredRuns(runs, before) == {} && log == [] && runs == old(runs) && rows == old(rows) && !finished
      ensures expired.Some? ==>
                && Expired(old(runs), expired.value, before) && OnlyFrom(log, expired.value)
                && OldestOf(old(runs), expired.value, ExpiredRuns(old(runs), before))
                && if finished then Empty(rows, expired.value) && runs == Mark(old(runs), expired.value)
                   else deletedRows == maxRows && runs == old(runs)
    {
      expired := OldestExpired(before);
      finished, deletedRows, log := false, deletedBefore, [];
      if expired.None? { return; }
      finished, deletedRows, log := EmptyRun(expired.value, chunkRows, maxRows, deletedBefore);
      if finished { runs := Mark(runs, expired.value); }
    }

    /** Deletes the records of runs that finished before an instant, oldest first, within the call's
        limits. A run is marked only once its record is empty; a call that deletes fewer rows than it
        may leaves no expired run; and only expired runs lose rows. */
    method DeleteExpiredRunRecords(before: int, chunkRows: nat, maxRows: int)
      returns (deletedRuns: nat, deletedRows: nat, ghost log: seq<Statement>)
      requires chunkRows > 0
      modifies this
      ensures Swept(old(runs), old(rows), runs, rows, log, before) && Within(log, chunkRows)
      ensures deletedRows == Total(log) && deletedRows <= (if maxRows < 0 then 0 else maxRows)
      ensures deletedRuns == |ExpiredRuns(old(runs), before)| - |ExpiredRuns(runs, before)|
      ensures deletedRows < maxRows ==> ExpiredRuns(runs, before) == {}
      ensures runs.Keys == old(runs).Keys && deletedRuns == |set r | r in runs && runs[r] != old(runs)[r]|
      ensures forall r | r in runs && runs[r] != old(runs)[r] ::
                && old(runs)[r].finishedAt.Some? && old(runs)[r].finishedAt.value < before
                && old(runs)[r] == runs[r].(recordDeleted := false) && runs[r].recordDeleted
                && forall t: Table :: (r, t) in rows ==> rows[(r, t)] == 0
      ensures forall r, t | Count(rows, r, t) != Count(old(rows), r, t) ::
                && Count(rows, r, t) < Count(old(rows), r, t)
                && r in old(runs) && old(runs)[r].finishedAt.Some? && old(runs)[r].finishedAt.value < before
                && !old(runs)[r].recordDeleted
      ensures forall r, t, o | Count(rows, r, t) != Count(old(rows), r, t) && o in runs && runs[o].finishedAt.Some? ::
                runs[o].finishedAt.value < old(runs)[r].finishedAt.value ==> runs[o].recordDeleted
      ensures deletedRows < maxRows ==>
                forall r | r in runs && runs[r].finishedAt.Some? && runs[r].finishedAt.value < before :: runs[r].recordDeleted
    {
      hide Swept, Accounts, Marked;
      deletedRuns, deletedRows, log := 0, 0, [];
      SweptNothing(runs, rows, before, chunkRows);
      while deletedRows < maxRows
        invariant Swept(old(runs), old(rows), runs, rows, log, before) && Within(log, chunkRows)
        invariant deletedRows == Total(log) && deletedRows <= (if maxRows < 0 then 0 else maxRows)
        invariant deletedRuns == |ExpiredRuns(old(runs), before)| - |ExpiredRuns(runs, before)|
        decreases |ExpiredRuns(runs, before)|
      {
        ghost var midRuns, midRows, more := runs, rows, [];
        var expired, finished;
        expired, finished, deletedRows, more := DeleteOldest(before, chunkRows, maxRows, deletedRows);
        if expired.None? { break; }
        SweptOn(old(runs), old(rows), midRuns, midRows, log, before, expired.value, finished, runs, rows, more);
        log := log + more;
        if !finished { break; }
        MarkedOne(midRuns, expired.value, before);
        deletedRuns := deletedRuns + 1;
      }
      SweptMeans(old(runs), old(rows), runs, rows, log, before);
      if deletedRows < maxRows { NoneExpired(runs, before); }
    }
  }

  function Mark(runs: Runs, runId: RunId): Runs {
    if runId in runs then runs[runId := runs[runId].(recordDeleted := true)] else runs
  }

  /** A call so far: what is gone is accounted for; it is of expired runs, each finished no later than
      every run still expired; a run is marked only with its record empty; nothing else changed. */
  ghost predicate Swept(runs0: Runs, rows0: Rows, runs: Runs, rows: Rows, log: seq<Statement>, before: int) {
    && Accounts(rows0, rows, log) && Marked(runs0, runs, before)
    && (forall s | s in log :: Expired(runs0, s.runId, before) && OldestOf(runs0, s.runId, ExpiredRuns(runs, before)))
    && forall r | Expired(runs0, r, before) && !Expired(runs, r, before) ::
         Empty(rows, r) && OldestOf(runs0, r, ExpiredRuns(runs, before))
  }

  lemma {:induction false} NoneDeleted(log: seq<Statement>, r: RunId, t: Table)
    requires forall s | s in log :: s.runId != r
    ensures Deleted(log, r, t) == 0
  {
    if log != [] { NoneDeleted(log[..|log| - 1], r, t); }
  }

  lemma {:induction false} NoneExpired(runs: Runs, before: int)
    requires ExpiredRuns(runs, before) == {}
    ensures forall r | r in runs && runs[r].finishedAt.Some? && runs[r].finishedAt.value < before :: runs[r].recordDeleted
  {
    forall r | r in runs && runs[r].finishedAt.Some? && runs[r].finishedAt.value < before ensures runs[r].recordDeleted {
      assert Expired(runs, r, before) <==> r in ExpiredRuns(runs, before);
    }
  }

  lemma {:induction false} SweptNothing(runs: Runs, rows: Rows, before: int, chunkRows: nat)
    ensures Swept(runs, rows, runs, rows, [], before) && Within([], chunkRows) && Total([]) == 0
  {
    AccountsNothing(rows);
  }

  lemma {:induction false} NewlyMarked(runs0: Runs, runs: Runs, before: int)
    requires Marked(runs0, runs, before)
    ensures (set r | r in runs && runs[r] != runs0[r]) == ExpiredRuns(runs0, before) - ExpiredRuns(runs, before)
    ensures |set r | r in runs && runs[r] != runs0[r]| == |ExpiredRuns(runs0, before)| - |ExpiredRuns(runs, before)|
  {
    var gone := set r | r in runs && runs[r] != runs0[r];
    assert gone == ExpiredRuns(runs0, before) - ExpiredRuns(runs, before);
    assert ExpiredRuns(runs, before) <= ExpiredRuns(runs0, before);
    assert ExpiredRuns(runs0, before) == ExpiredRuns(runs, before) + gone;
  }

  /** What a call leaves, in the runs and rows alone. */
  lemma {:induction false} SweptMeans(runs0: Runs, rows0: Rows, runs: Runs, rows: Rows, log: seq<Statement>, before: int)
    requires Swept(runs0, rows0, runs, rows, log, before)
    ensures runs.Keys == runs0.Keys
    ensures |set r | r in runs && runs[r] != runs0[r]| == |ExpiredRuns(runs0, before)| - |ExpiredRuns(runs, before)|
    ensures forall r | r in runs && runs[r] != runs0[r] ::
              && runs0[r].finishedAt.Some? && runs0[r].finishedAt.value < before
              && runs0[r] == runs[r].(recordDeleted := false) && runs[r].recordDeleted
              && forall t: Table :: (r, t) in rows ==> rows[(r, t)] == 0
    ensures forall r, t | Count(rows, r, t) != Count(rows0, r, t) ::
              && Count(rows, r, t) < Count(rows0, r, t)
              && r in runs0 && runs0[r].finishedAt.Some? && runs0[r].finishedAt.value < before && !runs0[r].recordDeleted
    ensures forall r, t, o | Count(rows, r, t) != Count(rows0, r, t) && o in runs && runs[o].finishedAt.Some? ::
              runs[o].finishedAt.value < runs0[r].finishedAt.value ==> runs[o].recordDeleted
  {
    NewlyMarked(runs0, runs, before);
    forall r | r in runs && runs[r] != runs0[r] ensures Empty(rows, r) {
      assert Expired(runs0, r, before) && !Expired(runs, r, before);
    }
    forall r, t | r in runs && runs[r] != runs0[r] && (r, t) in rows ensures rows[(r, t)] == 0 {
      assert Count(rows, r, t) == 0;
    }
    forall r, t | Count(rows, r, t) != Count(rows0, r, t)
      ensures Count(rows, r, t) < Count(rows0, r, t) && Expired(runs0, r, before)
      ensures OldestOf(runs0, r, ExpiredRuns(runs, before))
    {
      if forall s | s in log :: s.runId != r { NoneDeleted(log, r, t); }
    }
    forall r, t, o | Count(rows, r, t) != Count(rows0, r, t) && o in runs && runs[o].finishedAt.Some?
                     && runs[o].finishedAt.value < runs0[r].finishedAt.value
      ensures runs[o].recordDeleted
    {
      assert OldestOf(runs0, r, ExpiredRuns(runs, before));
      assert Expired(runs, o, before) <==> o in ExpiredRuns(runs, before);
      assert runs[o].finishedAt == runs0[o].finishedAt;
    }
  }

  lemma {:induction false} MarkedOne(runs: Runs, runId: RunId, before: int)
    requires Expired(runs, runId, before)
    ensures ExpiredRuns(Mark(runs, runId), before) == ExpiredRuns(runs, before) - {runId}
    ensures |ExpiredRuns(Mark(runs, runId), before)| == |ExpiredRuns(runs, before)| - 1
  {
    assert ExpiredRuns(Mark(runs, runId), before) == ExpiredRuns(runs, before) - {runId};
    assert runId in ExpiredRuns(runs, before);
  }

  lemma {:induction false} SweptOn(runs0: Runs, rows0: Rows, runs: Runs, rows: Rows, log: seq<Statement>, before: int,
                                   runId: RunId, finished: bool, runs': Runs, rows': Rows, more: seq<Statement>)
    requires Swept(runs0, rows0, runs, rows, log, before) && Accounts(rows, rows', more) && OnlyFrom(more, runId)
    requires Expired(runs, runId, before) && OldestOf(runs, runId, ExpiredRuns(runs, before))
    requires if finished then Empty(rows', runId) && runs' == Mark(runs, runId) else runs' == runs
    ensures Swept(runs0, rows0, runs', rows', log + more, before) && Total(log + more) == Total(log) + Total(more)
  {
    AccountsConcat(rows0, rows, rows', log, more);
    if finished { MarkedOne(runs, runId, before); }
    assert ExpiredRuns(runs', before) <= ExpiredRuns(runs, before);
    assert OldestOf(runs0, runId, ExpiredRuns(runs', before));
    forall r | Empty(rows, r) ensures Empty(rows', r) {
      forall t ensures Count(rows', r, t) <= Count(rows, r, t) {}
    }
  }
}

