/** What settling an answered put leaves, beside the files as its answer reports them. */
module HomeSettle {
  import opened Wrappers
  import opened Placements
  import opened HomeScript
  import opened HomeProtocol
  import opened HomeBegin
  import opened HomeSafety

  // ---------------------------------------------------------------------------------------------
  // What settling does to one row
  // ---------------------------------------------------------------------------------------------

  predicate Displaces(outcome: Outcome, w: WriteIntent) {
    Landed(outcome, w) || Preserved(outcome, w)
  }

  lemma {:induction false} SettlingKeepsPlace(r: Row, accounts: Accounts, writes: seq<WriteIntent>, outcome: Outcome)
    ensures var s := SettleRowAll(r, accounts, writes, outcome);
            s.id == r.id && s.path == r.path && s.provider == r.provider && s.login == r.login && s.accountId == r.accountId
  {
    if writes != [] { SettlingKeepsPlace(r, accounts, writes[..|writes| - 1], outcome); }
  }

  predicate Displaced(writes: seq<WriteIntent>, outcome: Outcome, path: Path) {
    exists w :: w in writes && Displaces(outcome, w) && w.path == path
  }

  lemma {:induction false} OneMoreDisplaces(writes: seq<WriteIntent>, w: WriteIntent, outcome: Outcome, path: Path)
    ensures Displaced(writes + [w], outcome, path)
            <==> Displaced(writes, outcome, path) || (Displaces(outcome, w) && w.path == path)
  {
    assert forall v :: v in writes + [w] <==> v in writes || v == w;
  }

  /** A row no write names stays, unless it is ready where a login landed or the person's was kept. */
  lemma {:induction false} SettleOther(r: Row, accounts: Accounts, writes: seq<WriteIntent>, outcome: Outcome)
    requires forall w | w in writes :: w.id != r.id
    ensures SettleRowAll(r, accounts, writes, outcome)
            == if r.state == Ready && Displaced(writes, outcome, r.path) then Retire(r) else r
  {
    if writes != [] {
      var before, w := writes[..|writes| - 1], writes[|writes| - 1];
      assert writes == before + [w];
      assert forall v | v in before :: v in writes;
      SettleOther(r, accounts, before, outcome);
      OneMoreDisplaces(before, w, outcome, r.path);
    }
  }

  /** A row one write names is settled by that write alone. */
  lemma {:induction false} SettleOwn(r: Row, accounts: Accounts, writes: seq<WriteIntent>, outcome: Outcome, k: nat)
    requires k < |writes| && writes[k].id == r.id && writes[k].path == r.path
    requires forall j | 0 <= j < |writes| && j != k :: writes[j].id != r.id && writes[j].path != r.path
    ensures SettleRowAll(r, accounts, writes, outcome) == SettleRow(r, accounts, writes[k], outcome)
  {
    var n := |writes| - 1;
    if k < n {
      SettleOwn(r, accounts, writes[..n], outcome, k);
    } else {
      SettleUntouched(r, accounts, writes[..n], outcome);
    }
  }

  lemma {:induction false} SettleUntouched(r: Row, accounts: Accounts, writes: seq<WriteIntent>, outcome: Outcome)
    requires forall j | 0 <= j < |writes| :: writes[j].id != r.id && writes[j].path != r.path
    ensures SettleRowAll(r, accounts, writes, outcome) == r
  {
    if writes != [] { SettleUntouched(r, accounts, writes[..|writes| - 1], outcome); }
  }

  // ---------------------------------------------------------------------------------------------
  // The writes of one put do not meet
  // ---------------------------------------------------------------------------------------------

  lemma {:induction false} WritesDoNotMeet(base: seq<Row>, put: Put, v: HomeWrite, w: HomeWrite)
    requires PutOk(base, put) && v in put.writes && w in put.writes && (v.id == w.id || v.path == w.path)
    ensures v == w
  {
    assert WriteOk(base, put, v) && WriteOk(base, put, w);
  }

  /** A path the put writes is none it removes, and a row the put removes is at none it writes. */
  lemma {:induction false} WriteIsNotDropped(base: seq<Row>, put: Put, w: HomeWrite)
    requires PutOk(base, put) && WellKept(base) && w in put.writes
    ensures !DropsPath(put, w.path)
  {
    assert WriteOk(base, put, w);
  }

  lemma {:induction false} RetiredIsDropped(base: seq<Row>, put: Put, b: Row)
    requires WellKept(base) && b in base && RetiredBy(put, b)
    ensures DropsPath(put, b.path)
  {
  }

  /** The settlement of a write's own row. */
  lemma {:induction false} SettleWriteRow(base: seq<Row>, put: Put, intent: Intent, accounts: Accounts, outcome: Outcome,
                                          w: HomeWrite, c: Row)
    requires PutOk(base, put) && IntentsOf(put.writes, intent.writes) && RetiredFrom(base, put, intent.retired)
    requires w in put.writes && c.id == w.id && c.path == w.path && WellKept(base)
    ensures SettledRow(c, accounts, intent, outcome) == SettleRow(c, accounts, IntentOf(w), outcome)
  {
    var k :| 0 <= k < |put.writes| && put.writes[k] == w;
    forall j | 0 <= j < |put.writes| && j != k ensures intent.writes[j].id != c.id && intent.writes[j].path != c.path {
      if put.writes[j].id == w.id || put.writes[j].path == w.path {
        WritesDoNotMeet(base, put, put.writes[j], w);
      }
    }
    SettleOwn(c, accounts, intent.writes, outcome, k);
    WriteIsNotRetired(base, put, intent, w);
    SettlingKeepsPlace(c, accounts, intent.writes, outcome);
  }

  lemma {:induction false} WriteIsNotRetired(base: seq<Row>, put: Put, intent: Intent, w: HomeWrite)
    requires PutOk(base, put) && RetiredFrom(base, put, intent.retired) && w in put.writes && WellKept(base)
    ensures w.id !in intent.retired
  {
    assert WriteOk(base, put, w);
  }

  // ---------------------------------------------------------------------------------------------
  // The ready rows after a settlement
  // ---------------------------------------------------------------------------------------------

  /** A settled ready row holds the login a landed write put there. */
  predicate Wrote(put: Put, outcome: Outcome, w: HomeWrite, s: Row) {
    && w in put.writes && Landed(outcome, IntentOf(w))
    && s.id == w.id && s.path == w.path && ContentOf(s) == Wanted(w.selection)
  }

  /** A settled ready row is a ready base row at a path the put left as it was. */
  ghost predicate Untouched(base: seq<Row>, put: Put, outcome: Outcome, s: Row) {
    && s in base && s.state == Ready && (outcome.Done? ==> !DropsPath(put, s.path))
    && forall w | w in put.writes && w.path == s.path :: !Displaces(outcome, IntentOf(w))
  }

  lemma {:induction false} ReadyOwnRow(base: seq<Row>, put: Put, archived: set<AccountId>, rows: seq<Row>, intent: Intent,
                                       accounts: Accounts, outcome: Outcome, w: HomeWrite, c: Row)
    requires RowsFrom(base, put, archived, rows) && WellKept(base) && PutStands(base, put, intent) && OutcomeOk(put, outcome)
    requires c in rows && w in put.writes && c.id == w.id
    requires SettledRow(c, accounts, intent, outcome).state == Ready && c.id !in Forgotten(intent, outcome)
    ensures var s := SettledRow(c, accounts, intent, outcome);
            Wrote(put, outcome, w, s) || Untouched(base, put, outcome, s)
  {
    assert WriteOk(base, put, w);
    var r := WriteHasRow(base, put, archived, rows, w);
    RowsKept(base, put, archived, rows, r, c);
    SettleWriteRow(base, put, intent, accounts, outcome, w, c);
    var s := SettledRow(c, accounts, intent, outcome);
    if !Landed(outcome, IntentOf(w)) {
      IntentIsListed(put, intent, w);
      assert w.reuse.Some?;
      var b := ReusedRow(base, put, w);
      var o := RowOrigin(base, put, archived, rows, c);
      OriginsAreDistinct(base, put, o, Old(b));
      assert s == b && !outcome.Done?;
      forall v | v in put.writes && v.path == s.path ensures !Displaces(outcome, IntentOf(v)) {
        WritesDoNotMeet(base, put, v, w);
      }
    }
  }

  lemma {:induction false} IntentIsListed(put: Put, intent: Intent, w: HomeWrite)
    requires IntentsOf(put.writes, intent.writes) && w in put.writes
    ensures IntentOf(w) in intent.writes
  {
    var k :| 0 <= k < |put.writes| && put.writes[k] == w;
    assert intent.writes[k] == IntentOf(w);
  }

  lemma {:induction false} IntentIsWrite(put: Put, intent: Intent, v: WriteIntent) returns (w: HomeWrite)
    requires IntentsOf(put.writes, intent.writes) && v in intent.writes
    ensures w in put.writes && v == IntentOf(w)
  {
    var k :| 0 <= k < |intent.writes| && intent.writes[k] == v;
    w := put.writes[k];
  }

  lemma {:induction false} ReadyOtherRow(base: seq<Row>, put: Put, archived: set<AccountId>, rows: seq<Row>, intent: Intent,
                                         accounts: Accounts, outcome: Outcome, b: Row)
    requires WellKept(base) && PutStands(base, put, intent) && OutcomeOk(put, outcome)
    requires b in base && (forall w | w in put.writes :: w.id != b.id)
    requires var c := ArchiveRow(archived, BegunRow(put, b));
             SettledRow(c, accounts, intent, outcome).state == Ready && c.id !in Forgotten(intent, outcome)
    ensures Untouched(base, put, outcome, SettledRow(ArchiveRow(archived, BegunRow(put, b)), accounts, intent, outcome))
  {
    var c := ArchiveRow(archived, BegunRow(put, b));
    NotReused(base, put, b);
    forall v | v in intent.writes ensures v.id != c.id {
      var w := IntentIsWrite(put, intent, v);
    }
    SettleOther(c, accounts, intent.writes, outcome);
    if RetiredBy(put, b) {
      assert c.state == Removing && b.id in intent.retired;
      RetiredIsDropped(base, put, b);
      forall w | w in put.writes { WriteIsNotDropped(base, put, w); }
    } else {
      RetiredOnlyIf(base, put, intent, b);
      assert c == b;
      forall w | w in put.writes && w.path == b.path ensures !Displaces(outcome, IntentOf(w)) {
        IntentIsListed(put, intent, w);
      }
    }
  }

  lemma {:induction false} NotReused(base: seq<Row>, put: Put, b: Row)
    requires PutOk(base, put) && (forall w | w in put.writes :: w.id != b.id)
    ensures !Reused(put.writes, b.id)
  {
    forall w | w in put.writes ensures !Reuses(w, b.id) { assert WriteOk(base, put, w); }
  }

  lemma {:induction false} RetiredOnlyIf(base: seq<Row>, put: Put, intent: Intent, b: Row)
    requires WellKept(base) && RetiredFrom(base, put, intent.retired) && b in base
    ensures b.id in intent.retired ==> RetiredBy(put, b)
  {
  }

  /** A row of the settlement, as the settled form of one of the rows it was made on. */
  lemma {:induction false} SettledFrom(rows: seq<Row>, accounts: Accounts, intent: Intent, outcome: Outcome, s: Row) returns (c: Row)
    requires !outcome.Unconfirmed? && s in SettleHomeWrite(rows, accounts, intent, outcome)
    ensures c in rows && s == SettledRow(c, accounts, intent, outcome) && c.id == s.id && c.id !in Forgotten(intent, outcome)
    ensures s.path == c.path && s.provider == c.provider && s.login == c.login
  {
    var f := (r: Row) => SettledRow(r, accounts, intent, outcome);
    c :| c in rows && s == f(c);
    SettlingKeepsPlace(c, accounts, intent.writes, outcome);
  }

  lemma {:induction false} StaysSettled(rows: seq<Row>, accounts: Accounts, intent: Intent, outcome: Outcome, c: Row)
    requires !outcome.Unconfirmed? && c in rows && c.id !in Forgotten(intent, outcome)
    ensures RowAt(SettleHomeWrite(rows, accounts, intent, outcome), c.path)
  {
    var f := (r: Row) => SettledRow(r, accounts, intent, outcome);
    SettlingKeepsPlace(c, accounts, intent.writes, outcome);
    assert f(c) in MapRows(rows, f);
    assert f(c) in SettleHomeWrite(rows, accounts, intent, outcome);
  }

  lemma {:induction false} ReadySettled(h: Home, accounts: Accounts, outcome: Outcome, s: Row)
    requires RunningOk(h) && OutcomeOk(h.phase.put, outcome) && s.state == Ready
    requires s in SettleHomeWrite(h.rows, accounts, h.phase.intent, outcome)
    ensures (exists w :: Wrote(h.phase.put, outcome, w, s)) || Untouched(h.phase.base, h.phase.put, outcome, s)
  {
    var base, put, archived, intent := h.phase.base, h.phase.put, h.phase.archived, h.phase.intent;
    var c := SettledFrom(h.rows, accounts, intent, outcome, s);
    if w :| w in put.writes && w.id == c.id {
      ReadyOwnRow(base, put, archived, h.rows, intent, accounts, outcome, w, c);
    } else {
      var o := RowOrigin(base, put, archived, h.rows, c);
      assert o.Old?;
      ReadyOtherRow(base, put, archived, h.rows, intent, accounts, outcome, o.row);
    }
  }

  // ---------------------------------------------------------------------------------------------
  // Rows and files after a settlement
  // ---------------------------------------------------------------------------------------------

  lemma {:induction false} SettledKept(h: Home, accounts: Accounts, outcome: Outcome)
    requires RunningOk(h) && !outcome.Unconfirmed?
    ensures WellKept(SettleHomeWrite(h.rows, accounts, h.phase.intent, outcome))
  {
    var next := SettleHomeWrite(h.rows, accounts, h.phase.intent, outcome);
    RunningKept(h);
    forall s, t | s in next && t in next
      ensures s.id == t.id ==> s == t
      ensures s.path == PlacementPath(s.provider, s.login, s.id)
    {
      var c := SettledFrom(h.rows, accounts, h.phase.intent, outcome, s);
      var d := SettledFrom(h.rows, accounts, h.phase.intent, outcome, t);
    }
  }

  lemma {:induction false} SettledOneReady(h: Home, accounts: Accounts, outcome: Outcome, s: Row, t: Row)
    requires RunningOk(h) && OutcomeOk(h.phase.put, outcome) && s.state == Ready && t.state == Ready && s.path == t.path
    requires s in SettleHomeWrite(h.rows, accounts, h.phase.intent, outcome)
    requires t in SettleHomeWrite(h.rows, accounts, h.phase.intent, outcome)
    ensures s == t
  {
    var base, put := h.phase.base, h.phase.put;
    ReadySettled(h, accounts, outcome, s);
    ReadySettled(h, accounts, outcome, t);
    if v :| Wrote(put, outcome, v, s) {
      if w :| Wrote(put, outcome, w, t) {
        WritesDoNotMeet(base, put, v, w);
        SettledKept(h, accounts, outcome);
      }
    }
  }

  /** As the answer reports the files, the login at the path of a settled ready row is the row's. */
  lemma {:induction false} SettledMatches(h: Home, accounts: Accounts, outcome: Outcome, s: Row, f: Option<File>)
    requires RunningOk(h) && OutcomeOk(h.phase.put, outcome) && s.state == Ready
    requires s in SettleHomeWrite(h.rows, accounts, h.phase.intent, outcome)
    requires ReportedAs(h.files, h.phase.put, outcome, s.path, f)
    ensures Shows(f, ContentOf(s))
  {
    var base, put := h.phase.base, h.phase.put;
    ReadySettled(h, accounts, outcome, s);
    if w :| Wrote(put, outcome, w, s) {
      WriteIsNotDropped(base, put, w);
      var at := LandedAt(put.writes, outcome.written, s.path);
      WritesDoNotMeet(base, put, w, at.value);
    } else {
      UntouchedMatches(base, put, outcome, h.files, h.doubt, s, f);
    }
  }

  lemma {:induction false} UntouchedMatches(base: seq<Row>, put: Put, outcome: Outcome, files: Files, doubt: set<Effect>, s: Row,
                                           f: Option<File>)
    requires Sound(base, files, doubt) && NonePending(base) && KeptStand(base, put) && !outcome.Unconfirmed?
    requires Untouched(base, put, outcome, s) && ReportedAs(files, put, outcome, s.path, f)
    ensures Shows(f, ContentOf(s))
  {
    assert Stands(base, s);
    if RestoredAs(put, s.path, f) { RestoredIsTheRow(base, put, s, f); }
    var at := LandedAt(put.writes, outcome.written, s.path);
    assert forall w | w in put.writes && w.path == s.path :: !Landed(outcome, IntentOf(w));
  }

  /** A kept key written again at the path of a row is that row's. */
  lemma {:induction false} RestoredIsTheRow(base: seq<Row>, put: Put, s: Row, f: Option<File>)
    requires WellKept(base) && KeptStand(base, put) && s in base && RestoredAs(put, s.path, f)
    ensures f == Some(There(ContentOf(s)))
  {
    var k :| k in put.keptKeys && s.path == KeyFile(k.id) && f == Some(There(Wanted(k.selection)));
    var b :| b in base && b.id == k.id && b.state == Ready && IsKeyRow(b) && ContentOf(b) == Wanted(k.selection);
    assert b.path == s.path && s.path == PlacementPath(s.provider, s.login, s.id);
    assert b.id == s.id;
  }

  lemma {:induction false} WriteStaysSettled(h: Home, accounts: Accounts, outcome: Outcome, w: HomeWrite)
    requires RunningOk(h) && !outcome.Unconfirmed? && w in h.phase.put.writes && Landed(outcome, IntentOf(w))
    ensures RowAt(SettleHomeWrite(h.rows, accounts, h.phase.intent, outcome), w.path)
  {
    var base, put, intent := h.phase.base, h.phase.put, h.phase.intent;
    assert WriteOk(base, put, w);
    var c := WriteHasRow(base, put, h.phase.archived, h.rows, w);
    WriteIsNotRetired(base, put, intent, w);
    if c.id in Unlanded(intent.writes, outcome) {
      var v :| v in intent.writes && !Landed(outcome, v) && v.inserted && v.id == c.id;
      var u := IntentIsWrite(put, intent, v);
      WritesDoNotMeet(base, put, u, w);
    }
    StaysSettled(h.rows, accounts, intent, outcome, c);
  }

  lemma {:induction false} BaseIsNotForgotten(base: seq<Row>, put: Put, intent: Intent, outcome: Outcome, b: Row)
    requires WellKept(base) && PutStands(base, put, intent) && b in base && (outcome.Done? ==> !DropsPath(put, b.path))
    ensures b.id !in Forgotten(intent, outcome)
  {
    forall v | v in intent.writes && v.inserted ensures v.id != b.id {
      var u := IntentIsWrite(put, intent, v);
      assert WriteOk(base, put, u);
    }
    RetiredOnlyIf(base, put, intent, b);
  }

  lemma {:induction false} BaseStaysSettled(h: Home, accounts: Accounts, outcome: Outcome, b: Row)
    requires RunningOk(h) && !outcome.Unconfirmed? && b in h.phase.base && (outcome.Done? ==> !DropsPath(h.phase.put, b.path))
    ensures RowAt(SettleHomeWrite(h.rows, accounts, h.phase.intent, outcome), b.path)
  {
    BaseIsNotForgotten(h.phase.base, h.phase.put, h.phase.intent, outcome, b);
    var c := BaseRowNow(h.phase.base, h.phase.put, h.phase.archived, h.rows, b);
    StaysSettled(h.rows, accounts, h.phase.intent, outcome, c);
  }

  lemma {:induction false} BaseRowNow(base: seq<Row>, put: Put, archived: set<AccountId>, rows: seq<Row>, b: Row)
    returns (c: Row)
    requires RowsFrom(base, put, archived, rows) && b in base
    ensures c in rows && c.id == b.id && c.path == b.path
  {
    c := ArchiveRow(archived, BegunRow(put, b));
  }

  /** Every Core login there is, as the answer reports the files, has a row. */
  lemma {:induction false} SettledRowed(h: Home, accounts: Accounts, outcome: Outcome, p: Path, f: Option<File>)
    requires RunningOk(h) && !outcome.Unconfirmed? && ReportedAs(h.files, h.phase.put, outcome, p, f) && IsThere(f)
    ensures RowAt(SettleHomeWrite(h.rows, accounts, h.phase.intent, outcome), p)
  {
    var base, put := h.phase.base, h.phase.put;
    var at := LandedAt(put.writes, outcome.written, p);
    if at.Some? {
      WriteStaysSettled(h, accounts, outcome, at.value);
    } else {
      BaseRowed(h, outcome, p, f);
      var b :| b in base && b.path == p;
      BaseStaysSettled(h, accounts, outcome, b);
    }
  }

  lemma {:induction false} BaseRowed(h: Home, outcome: Outcome, p: Path, f: Option<File>)
    requires RunningOk(h) && !outcome.Unconfirmed? && ReportedAs(h.files, h.phase.put, outcome, p, f) && IsThere(f)
    requires LandedAt(h.phase.put.writes, outcome.written, p).None?
    ensures RowAt(h.phase.base, p)
  {
    if RestoredAs(h.phase.put, p, f) {
      var k :| k in h.phase.put.keptKeys && p == KeyFile(k.id) && f == Some(There(Wanted(k.selection)));
      var b :| b in h.phase.base && b.id == k.id && IsKeyRow(b);
      assert b.path == p;
    } else {
      assert Held(h.files, p).Some?;
    }
  }

  /** After a refusal that wrote nothing, the earlier writes in doubt stay harmless. */
  lemma {:induction false} RefusedHarmless(h: Home, accounts: Accounts, outcome: Outcome, e: Effect)
    requires RunningOk(h) && outcome == Refused({}) && e in h.doubt
    ensures Harmless(SettleHomeWrite(h.rows, accounts, h.phase.intent, outcome), e)
  {
    var base, next := h.phase.base, SettleHomeWrite(h.rows, accounts, h.phase.intent, outcome);
    assert Harmless(base, e);
    if e.Store? {
      var b :| b in base && b.path == e.path;
      BaseStaysSettled(h, accounts, outcome, b);
    }
    forall s | s in next && Stands(next, s) && s.path == e.path ensures e.Store? && ContentOf(s) == e.content {
      ReadyWhenRefused(h, accounts, outcome, s);
    }
  }

  lemma {:induction false} ReadyWhenRefused(h: Home, accounts: Accounts, outcome: Outcome, s: Row)
    requires RunningOk(h) && outcome == Refused({}) && s.state == Ready
    requires s in SettleHomeWrite(h.rows, accounts, h.phase.intent, outcome)
    ensures s in h.phase.base && Stands(h.phase.base, s)
  {
    ReadySettled(h, accounts, outcome, s);
    assert forall w :: !Wrote(h.phase.put, outcome, w, s);
  }

  /** A put that was answered and settled leaves a sound home, if its files are as the answer reports
      them. */
  lemma {:induction false} SettleSound(h: Home, accounts: Accounts, outcome: Outcome, files: Files)
    requires RunningOk(h) && OutcomeOk(h.phase.put, outcome) && Reported(h.files, h.phase.put, outcome, files)
    ensures Sound(SettleHomeWrite(h.rows, accounts, h.phase.intent, outcome), files, {})
  {
    var next := SettleHomeWrite(h.rows, accounts, h.phase.intent, outcome);
    SettledWellKept(h, accounts, outcome);
    forall s | s in next && Stands(next, s) ensures Shows(FileAt(files, s.path), ContentOf(s)) {
      SettledMatches(h, accounts, outcome, s, FileAt(files, s.path));
    }
    forall p | Held(files, p).Some? ensures RowAt(next, p) {
      SettledRowed(h, accounts, outcome, p, FileAt(files, p));
    }
  }

  lemma {:induction false} SettledWellKept(h: Home, accounts: Accounts, outcome: Outcome)
    requires RunningOk(h) && OutcomeOk(h.phase.put, outcome)
    ensures WellKept(SettleHomeWrite(h.rows, accounts, h.phase.intent, outcome))
    ensures OneReady(SettleHomeWrite(h.rows, accounts, h.phase.intent, outcome))
  {
    var next := SettleHomeWrite(h.rows, accounts, h.phase.intent, outcome);
    SettledKept(h, accounts, outcome);
    forall s, t | s in next && t in next && s.state == Ready && t.state == Ready && s.path == t.path ensures s == t {
      SettledOneReady(h, accounts, outcome, s, t);
    }
  }

  // ---------------------------------------------------------------------------------------------
  // When a settled put reports itself stale
  // ---------------------------------------------------------------------------------------------

  lemma {:induction false} FindsTheRow(rows: seq<Row>, r: Row)
    requires r in rows && (forall q | q in rows && q.id == r.id :: q == r)
    ensures Find(rows, r.id) == Some(r)
  {
  }

  /** The row of a landed write is settled by its own write: it is the same row right after that
      write's pass and in the end. */
  lemma {:induction false} LandedRowSettles(h: Home, accounts: Accounts, outcome: Outcome, k: nat)
    requires RunningOk(h) && k < |h.phase.put.writes| && Landed(outcome, h.phase.intent.writes[k])
    ensures var w := h.phase.intent.writes[k];
            Find(Passed(h.rows, accounts, h.phase.intent.writes[..k + 1], outcome), w.id)
            == Find(SettleHomeWrite(h.rows, accounts, h.phase.intent, outcome), w.id)
  {
    var base, put, intent := h.phase.base, h.phase.put, h.phase.intent;
    var w := put.writes[k];
    assert WriteOk(base, put, w);
    var c := WriteHasRow(base, put, h.phase.archived, h.rows, w);
    SettleWriteRow(base, put, intent, accounts, outcome, w, c);
    forall j | 0 <= j < k ensures intent.writes[j].id != c.id && intent.writes[j].path != c.path {
      if put.writes[j].id == w.id || put.writes[j].path == w.path { WritesDoNotMeet(base, put, put.writes[j], w); }
    }
    SettleOwn(c, accounts, intent.writes[..k + 1], outcome, k);
    RunningKept(h);
    PassedFinds(h.rows, accounts, intent.writes[..k + 1], outcome, c);
    LandedIsNotForgotten(h, outcome, w);
    SettledFinds(h.rows, accounts, intent, outcome, c);
  }

  lemma {:induction false} PassedFinds(rows: seq<Row>, accounts: Accounts, writes: seq<WriteIntent>, outcome: Outcome, c: Row)
    requires WellKept(rows) && c in rows
    ensures Find(Passed(rows, accounts, writes, outcome), c.id) == Some(SettleRowAll(c, accounts, writes, outcome))
  {
    var passed := Passed(rows, accounts, writes, outcome);
    forall r | r in rows { SettlingKeepsPlace(r, accounts, writes, outcome); }
    var i :| 0 <= i < |rows| && rows[i] == c;
    assert passed[i] in passed;
    FindsTheRow(passed, passed[i]);
  }

  lemma {:induction false} SettledFinds(rows: seq<Row>, accounts: Accounts, intent: Intent, outcome: Outcome, c: Row)
    requires WellKept(rows) && c in rows && !outcome.Unconfirmed? && c.id !in Forgotten(intent, outcome)
    ensures Find(SettleHomeWrite(rows, accounts, intent, outcome), c.id) == Some(SettledRow(c, accounts, intent, outcome))
  {
    var f := (r: Row) => SettledRow(r, accounts, intent, outcome);
    var next := SettleHomeWrite(rows, accounts, intent, outcome);
    SettlingKeepsPlace(c, accounts, intent.writes, outcome);
    assert f(c) in MapRows(rows, f);
    forall s | s in next && s.id == c.id ensures s == f(c) {
      var d := SettledFrom(rows, accounts, intent, outcome, s);
    }
    FindsTheRow(next, f(c));
  }

  lemma {:induction false} LandedIsNotForgotten(h: Home, outcome: Outcome, w: HomeWrite)
    requires RunningOk(h) && w in h.phase.put.writes && Landed(outcome, IntentOf(w))
    ensures w.id !in Forgotten(h.phase.intent, outcome)
  {
    var base, put, intent := h.phase.base, h.phase.put, h.phase.intent;
    WriteIsNotRetired(base, put, intent, w);
    forall v | v in intent.writes && v.id == w.id ensures Landed(outcome, v) {
      var u := IntentIsWrite(put, intent, v);
      WritesDoNotMeet(base, put, u, w);
    }
  }

  /** A write that landed, but whose row does not stand ready at its account's present revision. */
  predicate LandedStale(rows: seq<Row>, accounts: Accounts, w: WriteIntent, outcome: Outcome) {
    Landed(outcome, w) && Overtaken(rows, accounts, w)
  }

  lemma {:induction false} StaleFold(rows: seq<Row>, settled: seq<Row>, accounts: Accounts, writes: seq<WriteIntent>,
                                     outcome: Outcome, n: nat)
    requires n <= |writes|
    requires forall k | 0 <= k < |writes| && Landed(outcome, writes[k]) ::
               Find(Passed(rows, accounts, writes[..k + 1], outcome), writes[k].id) == Find(settled, writes[k].id)
    ensures StaleAfter(rows, accounts, writes[..n], outcome) <==> SomeStale(settled, accounts, writes[..n], outcome)
  {
    if n > 0 {
      StaleFold(rows, settled, accounts, writes, outcome, n - 1);
      OneMoreWrite(rows, accounts, writes, n - 1, outcome);
      assert writes[..n] == writes[..n - 1] + [writes[n - 1]];
      OneMoreStale(settled, accounts, writes[..n - 1], writes[n - 1], outcome);
    }
  }

  predicate SomeStale(settled: seq<Row>, accounts: Accounts, writes: seq<WriteIntent>, outcome: Outcome) {
    exists w :: w in writes && LandedStale(settled, accounts, w, outcome)
  }

  lemma {:induction false} OneMoreStale(settled: seq<Row>, accounts: Accounts, writes: seq<WriteIntent>, w: WriteIntent,
                                        outcome: Outcome)
    ensures SomeStale(settled, accounts, writes + [w], outcome)
            <==> SomeStale(settled, accounts, writes, outcome) || LandedStale(settled, accounts, w, outcome)
  {
    assert forall v :: v in writes + [w] <==> v in writes || v == w;
  }

  /** A settled put is stale exactly when a login it wrote does not stand ready at its account's
      present revision in the rows it leaves. */
  lemma {:induction false} StaleExactly(h: Home, accounts: Accounts, outcome: Outcome)
    requires RunningOk(h) && !outcome.Unconfirmed?
    ensures var settled := SettleHomeWrite(h.rows, accounts, h.phase.intent, outcome);
            StaleAfter(h.rows, accounts, h.phase.intent.writes, outcome)
            <==> SomeStale(settled, accounts, h.phase.intent.writes, outcome)
  {
    var writes := h.phase.intent.writes;
    var settled := SettleHomeWrite(h.rows, accounts, h.phase.intent, outcome);
    forall k | 0 <= k < |writes| && Landed(outcome, writes[k])
      ensures Find(Passed(h.rows, accounts, writes[..k + 1], outcome), writes[k].id) == Find(settled, writes[k].id)
    {
      LandedRowSettles(h, accounts, outcome, k);
    }
    StaleFold(h.rows, settled, accounts, writes, outcome, |writes|);
    assert writes[..|writes|] == writes;
  }
}
