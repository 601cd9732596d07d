/** What becomes of a put, by its outcome: a refused one is undone, a written login stands, what the put
    removed is gone; and what pruning leaves once its removal is carried out. */
module HomeOutcomes {
  import opened Wrappers
  import opened Placements
  import opened HomeScript
  import opened HomeProtocol
  import opened HomeBegin
  import opened HomeSafety
  import opened HomeSettle
  import opened HomeRuns

  // ---------------------------------------------------------------------------------------------
  // A refused put is undone
  // ---------------------------------------------------------------------------------------------

  const NOTHING_WRITTEN := Refused({})

  ghost predicate NoneArchived(base: seq<Row>, accounts: Accounts) {
    forall b | b in base :: Unarchived(accounts, b.accountId)
  }

  lemma {:induction false} ReusedComesBack(base: seq<Row>, put: Put, intent: Intent, accounts: Accounts, b: Row)
    requires WellKept(base) && PutStands(base, put, intent) && NoneArchived(base, accounts)
    requires b in base && Reused(put.writes, b.id)
    ensures SettledRow(BegunRow(put, b), accounts, intent, NOTHING_WRITTEN) == b
  {
    var w :| w in put.writes && Reuses(w, b.id);
    assert WriteOk(base, put, w);
    var c := ReusedRow(base, put, w);
    assert c == b;
    SettleWriteRow(base, put, intent, accounts, NOTHING_WRITTEN, w, BegunRow(put, b));
  }

  lemma {:induction false} OtherComesBack(base: seq<Row>, put: Put, intent: Intent, accounts: Accounts, b: Row)
    requires WellKept(base) && PutStands(base, put, intent) && NoneArchived(base, accounts)
    requires b in base && !Reused(put.writes, b.id)
    ensures SettledRow(BegunRow(put, b), accounts, intent, NOTHING_WRITTEN) == b
  {
    var c := BegunRow(put, b);
    forall v | v in intent.writes ensures v.id != c.id {
      var w := IntentIsWrite(put, intent, v);
      assert WriteOk(base, put, w) && !Reuses(w, b.id);
    }
    SettleOther(c, accounts, intent.writes, NOTHING_WRITTEN);
    RetiredOnlyIf(base, put, intent, b);
  }

  lemma {:induction false} BaseComesBack(base: seq<Row>, put: Put, intent: Intent, accounts: Accounts, b: Row)
    requires WellKept(base) && PutStands(base, put, intent) && NoneArchived(base, accounts) && b in base
    ensures SettledRow(BegunRow(put, b), accounts, intent, NOTHING_WRITTEN) == b && b.id !in Forgotten(intent, NOTHING_WRITTEN)
  {
    BaseIsNotForgotten(base, put, intent, NOTHING_WRITTEN, b);
    if Reused(put.writes, b.id) {
      ReusedComesBack(base, put, intent, accounts, b);
    } else {
      OtherComesBack(base, put, intent, accounts, b);
    }
  }

  /** A put refused before it wrote anything leaves exactly the rows it began on, unless an account was
      archived meanwhile. */
  lemma {:induction false} RefusedUndoes(base: seq<Row>, put: Put, begun: seq<Row>, intent: Intent, accounts: Accounts, r: Row)
    requires WellKept(base) && PutStands(base, put, intent) && BegunFrom(base, put, begun) && NoneArchived(base, accounts)
    ensures r in SettleHomeWrite(begun, accounts, intent, NOTHING_WRITTEN) <==> r in base
  {
    var f := (q: Row) => SettledRow(q, accounts, intent, NOTHING_WRITTEN);
    if r in base {
      BaseComesBack(base, put, intent, accounts, r);
      assert BegunRow(put, r) in begun && f(BegunRow(put, r)) in MapRows(begun, f);
    }
    if r in SettleHomeWrite(begun, accounts, intent, NOTHING_WRITTEN) {
      var c := SettledFrom(begun, accounts, intent, NOTHING_WRITTEN, r);
      if b :| b in base && c == BegunRow(put, b) {
        BaseComesBack(base, put, intent, accounts, b);
      } else {
        var w :| w in put.writes && w.reuse.None? && c == NewRow(w);
        IntentIsListed(put, intent, w);
        assert false;
      }
    }
  }

  // ---------------------------------------------------------------------------------------------
  // A put that was done
  // ---------------------------------------------------------------------------------------------

  /** A login that landed stands ready, at its path and revision, unless its account was archived. */
  lemma {:induction false} LandedIsReady(h: Home, accounts: Accounts, outcome: Outcome, w: HomeWrite) returns (s: Row)
    requires RunningOk(h) && w in h.phase.put.writes && Landed(outcome, IntentOf(w))
    requires Unarchived(accounts, w.selection.accountId) && w.selection.accountId !in h.phase.archived
    ensures s in SettleHomeWrite(h.rows, accounts, h.phase.intent, outcome)
    ensures s.id == w.id && s.path == w.path && s.state == Ready && ContentOf(s) == Wanted(w.selection)
  {
    var base, put, intent := h.phase.base, h.phase.put, h.phase.intent;
    assert WriteOk(base, put, w);
    var c := WriteHasRow(base, put, h.phase.archived, h.rows, w);
    SettleWriteRow(base, put, intent, accounts, outcome, w, c);
    LandedIsNotForgotten(h, outcome, w);
    var f := (q: Row) => SettledRow(q, accounts, intent, outcome);
    assert f(c) in MapRows(h.rows, f);
    s := f(c);
  }

  /** Once a put is done, no row it removed is left. */
  lemma {:induction false} RetiredAreGone(h: Home, accounts: Accounts, outcome: Outcome, b: Row)
    requires RunningOk(h) && outcome.Done? && b in h.phase.base && RetiredBy(h.phase.put, b)
    ensures forall s | s in SettleHomeWrite(h.rows, accounts, h.phase.intent, outcome) :: s.id != b.id
  {
    assert b.id in h.phase.intent.retired;
    assert b.id in Forgotten(h.phase.intent, outcome);
  }

  // ---------------------------------------------------------------------------------------------
  // Every row a settlement leaves
  // ---------------------------------------------------------------------------------------------

  /** The row of a write, if the settlement leaves one: that of a login that landed, at the revision written;
      or the reused row of one that did not, as it was. It is ready exactly when its account is not
      archived and the person's own login was not left in its place, and on its way out otherwise. */
  lemma {:induction false} WrittenRow(h: Home, accounts: Accounts, outcome: Outcome, w: HomeWrite, s: Row)
    requires RunningOk(h) && !outcome.Unconfirmed? && w in h.phase.put.writes
    requires s in SettleHomeWrite(h.rows, accounts, h.phase.intent, outcome) && s.id == w.id
    ensures s.path == w.path && s.accountId == w.selection.accountId
    ensures w.selection.provider in outcome.written ==> s.revision == w.selection.revision
    ensures w.selection.provider !in outcome.written ==>
              w.reuse == Some(s.id) && exists b :: b in h.phase.base && b.id == w.id && s == b.(state := s.state)
    ensures s.state == if && s.accountId in accounts && accounts[s.accountId].status != Archived
                          && s.accountId !in h.phase.archived
                          && (w.selection.provider in outcome.written
                              || (outcome.Done? ==> w.selection.provider !in outcome.kept))
                       then Ready else Removing
  {
    hide SettleHomeWrite, SettleRow, PutStands, RowsFrom, Guarded, IntentOf;
    var c := RowOfWrite(h.phase.base, h.phase.put, h.phase.archived, h.rows, h.phase.intent, accounts, outcome, w, s);
    SettlesOwn(h.phase.archived, accounts, outcome, w, c);
  }

  /** What settling a write does to its own row. */
  lemma {:induction false} SettlesOwn(archived: set<AccountId>, accounts: Accounts, outcome: Outcome, w: HomeWrite, c: Row)
    requires !outcome.Unconfirmed? && c.id == w.id && c.state == if c.accountId in archived then Removing else Pending
    requires w.selection.provider !in outcome.written ==> w.reuse.Some?
    ensures var s := SettleRow(c, accounts, IntentOf(w), outcome);
            && s == c.(revision := s.revision, state := s.state)
            && s.revision == (if w.selection.provider in outcome.written then w.selection.revision else c.revision)
            && s.state == if && c.accountId in accounts && accounts[c.accountId].status != Archived && c.accountId !in archived
                             && (w.selection.provider in outcome.written
                                 || (outcome.Done? ==> w.selection.provider !in outcome.kept))
                          then Ready else Removing
  {
  }

  /** The row of a write that a settlement left, before it. */
  lemma {:induction false} RowOfWrite(base: seq<Row>, put: Put, archived: set<AccountId>, rows: seq<Row>, intent: Intent,
                                      accounts: Accounts, outcome: Outcome, w: HomeWrite, s: Row) returns (c: Row)
    requires RowsFrom(base, put, archived, rows) && WellKept(base) && PutStands(base, put, intent)
    requires !outcome.Unconfirmed? && w in put.writes && s in SettleHomeWrite(rows, accounts, intent, outcome) && s.id == w.id
    ensures c.id == w.id && c.path == w.path && c.accountId == w.selection.accountId
    ensures c.state == (if c.accountId in archived then Removing else Pending) && s == SettleRow(c, accounts, IntentOf(w), outcome)
    ensures w.selection.provider !in outcome.written ==>
              w.reuse == Some(w.id) && exists b :: b in base && b.id == w.id && c == b.(state := c.state)
  {
    hide SettleHomeWrite, SettleRow, PutOk;
    c := SettledFrom(rows, accounts, intent, outcome, s);
    OwnRow(base, put, archived, rows, w, c);
    SettleWriteRow(base, put, intent, accounts, outcome, w, c);
    IntentIsListed(put, intent, w);
  }

  lemma {:induction false} OwnRow(base: seq<Row>, put: Put, archived: set<AccountId>, rows: seq<Row>, w: HomeWrite, c: Row)
    requires RowsFrom(base, put, archived, rows) && WellKept(base) && PutOk(base, put)
    requires w in put.writes && c in rows && c.id == w.id
    ensures c.path == w.path && c.accountId == w.selection.accountId
    ensures c.state == if c.accountId in archived then Removing else Pending
    ensures w.reuse.Some? ==> w.reuse == Some(w.id) && exists b :: b in base && b.id == w.id && c == b.(state := c.state)
  {
    assert WriteOk(base, put, w);
    var r := WriteHasRow(base, put, archived, rows, w);
    RowsKept(base, put, archived, rows, r, c);
    if w.reuse.Some? {
      var b := ReusedRow(base, put, w);
      var o := RowOrigin(base, put, archived, rows, c);
      OriginsAreDistinct(base, put, o, Old(b));
    }
  }

  /** And it leaves one for each login that landed, and each row reused. */
  lemma {:induction false} WrittenRowIsLeft(h: Home, accounts: Accounts, outcome: Outcome, w: HomeWrite)
    requires RunningOk(h) && !outcome.Unconfirmed? && w in h.phase.put.writes
    requires w.selection.provider in outcome.written || w.reuse.Some?
    ensures exists s :: s in SettleHomeWrite(h.rows, accounts, h.phase.intent, outcome) && s.id == w.id
  {
    var base, put, intent := h.phase.base, h.phase.put, h.phase.intent;
    assert WriteOk(base, put, w);
    var c := WriteHasRow(base, put, h.phase.archived, h.rows, w);
    WriteIsNotRetired(base, put, intent, w);
    forall v | v in intent.writes && v.id == w.id ensures v == IntentOf(w) {
      var u := IntentIsWrite(put, intent, v);
      WritesDoNotMeet(base, put, u, w);
    }
    SettledRowOf(h.rows, accounts, intent, outcome, c);
  }

  lemma {:induction false} SettledRowOf(rows: seq<Row>, accounts: Accounts, intent: Intent, outcome: Outcome, c: Row)
    requires !outcome.Unconfirmed? && c in rows && c.id !in Forgotten(intent, outcome)
    ensures SettledRow(c, accounts, intent, outcome) in SettleHomeWrite(rows, accounts, intent, outcome)
    ensures SettledRow(c, accounts, intent, outcome).id == c.id
  {
    var f := (q: Row) => SettledRow(q, accounts, intent, outcome);
    SettlingKeepsPlace(c, accounts, intent.writes, outcome);
    assert f(c) in MapRows(rows, f);
  }

  predicate Retired(put: Put, b: Row) {
    b.state == Ready && if b.provider == Claude && b.login.ApiKey? then b.id in put.removedKeys else b.provider in put.removes
  }

  /** The state of a row that is not of a write, once the put is answered. */
  ghost function OtherState(put: Put, archived: set<AccountId>, accounts: Accounts, outcome: Outcome, b: Row): RowState
    requires !outcome.Unconfirmed?
  {
    if b.state != Ready then b.state
    else if Retired(put, b) then
      if b.accountId in accounts && accounts[b.accountId].status != Archived then Ready else Removing
    else if b.accountId in archived then Removing
    else if exists w :: w in put.writes && w.path == b.path
                        && (w.selection.provider in outcome.written || (outcome.Done? && w.selection.provider in outcome.kept))
    then Removing
    else Ready
  }

  /** Any other row: gone if the put was to remove it and was done; back, if it was refused and its account
      is not archived; and on its way out if its account was archived meanwhile, or a login landed at its
      path or was found there; otherwise as it was. */
  lemma {:induction false} OtherRow(h: Home, accounts: Accounts, outcome: Outcome, b: Row)
    requires RunningOk(h) && !outcome.Unconfirmed? && b in h.phase.base && forall w | w in h.phase.put.writes :: w.id != b.id
    ensures var next := SettleHomeWrite(h.rows, accounts, h.phase.intent, outcome);
            if outcome.Done? && Retired(h.phase.put, b) then forall s | s in next :: s.id != b.id
            else
              var left := b.(state := OtherState(h.phase.put, h.phase.archived, accounts, outcome, b));
              left in next && forall s | s in next && s.id == b.id :: s == left
  {
    var base, put, archived, intent := h.phase.base, h.phase.put, h.phase.archived, h.phase.intent;
    var c := ArchiveRow(archived, BegunRow(put, b));
    NotReused(base, put, b);
    forall v | v in intent.writes ensures v.id != b.id { var w := IntentIsWrite(put, intent, v); }
    if outcome.Done? && RetiredBy(put, b) {
      RetiredAreGone(h, accounts, outcome, b);
    } else {
      OtherRowNow(base, put, archived, intent, accounts, outcome, b);
      RetiredOnlyIf(base, put, intent, b);
      SettledRowOf(h.rows, accounts, intent, outcome, c);
      SettledKept(h, accounts, outcome);
    }
  }

  lemma {:induction false} OtherRowNow(base: seq<Row>, put: Put, archived: set<AccountId>, intent: Intent, accounts: Accounts,
                                       outcome: Outcome, b: Row)
    requires WellKept(base) && PutStands(base, put, intent) && !outcome.Unconfirmed? && b in base
    requires (forall v | v in intent.writes :: v.id != b.id) && !Reused(put.writes, b.id)
    requires !(outcome.Done? && RetiredBy(put, b))
    ensures SettledRow(ArchiveRow(archived, BegunRow(put, b)), accounts, intent, outcome)
            == b.(state := OtherState(put, archived, accounts, outcome, b))
  {
    hide PutOk, KeptStand, IntentsOf, Displaced, OtherState;
    var c := ArchiveRow(archived, BegunRow(put, b));
    SettleOther(c, accounts, intent.writes, outcome);
    assert b.id in intent.retired <==> RetiredBy(put, b);
    DisplacedExactly(put, intent, outcome, b.path);
    OtherStates(put, archived, accounts, outcome, b);
  }

  lemma {:induction false} OtherStates(put: Put, archived: set<AccountId>, accounts: Accounts, outcome: Outcome, b: Row)
    requires !outcome.Unconfirmed?
    ensures OtherState(put, archived, accounts, outcome, b)
            == if b.state != Ready then b.state
               else if RetiredBy(put, b) then if Unarchived(accounts, b.accountId) then Ready else Removing
               else if b.accountId in archived || LandsAt(put, outcome, b.path) then Removing else Ready
  {
  }

  /** A login landed at a path, or the person's own was found there. */
  predicate LandsAt(put: Put, outcome: Outcome, path: Path)
    requires !outcome.Unconfirmed?
  {
    exists w :: w in put.writes && w.path == path
                && (w.selection.provider in outcome.written || (outcome.Done? && w.selection.provider in outcome.kept))
  }

  lemma {:induction false} DisplacedExactly(put: Put, intent: Intent, outcome: Outcome, path: Path)
    requires IntentsOf(put.writes, intent.writes) && !outcome.Unconfirmed?
    ensures Displaced(intent.writes, outcome, path) <==> LandsAt(put, outcome, path)
  {
    if w :| w in put.writes && w.path == path
            && (w.selection.provider in outcome.written || (outcome.Done? && w.selection.provider in outcome.kept)) {
      IntentIsListed(put, intent, w);
      assert Displaces(outcome, IntentOf(w));
    }
    if v :| v in intent.writes && Displaces(outcome, v) && v.path == path {
      var w := IntentIsWrite(put, intent, v);
    }
  }

  /** And there are no others. */
  lemma {:induction false} NothingElse(h: Home, accounts: Accounts, outcome: Outcome, s: Row)
    requires RunningOk(h) && !outcome.Unconfirmed? && s in SettleHomeWrite(h.rows, accounts, h.phase.intent, outcome)
    ensures (exists w :: w in h.phase.put.writes && w.id == s.id) || (exists b :: b in h.phase.base && b.id == s.id)
  {
    var c := SettledFrom(h.rows, accounts, h.phase.intent, outcome, s);
    var o := RowOrigin(h.phase.base, h.phase.put, h.phase.archived, h.rows, c);
  }

  /** A settled put is stale exactly when some login that landed does not stand ready at the revision its
      account now has. */
  lemma {:induction false} StaleMeans(h: Home, accounts: Accounts, outcome: Outcome)
    requires RunningOk(h) && !outcome.Unconfirmed?
    ensures StaleAfter(h.rows, accounts, h.phase.intent.writes, outcome)
            <==> exists w :: w in h.phase.put.writes && w.selection.provider in outcome.written
                             && !(&& w.selection.accountId in accounts && accounts[w.selection.accountId].status != Archived
                                  && w.selection.accountId !in h.phase.archived
                                  && accounts[w.selection.accountId].revision == w.selection.revision)
  {
    StaleExactly(h, accounts, outcome);
    var put, intent := h.phase.put, h.phase.intent;
    forall w | w in put.writes && w.selection.provider in outcome.written
      ensures LandedStale(SettleHomeWrite(h.rows, accounts, intent, outcome), accounts, IntentOf(w), outcome)
              <==> !(&& w.selection.accountId in accounts && accounts[w.selection.accountId].status != Archived
                     && w.selection.accountId !in h.phase.archived
                     && accounts[w.selection.accountId].revision == w.selection.revision)
    {
      OneIsStale(h, accounts, outcome, w);
      IntentIsListed(put, intent, w);
    }
    forall v | v in intent.writes && Landed(outcome, v) ensures exists w :: w in put.writes && v == IntentOf(w) {
      var w := IntentIsWrite(put, intent, v);
    }
  }

  lemma {:induction false} OneIsStale(h: Home, accounts: Accounts, outcome: Outcome, w: HomeWrite)
    requires RunningOk(h) && !outcome.Unconfirmed? && w in h.phase.put.writes && w.selection.provider in outcome.written
    ensures LandedStale(SettleHomeWrite(h.rows, accounts, h.phase.intent, outcome), accounts, IntentOf(w), outcome)
            <==> !(&& w.selection.accountId in accounts && accounts[w.selection.accountId].status != Archived
                   && w.selection.accountId !in h.phase.archived
                   && accounts[w.selection.accountId].revision == w.selection.revision)
  {
    hide PutStands, RowsFrom, Guarded, Sound, SettleHomeWrite;
    var next := SettleHomeWrite(h.rows, accounts, h.phase.intent, outcome);
    WrittenRowIsLeft(h, accounts, outcome, w);
    var s := Find(next, w.id).value;
    WrittenRow(h, accounts, outcome, w, s);
  }

  // ---------------------------------------------------------------------------------------------
  // Settling what is in doubt, and pruning
  // ---------------------------------------------------------------------------------------------

  /** Settling what is in doubt spares exactly the ready rows at whose path nothing is being written. */
  lemma {:induction false} StandingSurvives(rows: seq<Row>, r: Row)
    ensures r in SettleInDoubt(rows) && r.state == Ready <==> r in rows && Stands(rows, r)
  {
    var f := (q: Row) => if PendingAt(rows, q.path) && q.state != Removing then Retire(q) else q;
    if r in rows && Stands(rows, r) { assert f(r) in MapRows(rows, f); }
    if r in SettleInDoubt(rows) && r.state == Ready {
      var q :| q in rows && r == f(q);
    }
  }

  /** A row pruning spares: one a process still uses, or a ready default at its present revision. */
  predicate StillUsed(r: Row, live: seq<Id>, defaults: set<AccountId>, accounts: Accounts) {
    || r.id in live
    || (r.state == Ready && r.accountId in defaults && r.accountId in accounts && accounts[r.accountId].revision == r.revision)
  }

  /** After pruning and its removal, exactly the ready rows that stood and are still wanted are left. */
  lemma {:induction false} PruneThenRemove(rows: seq<Row>, live: seq<Id>, defaults: set<AccountId>, accounts: Accounts, r: Row)
    requires WellKept(rows)
    ensures var pruned := PruneHome(SettleInDoubt(rows), live, defaults, accounts);
            r in Forget(pruned, RemovalWork(pruned)) <==> r in rows && Stands(rows, r) && StillUsed(r, live, defaults, accounts)
  {
    var settled := SettleInDoubt(rows);
    var pruned := PruneHome(settled, live, defaults, accounts);
    var f := (q: Row) => if PendingAt(rows, q.path) && q.state != Removing then Retire(q) else q;
    RelabelIds(rows, f);
    PrunedKept(settled, live, defaults, accounts);
    ForgetsRemoving(pruned, r);
    StandingSurvives(rows, r);
    PrunedExactly(settled, live, defaults, accounts, r);
    SettledStates(rows);
  }

  lemma {:induction false} RelabelIds(rows: seq<Row>, f: Row -> Row)
    requires WellKept(rows) && forall r | r in rows :: f(r) == r.(state := f(r).state)
    ensures WellKept(MapRows(rows, f))
  {
    forall s, t | s in MapRows(rows, f) && t in MapRows(rows, f)
      ensures (s.id == t.id ==> s == t) && s.path == PlacementPath(s.provider, s.login, s.id)
    {
      var q :| q in rows && s == f(q);
      var r :| r in rows && t == f(r);
    }
  }

  lemma {:induction false} PrunedKept(rows: seq<Row>, live: seq<Id>, defaults: set<AccountId>, accounts: Accounts)
    requires WellKept(rows)
    ensures WellKept(PruneHome(rows, live, defaults, accounts))
  {
    var f := (r: Row) =>
      if r.id in live
         || (r.state == Ready && r.accountId in defaults && r.accountId in accounts
             && accounts[r.accountId].revision == r.revision)
      then r else Retire(r);
    RelabelIds(rows, f);
  }

  lemma {:induction false} PrunedExactly(rows: seq<Row>, live: seq<Id>, defaults: set<AccountId>, accounts: Accounts, r: Row)
    ensures r in PruneHome(rows, live, defaults, accounts) && r.state != Removing
            <==> r in rows && r.state != Removing && StillUsed(r, live, defaults, accounts)
  {
    var f := (q: Row) =>
      if q.id in live
         || (q.state == Ready && q.accountId in defaults && q.accountId in accounts
             && accounts[q.accountId].revision == q.revision)
      then q else Retire(q);
    if r in rows && StillUsed(r, live, defaults, accounts) { assert f(r) in MapRows(rows, f); }
    if r in PruneHome(rows, live, defaults, accounts) && r.state != Removing {
      var q :| q in rows && r == f(q);
    }
  }

  lemma {:induction false} SettledStates(rows: seq<Row>)
    ensures forall s | s in SettleInDoubt(rows) :: s.state == Ready || s.state == Removing
  {
    SettleInDoubtOnlyRetires(rows);
  }
}
