/** What every step of the home protocol keeps. */
module HomeSafety {
  import opened Placements
  import opened HomeScript
  import opened HomeProtocol
  import opened HomeBegin

  // ---------------------------------------------------------------------------------------------
  // Steps that only take rows out of ready
  // ---------------------------------------------------------------------------------------------

  /** Changing states only, leaving no row ready that was not, and no ready row without a pending
      one that marked its path, keeps a sound home sound. */
  lemma {:induction false} RelabelSound(rows: seq<Row>, f: Row -> Row, files: Files, doubt: set<Effect>)
    requires Sound(rows, files, doubt)
    requires forall r | r in rows :: f(r) == r.(state := f(r).state)
    requires forall r | r in rows && f(r).state == Ready :: f(r) == r
    requires forall r | r in rows && f(r).state == Ready && PendingAt(rows, r.path) :: PendingAt(MapRows(rows, f), r.path)
    ensures Sound(MapRows(rows, f), files, doubt)
  {
    var next := MapRows(rows, f);
    forall s | s in next && s.state == Ready ensures s in rows && (Stands(next, s) ==> Stands(rows, s)) {
      var r :| r in rows && s == f(r);
    }
    forall p | RowAt(rows, p) ensures RowAt(next, p) {
      var r :| r in rows && r.path == p;
      assert f(r) in next && f(r).path == p;
    }
    RelabelKept(rows, f);
    forall e | e in doubt ensures Harmless(next, e) { assert Harmless(rows, e); }
  }

  lemma {:induction false} RelabelKept(rows: seq<Row>, f: Row -> Row)
    requires WellKept(rows) && OneReady(rows)
    requires forall r | r in rows :: f(r) == r.(state := f(r).state)
    requires forall r | r in rows && f(r).state == Ready :: f(r) == r
    ensures WellKept(MapRows(rows, f)) && OneReady(MapRows(rows, f))
  {
    var next := MapRows(rows, f);
    forall s, t | s in next && t in next
      ensures s.id == t.id ==> s == t
      ensures s.state == Ready && t.state == Ready && s.path == t.path ==> s == t
      ensures s.path == PlacementPath(s.provider, s.login, s.id)
    {
      var q :| q in rows && s == f(q);
      var r :| r in rows && t == f(r);
    }
  }

  /** Settling what is in doubt keeps the home sound and leaves nothing pending. */
  lemma {:induction false} SettleInDoubtSound(rows: seq<Row>, files: Files, doubt: set<Effect>)
    requires Sound(rows, files, doubt)
    ensures Sound(SettleInDoubt(rows), files, doubt) && NonePending(SettleInDoubt(rows))
  {
    var f := (r: Row) => if PendingAt(rows, r.path) && r.state != Removing then Retire(r) else r;
    forall s | s in SettleInDoubt(rows) ensures s.state != Pending {
      var r :| r in rows && s == f(r);
    }
    RelabelSound(rows, f, files, doubt);
  }

  /** Settling twice is settling once. */
  lemma {:induction false} SettleInDoubtIsIdempotent(rows: seq<Row>)
    ensures SettleInDoubt(SettleInDoubt(rows)) == SettleInDoubt(rows)
  {
    var once := SettleInDoubt(rows);
    forall s | s in once ensures s.state != Pending {
      var r :| r in rows && s == if PendingAt(rows, r.path) && r.state != Removing then Retire(r) else r;
    }
  }

  lemma {:induction false} PruneSound(rows: seq<Row>, files: Files, doubt: set<Effect>, live: seq<Id>,
                                      defaults: set<AccountId>, accounts: Accounts)
    requires Sound(rows, files, doubt) && NonePending(rows)
    ensures Sound(PruneHome(rows, live, defaults, accounts), files, doubt)
  {
    var f := (r: Row) =>
      if r.id in live
         || (r.state == Ready && r.accountId in defaults && r.accountId in accounts
             && accounts[r.accountId].revision == r.revision)
      then r else Retire(r);
    RelabelSound(rows, f, files, doubt);
  }

  lemma {:induction false} ReleaseSound(rows: seq<Row>, files: Files, doubt: set<Effect>)
    requires Sound(rows, files, doubt)
    ensures Sound(ReleaseHome(rows), files, doubt)
  {
    RelabelSound(rows, Retire, files, doubt);
  }

  lemma {:induction false} ArchivedKept(rows: seq<Row>, accountId: AccountId)
    requires WellKept(rows) && OneReady(rows)
    ensures WellKept(ArchiveRows(rows, {accountId})) && OneReady(ArchiveRows(rows, {accountId}))
    ensures forall p :: RowAt(rows, p) ==> RowAt(ArchiveRows(rows, {accountId}), p)
  {
    var f := (r: Row) => ArchiveRow({accountId}, r);
    RelabelKept(rows, f);
    forall p | RowAt(rows, p) ensures RowAt(ArchiveRows(rows, {accountId}), p) {
      var r :| r in rows && r.path == p;
      assert f(r) in MapRows(rows, f);
    }
  }

  /** A row standing once an account is archived stood before, or stands anew. */
  lemma {:induction false} StandingArchived(rows: seq<Row>, accountId: AccountId, s: Row)
    ensures s in ArchiveRows(rows, {accountId}) && Stands(ArchiveRows(rows, {accountId}), s)
            <==> s in rows && s.accountId != accountId && (Stands(rows, s) || StandsAnew(rows, accountId, s))
  {
    var next := ArchiveRows(rows, {accountId});
    if s in next && s.state == Ready {
      var r :| r in rows && s == ArchiveRow({accountId}, r);
    }
    if s in rows && s.accountId != accountId { assert ArchiveRow({accountId}, s) in next; }
    if PendingAt(next, s.path) {
      var q :| q in next && q.path == s.path && q.state == Pending;
      var r :| r in rows && q == ArchiveRow({accountId}, r);
    }
  }

  lemma {:induction false} LeftArchiveSound(rows: seq<Row>, files: Files, doubt: set<Effect>, accountId: AccountId)
    requires Sound(rows, files, doubt) && LeftArchiveSafe(rows, files, doubt, accountId)
    ensures Sound(ArchiveRows(rows, {accountId}), files, doubt)
  {
    var next := ArchiveRows(rows, {accountId});
    ArchivedKept(rows, accountId);
    forall s | s in next && Stands(next, s)
      ensures Shows(FileAt(files, s.path), ContentOf(s))
      ensures forall e | e in doubt && e.path == s.path :: e == Store(s.path, ContentOf(s))
    {
      StandingArchived(rows, accountId, s);
      forall e | e in doubt && e.path == s.path ensures e == Store(s.path, ContentOf(s)) { assert Harmless(rows, e); }
    }
    forall e | e in doubt ensures Harmless(next, e) { assert Harmless(rows, e); }
  }

  lemma {:induction false} StandsAnewMatches(rows: seq<Row>, files: Files, doubt: set<Effect>, accountId: AccountId, r: Row)
    requires StandsAnew(rows, accountId, r)
    requires Matches(ArchiveRows(rows, {accountId}), files) && AllHarmless(ArchiveRows(rows, {accountId}), doubt)
    ensures Shows(FileAt(files, r.path), ContentOf(r))
    ensures forall e | e in doubt && e.path == r.path :: e == Store(r.path, ContentOf(r))
  {
    StandingArchived(rows, accountId, r);
    forall e | e in doubt && e.path == r.path ensures e == Store(r.path, ContentOf(r)) {
      assert Harmless(ArchiveRows(rows, {accountId}), e);
    }
  }

  /** Exactly when archiving an account is safe in a home no put is running in, whatever rows a crash
      left pending there. */
  lemma {:induction false} ArchiveWhenIdle(rows: seq<Row>, files: Files, doubt: set<Effect>, accountId: AccountId)
    requires Sound(rows, files, doubt)
    ensures Sound(ArchiveRows(rows, {accountId}), files, doubt) <==> LeftArchiveSafe(rows, files, doubt, accountId)
  {
    if LeftArchiveSafe(rows, files, doubt, accountId) {
      LeftArchiveSound(rows, files, doubt, accountId);
    } else if Sound(ArchiveRows(rows, {accountId}), files, doubt) {
      forall r | r in rows && StandsAnew(rows, accountId, r) { StandsAnewMatches(rows, files, doubt, accountId, r); }
      assert false;
    }
  }

  // ---------------------------------------------------------------------------------------------
  // An effect that lands late
  // ---------------------------------------------------------------------------------------------

  lemma {:induction false} LateSound(rows: seq<Row>, files: Files, doubt: set<Effect>, e: Effect)
    requires Sound(rows, files, doubt) && e in doubt
    ensures Sound(rows, Lands(files, e), doubt)
  {
    assert Harmless(rows, e);
  }

  /** The person may take any login away, whatever is running. */
  lemma {:induction false} LoseSound(rows: seq<Row>, files: Files, doubt: set<Effect>, p: Path)
    requires Sound(rows, files, doubt) && Held(files, p).Some?
    ensures Sound(rows, files[p := Lost], doubt)
  {
    forall q | Held(files[p := Lost], q).Some? ensures RowAt(rows, q) { assert Held(files, q).Some?; }
  }

  // ---------------------------------------------------------------------------------------------
  // The rows while a put runs
  // ---------------------------------------------------------------------------------------------

  ghost predicate IsBaseRow(base: seq<Row>, put: Put, archived: set<AccountId>, r: Row) {
    exists b :: b in base && r == ArchiveRow(archived, BegunRow(put, b))
  }

  ghost predicate IsNewRow(put: Put, archived: set<AccountId>, r: Row) {
    exists w :: w in put.writes && w.reuse.None? && r == ArchiveRow(archived, NewRow(w))
  }

  /** The rows a begun put left, with the accounts archived since taken out. */
  ghost predicate RowsFrom(base: seq<Row>, put: Put, archived: set<AccountId>, rows: seq<Row>) {
    && (forall b | b in base :: ArchiveRow(archived, BegunRow(put, b)) in rows)
    && (forall w | w in put.writes && w.reuse.None? :: ArchiveRow(archived, NewRow(w)) in rows)
    && forall r | r in rows :: IsBaseRow(base, put, archived, r) || IsNewRow(put, archived, r)
  }

  /** Each path the put writes is marked by a pending row, or no row is ready there. */
  ghost predicate Guarded(rows: seq<Row>, put: Put) {
    forall w | w in put.writes :: PendingAt(rows, w.path) || !ReadyAt(rows, w.path)
  }

  /** A row ready while a put runs was ready before it, is none the put removes, and stands. */
  lemma {:induction false} ReadyIsBase(base: seq<Row>, put: Put, archived: set<AccountId>, rows: seq<Row>, r: Row)
    requires RowsFrom(base, put, archived, rows) && NonePending(base) && WellKept(base)
    requires r in rows && r.state == Ready
    ensures r in base && Stands(base, r) && !DropsPath(put, r.path)
    ensures !Reused(put.writes, r.id) && !RetiredBy(put, r)
  {
    assert IsBaseRow(base, put, archived, r);
    var b :| b in base && r == ArchiveRow(archived, BegunRow(put, b));
    assert b == r;
  }

  lemma {:induction false} BaseHasRowAt(base: seq<Row>, put: Put, archived: set<AccountId>, rows: seq<Row>, p: Path)
    requires RowsFrom(base, put, archived, rows) && RowAt(base, p)
    ensures RowAt(rows, p)
  {
    var b :| b in base && b.path == p;
    var r := ArchiveRow(archived, BegunRow(put, b));
    assert r in rows && r.path == p;
  }

  /** The base row a reusing write names. */
  lemma {:induction false} ReusedRow(base: seq<Row>, put: Put, w: HomeWrite) returns (b: Row)
    requires WellKept(base) && WriteOk(base, put, w) && w in put.writes && w.reuse.Some?
    ensures b in base && b.id == w.id && b.path == w.path && b.state == Ready && !IsKeyRow(b)
    ensures b.accountId == w.selection.accountId && Reused(put.writes, b.id)
  {
    b :| b in base && b.id == w.id && b.state == Ready && b.provider == w.selection.provider
         && b.accountId == w.selection.accountId && !IsKeyRow(b);
    assert Reuses(w, b.id);
  }

  /** The row of a write while the put runs: pending, unless its account was archived. */
  lemma {:induction false} WriteHasRow(base: seq<Row>, put: Put, archived: set<AccountId>, rows: seq<Row>, w: HomeWrite)
    returns (r: Row)
    requires RowsFrom(base, put, archived, rows) && WellKept(base) && WriteOk(base, put, w) && w in put.writes
    ensures r in rows && r.id == w.id && r.path == w.path && r.accountId == w.selection.accountId
    ensures r.state == if r.accountId in archived then Removing else Pending
  {
    if w.reuse.Some? {
      var b := ReusedRow(base, put, w);
      r := ArchiveRow(archived, BegunRow(put, b));
    } else {
      r := ArchiveRow(archived, NewRow(w));
    }
  }

  /** Where a row comes from: a base row, or a new write. */
  datatype Origin = Old(row: Row) | New(write: HomeWrite)

  predicate OriginIn(base: seq<Row>, put: Put, o: Origin) {
    match o
    case Old(b) => b in base
    case New(w) => w in put.writes && w.reuse.None?
  }

  function OriginId(o: Origin): Id {
    match o
    case Old(b) => b.id
    case New(w) => w.id
  }

  function RowOf(put: Put, archived: set<AccountId>, o: Origin): (r: Row)
    ensures r.id == OriginId(o)
  {
    match o
    case Old(b) => ArchiveRow(archived, BegunRow(put, b))
    case New(w) => ArchiveRow(archived, NewRow(w))
  }

  lemma {:induction false} RowOrigin(base: seq<Row>, put: Put, archived: set<AccountId>, rows: seq<Row>, r: Row)
    returns (o: Origin)
    requires RowsFrom(base, put, archived, rows) && r in rows
    ensures OriginIn(base, put, o) && r == RowOf(put, archived, o)
  {
    if IsBaseRow(base, put, archived, r) {
      var b :| b in base && r == ArchiveRow(archived, BegunRow(put, b));
      o := Old(b);
    } else {
      var w :| w in put.writes && w.reuse.None? && r == ArchiveRow(archived, NewRow(w));
      o := New(w);
    }
  }

  lemma {:induction false} OriginsAreDistinct(base: seq<Row>, put: Put, o: Origin, p: Origin)
    requires WellKept(base) && DistinctWrites(put.writes) && (forall w | w in put.writes :: WriteOk(base, put, w))
    requires OriginIn(base, put, o) && OriginIn(base, put, p) && OriginId(o) == OriginId(p)
    ensures o == p
  {
    if o.New? { assert WriteOk(base, put, o.write); }
    if p.New? { assert WriteOk(base, put, p.write); }
  }

  lemma {:induction false} RowsKept(base: seq<Row>, put: Put, archived: set<AccountId>, rows: seq<Row>, r: Row, s: Row)
    requires RowsFrom(base, put, archived, rows) && WellKept(base) && DistinctWrites(put.writes)
    requires forall w | w in put.writes :: WriteOk(base, put, w)
    requires r in rows && s in rows && r.id == s.id
    ensures r == s
  {
    var o := RowOrigin(base, put, archived, rows, r);
    var p := RowOrigin(base, put, archived, rows, s);
    OriginsAreDistinct(base, put, o, p);
  }

  lemma {:induction false} RowsPlaced(base: seq<Row>, put: Put, archived: set<AccountId>, rows: seq<Row>, r: Row)
    requires RowsFrom(base, put, archived, rows) && WellKept(base)
    requires forall w | w in put.writes :: WriteOk(base, put, w)
    requires r in rows
    ensures r.path == PlacementPath(r.provider, r.login, r.id)
  {
    if IsBaseRow(base, put, archived, r) {
      var b :| b in base && r == ArchiveRow(archived, BegunRow(put, b));
    } else {
      var w :| w in put.writes && w.reuse.None? && r == ArchiveRow(archived, NewRow(w));
      assert WriteOk(base, put, w);
    }
  }

  /** A row pending while a put runs is that of one of its writes. */
  lemma {:induction false} PendingIsWrite(base: seq<Row>, put: Put, archived: set<AccountId>, rows: seq<Row>, q: Row)
    returns (w: HomeWrite)
    requires RowsFrom(base, put, archived, rows) && WellKept(base) && NonePending(base) && q in rows && q.state == Pending
    requires forall v | v in put.writes :: WriteOk(base, put, v)
    ensures w in put.writes && w.id == q.id && w.path == q.path && w.selection.accountId == q.accountId
  {
    if IsBaseRow(base, put, archived, q) {
      var b :| b in base && q == ArchiveRow(archived, BegunRow(put, b));
      assert b.state != Pending;
      w :| w in put.writes && Reuses(w, b.id);
      assert WriteOk(base, put, w);
      var c := ReusedRow(base, put, w);
      assert c == b;
    } else {
      w :| w in put.writes && w.reuse.None? && q == ArchiveRow(archived, NewRow(w));
    }
  }

  /** Archiving one more account. */
  lemma {:induction false} ArchiveRowsFrom(base: seq<Row>, put: Put, archived: set<AccountId>, rows: seq<Row>, a: AccountId)
    requires RowsFrom(base, put, archived, rows)
    ensures RowsFrom(base, put, archived + {a}, ArchiveRows(rows, {a}))
  {
    var next := ArchiveRows(rows, {a});
    forall b | b in base ensures ArchiveRow(archived + {a}, BegunRow(put, b)) in next {
      assert ArchiveRow({a}, ArchiveRow(archived, BegunRow(put, b))) in next;
    }
    forall w | w in put.writes && w.reuse.None? ensures ArchiveRow(archived + {a}, NewRow(w)) in next {
      assert ArchiveRow({a}, ArchiveRow(archived, NewRow(w))) in next;
    }
    forall r | r in next ensures IsBaseRow(base, put, archived + {a}, r) || IsNewRow(put, archived + {a}, r) {
      var q :| q in rows && r == ArchiveRow({a}, q);
      ArchivedAgain(base, put, archived, a, q);
    }
  }

  lemma {:induction false} ArchivedAgain(base: seq<Row>, put: Put, archived: set<AccountId>, a: AccountId, q: Row)
    requires IsBaseRow(base, put, archived, q) || IsNewRow(put, archived, q)
    ensures var r := ArchiveRow({a}, q); IsBaseRow(base, put, archived + {a}, r) || IsNewRow(put, archived + {a}, r)
  {
    var r := ArchiveRow({a}, q);
    if IsBaseRow(base, put, archived, q) {
      var b :| b in base && q == ArchiveRow(archived, BegunRow(put, b));
      assert r == ArchiveRow(archived + {a}, BegunRow(put, b));
    } else {
      var w :| w in put.writes && w.reuse.None? && q == ArchiveRow(archived, NewRow(w));
      assert r == ArchiveRow(archived + {a}, NewRow(w));
    }
  }

  // ---------------------------------------------------------------------------------------------
  // A put that is running
  // ---------------------------------------------------------------------------------------------

  /** What holds of the put itself: it began on settled rows, under its premises. */
  ghost predicate PutStands(base: seq<Row>, put: Put, intent: Intent) {
    && NonePending(base) && PutOk(base, put) && KeptStand(base, put)
    && IntentsOf(put.writes, intent.writes) && RetiredFrom(base, put, intent.retired)
  }

  ghost predicate RunningOk(h: Home) {
    && h.phase.Running?
    && Sound(h.phase.base, h.files, h.doubt)
    && PutStands(h.phase.base, h.phase.put, h.phase.intent)
    && RowsFrom(h.phase.base, h.phase.put, h.phase.archived, h.rows)
    && Guarded(h.rows, h.phase.put)
  }

  ghost predicate Inv(h: Home) {
    match h.phase
    case Idle => Sound(h.rows, h.files, h.doubt)
    case Running(_, _, _, _) => RunningOk(h)
  }

  lemma {:induction false} RunningKept(h: Home)
    requires RunningOk(h)
    ensures WellKept(h.rows) && OneReady(h.rows)
  {
    var base, put, archived := h.phase.base, h.phase.put, h.phase.archived;
    forall r, s | r in h.rows && s in h.rows && r.id == s.id ensures r == s {
      RowsKept(base, put, archived, h.rows, r, s);
    }
    forall r | r in h.rows ensures r.path == PlacementPath(r.provider, r.login, r.id) {
      RowsPlaced(base, put, archived, h.rows, r);
    }
    forall r, s | r in h.rows && s in h.rows && r.state == Ready && s.state == Ready && r.path == s.path ensures r == s {
      ReadyIsBase(base, put, archived, h.rows, r);
      ReadyIsBase(base, put, archived, h.rows, s);
    }
  }

  /** While a put runs, every ready row still names the login in its file. */
  lemma {:induction false} RunningMatches(h: Home)
    requires RunningOk(h)
    ensures Matches(h.rows, h.files) && Rowed(h.rows, h.files)
  {
    var base, put, archived := h.phase.base, h.phase.put, h.phase.archived;
    forall r | r in h.rows && Stands(h.rows, r) ensures Shows(FileAt(h.files, r.path), ContentOf(r)) {
      ReadyIsBase(base, put, archived, h.rows, r);
    }
    forall p | Held(h.files, p).Some? ensures RowAt(h.rows, p) { BaseHasRowAt(base, put, archived, h.rows, p); }
  }

  /** An effect harmless on the base rows stays harmless while a put runs. */
  lemma {:induction false} OldDoubtHarmless(base: seq<Row>, put: Put, archived: set<AccountId>, rows: seq<Row>, e: Effect)
    requires RowsFrom(base, put, archived, rows) && NonePending(base) && WellKept(base) && Harmless(base, e)
    ensures Harmless(rows, e)
  {
    if e.Store? { BaseHasRowAt(base, put, archived, rows, e.path); }
    forall r | r in rows && Stands(rows, r) && r.path == e.path
      ensures e.Store? && ContentOf(r) == e.content
    {
      ReadyIsBase(base, put, archived, rows, r);
    }
  }

  /** Each effect of the running put's own script is harmless, at whatever moment it lands. */
  lemma {:induction false} OwnEffectHarmless(base: seq<Row>, put: Put, archived: set<AccountId>, rows: seq<Row>, e: Effect)
    requires RowsFrom(base, put, archived, rows) && NonePending(base) && WellKept(base) && PutOk(base, put)
    requires KeptStand(base, put) && Guarded(rows, put) && IsEffect(put, e)
    ensures Harmless(rows, e)
  {
    match e
    case Store(path, content) =>
      if w :| w in put.writes && path == w.path && content == Wanted(w.selection) {
        var r := WriteHasRow(base, put, archived, rows, w);
        assert PendingAt(rows, w.path) || !ReadyAt(rows, w.path);
      } else {
        var k :| k in put.keptKeys && path == KeyFile(k.id) && content == Wanted(k.selection);
        KeptKeyHarmless(base, put, archived, rows, k);
      }
    case Drop(path) =>
      forall r | r in rows && r.path == path ensures !Stands(rows, r) {
        if r.state == Ready { ReadyIsBase(base, put, archived, rows, r); }
      }
  }

  lemma {:induction false} KeptKeyHarmless(base: seq<Row>, put: Put, archived: set<AccountId>, rows: seq<Row>, k: KeptKey)
    requires RowsFrom(base, put, archived, rows) && NonePending(base) && WellKept(base)
    requires KeptStand(base, put) && k in put.keptKeys
    ensures Harmless(rows, Store(KeyFile(k.id), Wanted(k.selection)))
  {
    var b :| b in base && b.id == k.id && IsKeyRow(b) && ContentOf(b) == Wanted(k.selection);
    assert b.path == KeyFile(k.id);
    BaseHasRowAt(base, put, archived, rows, b.path);
    forall s | s in rows && Stands(rows, s) && s.path == KeyFile(k.id) ensures ContentOf(s) == Wanted(k.selection) {
      ReadyIsBase(base, put, archived, rows, s);
      assert s.path == PlacementPath(s.provider, s.login, s.id);
      assert s.id == b.id;
    }
  }

  /** A lost answer, or a crash before it: the put's effects join the writes in doubt. */
  lemma {:induction false} CrashSound(h: Home, effects: set<Effect>)
    requires RunningOk(h) && Effects(h.phase.put, effects)
    ensures Sound(h.rows, h.files, h.doubt + effects)
  {
    RunningKept(h);
    RunningMatches(h);
    CrashHarmless(h, effects);
  }

  lemma {:induction false} CrashHarmless(h: Home, effects: set<Effect>)
    requires RunningOk(h) && Effects(h.phase.put, effects)
    ensures AllHarmless(h.rows, h.doubt + effects)
  {
    var base, put, archived := h.phase.base, h.phase.put, h.phase.archived;
    forall e | e in h.doubt + effects ensures Harmless(h.rows, e) {
      if e in effects {
        assert IsEffect(put, e);
        OwnEffectHarmless(base, put, archived, h.rows, e);
      } else {
        assert Harmless(base, e);
        OldDoubtHarmless(base, put, archived, h.rows, e);
      }
    }
  }

  // ---------------------------------------------------------------------------------------------
  // Beginning
  // ---------------------------------------------------------------------------------------------

  lemma {:induction false} BeginRuns(h: Home, put: Put, accounts: Accounts, h': Home)
    requires Inv(h) && BeginStep(h, put, accounts, h')
    ensures Inv(h')
  {
    var base := SettleInDoubt(h.rows);
    SettleInDoubtSound(h.rows, h.files, h.doubt);
    if BeginHomeWrite(base, accounts, put).Begun? {
      BeginShape(base, accounts, put);
      BegunRowsFrom(base, put, h'.rows);
      forall w | w in put.writes ensures PendingAt(h'.rows, w.path) {
        var r := WriteHasRow(base, put, {}, h'.rows, w);
      }
    }
  }

  lemma {:induction false} BegunRowsFrom(base: seq<Row>, put: Put, rows: seq<Row>)
    requires BegunFrom(base, put, rows)
    ensures RowsFrom(base, put, {}, rows)
  {
    assert forall r :: ArchiveRow({}, r) == r;
    forall r | r in rows ensures IsBaseRow(base, put, {}, r) || IsNewRow(put, {}, r) {
      if b :| b in base && r == BegunRow(put, b) {
        assert r == ArchiveRow({}, BegunRow(put, b));
      } else {
        var w :| w in put.writes && w.reuse.None? && r == NewRow(w);
        assert r == ArchiveRow({}, NewRow(w));
      }
    }
  }

  // ---------------------------------------------------------------------------------------------
  // Archiving while a put runs
  // ---------------------------------------------------------------------------------------------

  lemma {:induction false} ArchiveGuarded(rows: seq<Row>, put: Put, accountId: AccountId)
    requires Guarded(rows, put) && ArchiveSafe(rows, accountId)
    ensures Guarded(ArchiveRows(rows, {accountId}), put)
  {
    var next := ArchiveRows(rows, {accountId});
    forall w | w in put.writes && ReadyAt(next, w.path) ensures PendingAt(next, w.path) {
      var s :| s in next && s.path == w.path && s.state == Ready;
      var r :| r in rows && s == ArchiveRow({accountId}, r);
      assert r == s && ReadyAt(rows, w.path) && PendingAt(rows, w.path);
    }
  }

  lemma {:induction false} ArchiveRuns(h: Home, accountId: AccountId, h': Home)
    requires RunningOk(h) && ArchiveStep(h, accountId, h')
    ensures RunningOk(h')
  {
    ArchiveRowsFrom(h.phase.base, h.phase.put, h.phase.archived, h.rows, accountId);
    ArchiveGuarded(h.rows, h.phase.put, accountId);
  }

  /** Exactly when archiving an account while a put runs is safe. If the account's pending row is
      all that marks a path where another account's row is ready, then once it is archived a lost
      answer leaves that row ready although the put may have written over its file. */
  lemma {:induction false} ArchiveInFlight(h: Home, accountId: AccountId, effects: set<Effect>)
    requires RunningOk(h) && Effects(h.phase.put, effects)
    ensures Sound(ArchiveRows(h.rows, {accountId}), h.files, h.doubt + effects) <==> ArchiveSafe(h.rows, accountId)
  {
    if ArchiveSafe(h.rows, accountId) {
      var h' := h.(rows := ArchiveRows(h.rows, {accountId}), phase := h.phase.(archived := h.phase.archived + {accountId}));
      ArchiveRuns(h, accountId, h');
      CrashSound(h', effects);
    } else {
      var e := UnsafeArchiveContradicts(h, accountId);
      assert e in effects && !Harmless(ArchiveRows(h.rows, {accountId}), e);
    }
  }

  /** What makes archiving unsafe: a row that then stands, at a path only pending rows of the account
      marked. */
  lemma {:induction false} UnsafeArchive(rows: seq<Row>, accountId: AccountId) returns (r: Row, q: Row)
    requires !ArchiveSafe(rows, accountId)
    ensures r.accountId != accountId && r in ArchiveRows(rows, {accountId}) && Stands(ArchiveRows(rows, {accountId}), r)
    ensures q in rows && q.path == r.path && q.state == Pending && q.accountId == accountId
  {
    var next := ArchiveRows(rows, {accountId});
    r :| r in rows && r.state == Ready && r.accountId != accountId && PendingAt(rows, r.path) && !PendingAt(next, r.path);
    assert ArchiveRow({accountId}, r) == r;
    q := PendingArchived(rows, accountId, r.path);
  }

  lemma {:induction false} PendingArchived(rows: seq<Row>, accountId: AccountId, path: Path) returns (q: Row)
    requires PendingAt(rows, path) && !PendingAt(ArchiveRows(rows, {accountId}), path)
    ensures q in rows && q.path == path && q.state == Pending && q.accountId == accountId
  {
    q :| q in rows && q.path == path && q.state == Pending;
    assert ArchiveRow({accountId}, q) in ArchiveRows(rows, {accountId});
  }

  lemma {:induction false} UnsafeArchiveContradicts(h: Home, accountId: AccountId) returns (e: Effect)
    requires RunningOk(h) && !ArchiveSafe(h.rows, accountId)
    ensures IsEffect(h.phase.put, e) && !Harmless(ArchiveRows(h.rows, {accountId}), e)
  {
    var r, q := UnsafeArchive(h.rows, accountId);
    var w := PendingIsWrite(h.phase.base, h.phase.put, h.phase.archived, h.rows, q);
    e := Store(w.path, Wanted(w.selection));
    assert r.path == e.path && ContentOf(r) != e.content;
  }
}
