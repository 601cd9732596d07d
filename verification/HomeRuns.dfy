/** Every run of the home protocol: what holds in every state it reaches, and what a release leaves. */
module HomeRuns {
  import opened Wrappers
  import opened Placements
  import opened HomeScript
  import opened HomeProtocol
  import opened HomeSafety
  import opened HomeSettle
  import opened HomeFiles
  import opened HomeRefusals

  // ---------------------------------------------------------------------------------------------
  // Removing what is left
  // ---------------------------------------------------------------------------------------------

  ghost predicate LeftAt(rows: seq<Row>, p: Path) {
    exists r :: r in rows && r.path == p && r.state == Removing
  }

  /** The work removes exactly the files at which a row is being removed and none is ready. */
  lemma {:induction false} RemovalIsExact(rows: seq<Row>, p: Path)
    requires WellKept(rows)
    ensures Removes(RemovalWork(rows), p) <==> LeftAt(rows, p) && !ReadyAt(rows, p)
  {
    if LeftAt(rows, p) && !ReadyAt(rows, p) {
      var r :| r in rows && r.path == p && r.state == Removing;
      assert r.path == PlacementPath(r.provider, r.login, r.id);
    } else if Removes(RemovalWork(rows), p) {
      var r := RemovingRow(rows, p);
      assert false;
    }
  }

  lemma {:induction false} RemovingRow(rows: seq<Row>, p: Path) returns (r: Row)
    requires WellKept(rows) && Removes(RemovalWork(rows), p)
    ensures r in rows && r.path == p && r.state == Removing && !ReadyAt(rows, p)
  {
    match p
    case LoginFile(provider) =>
      r :| r in rows && r.state == Removing && !ReadyAt(rows, r.path) && !IsKeyRow(r) && r.provider == provider;
    case KeyFile(id) =>
      r :| r in rows && r.state == Removing && !ReadyAt(rows, r.path) && IsKeyRow(r) && r.id == id;
  }

  /** What is forgotten once the work is done: the rows that were being removed, no other. */
  lemma {:induction false} ForgetsRemoving(rows: seq<Row>, r: Row)
    requires WellKept(rows)
    ensures r in Forget(rows, RemovalWork(rows)) <==> r in rows && r.state != Removing
  {
    if r in rows && r.id in RemovalWork(rows).forget {
      var s :| s in rows && s.state == Removing && s.id == r.id;
    }
  }

  /** A path still marked once the work is done. */
  lemma {:induction false} StillMarked(rows: seq<Row>, p: Path)
    requires WellKept(rows) && NonePending(rows) && RowAt(rows, p) && !Removes(RemovalWork(rows), p)
    ensures RowAt(Forget(rows, RemovalWork(rows)), p)
  {
    var r :| r in rows && r.path == p;
    RemovalIsExact(rows, p);
    if r.state == Removing { r :| r in rows && r.path == p && r.state == Ready; }
    ForgetsRemoving(rows, r);
  }

  lemma {:induction false} ForgetKept(rows: seq<Row>)
    requires WellKept(rows) && OneReady(rows) && NonePending(rows)
    ensures WellKept(Forget(rows, RemovalWork(rows))) && OneReady(Forget(rows, RemovalWork(rows)))
    ensures NonePending(Forget(rows, RemovalWork(rows)))
  {
    var next := Forget(rows, RemovalWork(rows));
    assert forall r | r in next :: r in rows;
  }

  /** Carrying out the work and forgetting its rows. */
  lemma {:induction false} RemoveSound(rows: seq<Row>, files: Files, doubt: set<Effect>, after: Files)
    requires Sound(rows, files, doubt) && NonePending(rows) && RemovedFiles(files, RemovalWork(rows), after)
    ensures Sound(Forget(rows, RemovalWork(rows)), after, {})
  {
    var next := Forget(rows, RemovalWork(rows));
    ForgetKept(rows);
    forall r | r in next && Stands(next, r) ensures Shows(FileAt(after, r.path), ContentOf(r)) {
      assert r in rows && Stands(rows, r);
      RemovalIsExact(rows, r.path);
      assert FileAt(after, r.path) == FileAt(files, r.path);
    }
    forall p | Held(after, p).Some? ensures RowAt(next, p) {
      assert FileAt(after, p) == FileAt(files, p);
      StillMarked(rows, p);
    }
  }

  /** With no file to remove, forgetting the rows needs no answer from the executor. */
  lemma {:induction false} ForgetSound(rows: seq<Row>, files: Files, doubt: set<Effect>)
    requires Sound(rows, files, doubt) && NonePending(rows) && (forall p :: !Removes(RemovalWork(rows), p))
    ensures Sound(Forget(rows, RemovalWork(rows)), files, doubt)
  {
    var next := Forget(rows, RemovalWork(rows));
    assert RemovedFiles(files, RemovalWork(rows), files);
    RemoveSound(rows, files, doubt, files);
    forall e | e in doubt ensures Harmless(next, e) {
      assert Harmless(rows, e);
      if e.Store? { StillMarked(rows, e.path); }
      forall r | r in next && Stands(next, r) ensures r in rows && Stands(rows, r) {}
    }
  }

  /** A removal whose answer is lost: its effects join the writes in doubt. */
  lemma {:induction false} UnconfirmedSound(rows: seq<Row>, files: Files, doubt: set<Effect>, after: set<Effect>)
    requires Sound(rows, files, doubt) && NonePending(rows)
    requires forall e :: e in after <==> e in doubt || (e.Drop? && Removes(RemovalWork(rows), e.path))
    ensures Sound(rows, files, after)
  {
    forall e | e in after ensures Harmless(rows, e) {
      if e in doubt { assert Harmless(rows, e); } else { RemovalIsExact(rows, e.path); }
    }
  }

  lemma {:induction false} RemoveKeepsSound(h: Home, rows: seq<Row>, confirmed: bool, h': Home)
    requires Sound(rows, h.files, h.doubt) && NonePending(rows) && rows == SettleInDoubt(h.rows) && RemoveStep(h, confirmed, h')
    ensures Sound(h'.rows, h'.files, h'.doubt)
  {
    var work := RemovalWork(rows);
    if work.removes == {} && work.removedKeys == {} {
      ForgetSound(rows, h.files, h.doubt);
    } else if confirmed {
      RemoveSound(rows, h.files, h.doubt, h'.files);
    } else {
      UnconfirmedSound(rows, h.files, h.doubt, h'.doubt);
    }
  }

  lemma {:induction false} RemoveKeepsInv(h: Home, confirmed: bool, h': Home)
    requires Inv(h) && RemoveStep(h, confirmed, h')
    ensures Inv(h')
  {
    SettleInDoubtSound(h.rows, h.files, h.doubt);
    RemoveKeepsSound(h, SettleInDoubt(h.rows), confirmed, h');
  }

  // ---------------------------------------------------------------------------------------------
  // Every run
  // ---------------------------------------------------------------------------------------------

  /** Every step of the protocol keeps its invariant. */
  lemma {:induction false} StepKeepsInv(h: Home, a: Action, h': Home)
    requires Inv(h) && Next(h, a, h')
    ensures Inv(h')
  {
    match a
    case Begin(put, accounts) => BeginRuns(h, put, accounts, h');
    case Crash(effects) => CrashSound(h, effects);
    case Answer(kept, settledBy) => AnswerKeepsInv(h, kept, settledBy, h');
    case Refuse(stop, settledBy) => RefuseKeepsInv(h, stop, settledBy, h');
    case Late(e) => LateSound(if h.phase.Idle? then h.rows else h.phase.base, h.files, h.doubt, e);
    case Lose(p) => LoseSound(if h.phase.Idle? then h.rows else h.phase.base, h.files, h.doubt, p);
    case ArchiveAccount(accountId) =>
      if h.phase.Idle? { ArchiveWhenIdle(h.rows, h.files, h.doubt, accountId); } else { ArchiveRuns(h, accountId, h'); }
    case Prune(live, defaults, accounts) =>
      SettleInDoubtSound(h.rows, h.files, h.doubt);
      PruneSound(SettleInDoubt(h.rows), h.files, h.doubt, live, defaults, accounts);
    case Remove(confirmed) => RemoveKeepsInv(h, confirmed, h');
    case Release => ReleaseSound(h.rows, h.files, h.doubt);
    case Emptied =>
  }

  lemma {:induction false} AnswerKeepsInv(h: Home, kept: set<Provider>, settledBy: Option<Accounts>, h': Home)
    requires Inv(h) && AnswerStep(h, kept, settledBy, h')
    ensures Inv(h')
  {
    match settledBy
    case None => UnsettledSound(h, kept);
    case Some(accounts) =>
      FinishedAsReported(h, kept);
      SettleSound(h, accounts, DoneOf(h.phase.put, kept), h'.files);
  }

  lemma {:induction false} RefuseKeepsInv(h: Home, stop: Stop, settledBy: Option<Accounts>, h': Home)
    requires Inv(h) && RefuseStep(h, stop, settledBy, h')
    ensures Inv(h')
  {
    match settledBy
    case None => UnsettledRefusalSound(h, stop);
    case Some(accounts) => RefusalExactly(h, accounts, stop);
  }

  // ---------------------------------------------------------------------------------------------
  // What may still land
  // ---------------------------------------------------------------------------------------------

  /** After an answer is lost, any one write, restore or removal of the put may land at any moment, on top
      of what was in doubt before, and nothing else may. */
  lemma {:induction false} LostAnswerMayLand(h: Home, effects: set<Effect>, h': Home, e: Effect)
    requires h.phase.Running? && Next(h, Crash(effects), h')
    ensures e in h'.doubt <==>
              var put := h.phase.put;
              || e in h.doubt
              || (exists w :: w in put.writes && e == Store(w.path, Content(w.selection.accountId, w.selection.revision)))
              || (exists k :: k in put.keptKeys && e == Store(KeyFile(k.id), Content(k.selection.accountId, k.selection.revision)))
              || (exists w :: w in put.writes && w.selection.provider in {Pi, Opencode} && e == Drop(w.path))
              || (exists p :: p in put.removes && e == Drop(LoginFile(p)))
              || (exists id :: id in put.removedKeys && e == Drop(KeyFile(id)))
    ensures e in h'.doubt ==> Next(h', Late(e), h'.(files := Lands(h'.files, e)))
    ensures h'.rows == h.rows && h'.files == h.files && h'.phase == Idle
  {
    assert e in effects <==> IsEffect(h.phase.put, e);
  }

  /** A finished script, or one refused after its fencing token got through, leaves nothing in doubt; one
      refused before leaves what was; and an unconfirmed removal adds what it was to remove. */
  lemma {:induction false} AnsweredDoubt(h: Home, h': Home, kept: set<Provider>, stop: Stop, settledBy: Option<Accounts>)
    ensures Next(h, Answer(kept, settledBy), h') ==> h'.doubt == {}
    ensures Next(h, Refuse(stop, settledBy), h') ==> h'.doubt == if stop.Early? then h.doubt else {}
    ensures Next(h, Remove(false), h') ==> h.doubt <= h'.doubt && forall e | e in h'.doubt :: e in h.doubt || e.Drop?
    ensures Next(h, Remove(false), h') && h'.rows == SettleInDoubt(h.rows) ==>
              forall r | r in h'.rows && r.state == Removing && !(exists q :: q in h'.rows && q.path == r.path && q.state == Ready)
                         && r.path == PlacementPath(r.provider, r.login, r.id) ::
                Drop(r.path) in h'.doubt
  {
  }

  ghost predicate LoginsOk(logins: seq<HomeWrite>) {
    && (forall v, w | v in logins && w in logins && (v.id == w.id || v.selection.provider == w.selection.provider) :: v == w)
    && forall w | w in logins :: !IsKey(w.selection.provider, w.selection.login) && w.path == LoginFile(w.selection.provider)
  }

  /** A home starts empty, or with the logins its launch wrote, one file each. */
  ghost predicate Starts(h: Home, logins: seq<HomeWrite>, accounts: Accounts) {
    && LoginsOk(logins) && h.phase == Idle && h.doubt == {} && h.rows == RecordLaunchHome([], logins, accounts)
    && (forall w | w in logins :: FileAt(h.files, w.path) == Some(There(Wanted(w.selection))))
    && forall p | p in h.files :: exists w :: w in logins && w.path == p
  }

  lemma {:induction false} LaunchedRow(logins: seq<HomeWrite>, accounts: Accounts, r: Row) returns (w: HomeWrite)
    requires LoginsOk(logins) && r in RecordLaunchHome([], logins, accounts)
    ensures w in logins && r.id == w.id && r.path == w.path && r.provider == w.selection.provider
    ensures r.login == w.selection.login && ContentOf(r) == Wanted(w.selection) && r.state != Pending
    ensures r.state == if Unarchived(accounts, w.selection.accountId) then Ready else Removing
  {
    var rows := RecordLaunchHome([], logins, accounts);
    var i :| 0 <= i < |rows| && rows[i] == r;
    w := logins[i];
  }

  lemma {:induction false} LaunchedRowAt(logins: seq<HomeWrite>, accounts: Accounts, w: HomeWrite)
    requires w in logins
    ensures RowAt(RecordLaunchHome([], logins, accounts), w.path)
  {
    var i :| 0 <= i < |logins| && logins[i] == w;
    var rows := RecordLaunchHome([], logins, accounts);
    assert rows[i] in rows && rows[i].path == w.path;
  }

  lemma {:induction false} StartIsSound(h: Home, logins: seq<HomeWrite>, accounts: Accounts)
    requires Starts(h, logins, accounts)
    ensures Inv(h)
  {
    forall r, s | r in h.rows && s in h.rows && (r.id == s.id || r.path == s.path) ensures r == s {
      var v := LaunchedRow(logins, accounts, r);
      var w := LaunchedRow(logins, accounts, s);
      assert v == w;
    }
    forall r | r in h.rows
      ensures r.path == PlacementPath(r.provider, r.login, r.id) && Shows(FileAt(h.files, r.path), ContentOf(r))
    {
      var w := LaunchedRow(logins, accounts, r);
    }
    forall p | p in h.files ensures RowAt(h.rows, p) {
      var w :| w in logins && w.path == p;
      LaunchedRowAt(logins, accounts, w);
    }
  }

  ghost predicate Run(homes: seq<Home>, actions: seq<Action>, logins: seq<HomeWrite>, accounts: Accounts) {
    && |homes| == |actions| + 1 && Starts(homes[0], logins, accounts)
    && forall i | 0 <= i < |actions| :: Next(homes[i], actions[i], homes[i + 1])
  }

  /** What a home promises at every moment: ids are unique and rows lie at their own paths, each path
      has at most one ready row, a ready row whose path nothing is being written to names the login
      really in its file, unless the person took that away, and every Core login in a file has a row. */
  ghost predicate Safe(h: Home) {
    WellKept(h.rows) && OneReady(h.rows) && Matches(h.rows, h.files) && Rowed(h.rows, h.files)
  }

  lemma {:induction false} RunKeepsInv(homes: seq<Home>, actions: seq<Action>, logins: seq<HomeWrite>, accounts: Accounts, n: nat)
    requires Run(homes, actions, logins, accounts) && n < |homes|
    ensures Inv(homes[n])
  {
    if n == 0 {
      StartIsSound(homes[0], logins, accounts);
    } else {
      RunKeepsInv(homes, actions, logins, accounts, n - 1);
      StepKeepsInv(homes[n - 1], actions[n - 1], homes[n]);
    }
  }

  /** Every state of every run is safe, whatever was lost, refused, left unsettled or late along it; only
      archiving, and the settling of a refusal, have to be safe themselves (`ArchiveSafe`,
      `LeftArchiveSafe`, `RefusalSafe`). */
  lemma {:induction false} EveryRunIsSafe(homes: seq<Home>, actions: seq<Action>, logins: seq<HomeWrite>, accounts: Accounts, n: nat)
    requires Run(homes, actions, logins, accounts) && n < |homes|
    ensures Safe(homes[n])
  {
    RunKeepsInv(homes, actions, logins, accounts, n);
    if homes[n].phase.Running? {
      RunningKept(homes[n]);
      RunningMatches(homes[n]);
    }
  }

  /** No step but the person's own takes a login away. */
  lemma {:induction false} OnlyThePersonLoses(h: Home, a: Action, h': Home, p: Path)
    requires Next(h, a, h') && a != Lose(p) && FileAt(h'.files, p) == Some(Lost)
    ensures FileAt(h.files, p) == Some(Lost)
  {
    match a
    case Answer(kept, _) => AfterStepsLoseNothing(h.files, h.phase.put, |RestSteps(h.phase.put)|, kept, p);
    case Refuse(stop, _) => RefusalLosesNothing(h.files, h.phase.put, stop, p);
    case _ =>
  }

  lemma {:induction false} StepsLoseNothing(files: Files, steps: seq<ScriptStep>, kept: set<Provider>, p: Path)
    ensures FileAt(RunSteps(files, steps, kept), p) == Some(Lost) ==> FileAt(files, p) == Some(Lost)
  {
    if steps != [] { StepsLoseNothing(files, steps[..|steps| - 1], kept, p); }
  }

  lemma {:induction false} AfterStepsLoseNothing(files: Files, put: Put, n: nat, kept: set<Provider>, p: Path)
    requires n <= |RestSteps(put)|
    ensures FileAt(AfterSteps(files, put, n, kept), p) == Some(Lost) ==> FileAt(files, p) == Some(Lost)
  {
    StepsLoseNothing(files, FirstSteps(put), kept, p);
    StepsLoseNothing(RunSteps(files, FirstSteps(put), kept), RestSteps(put)[..n], kept, p);
  }

  lemma {:induction false} RefusalLosesNothing(files: Files, put: Put, stop: Stop, p: Path)
    requires StopOk(files, put, stop)
    ensures FileAt(AfterStop(files, put, stop), p) == Some(Lost) ==> FileAt(files, p) == Some(Lost)
  {
    match stop
    case Early(_) =>
    case AtKey(n, made) => StepsLoseNothing(files, FirstSteps(put)[..n], {}, p);
    case AtMerged(n, kept, _) => AfterStepsLoseNothing(files, put, n, kept, p);
  }

  lemma {:induction false} StartsWithAll(h: Home, logins: seq<HomeWrite>, accounts: Accounts, p: Path)
    requires Starts(h, logins, accounts)
    ensures FileAt(h.files, p) != Some(Lost)
  {
    assert p in h.files ==> exists w :: w in logins && w.path == p;
  }

  ghost predicate LostSince(homes: seq<Home>, p: Path, i: nat, n: nat)
    requires n < |homes|
  {
    forall j | i < j <= n :: FileAt(homes[j].files, p) == Some(Lost)
  }

  /** A login missing from its file was taken away by the person, and nothing was written there since. So
      a ready row in a safe home names the login in its file, or one the person took away. */
  lemma {:induction false} LostWasTakenAway(homes: seq<Home>, actions: seq<Action>, logins: seq<HomeWrite>, accounts: Accounts, n: nat,
                                           p: Path)
    requires Run(homes, actions, logins, accounts) && n < |homes| && FileAt(homes[n].files, p) == Some(Lost)
    ensures exists i :: 0 <= i < n && actions[i] == Lose(p) && LostSince(homes, p, i, n)
  {
    StartsWithAll(homes[0], logins, accounts, p);
    if actions[n - 1] == Lose(p) {
      assert LostSince(homes, p, n - 1, n);
    } else {
      OnlyThePersonLoses(homes[n - 1], actions[n - 1], homes[n], p);
      LostWasTakenAway(homes, actions, logins, accounts, n - 1, p);
      var i :| 0 <= i < n - 1 && actions[i] == Lose(p) && LostSince(homes, p, i, n - 1);
      assert LostSince(homes, p, i, n);
    }
  }

  /** A confirmed removal leaves every ready row and its file. */
  lemma {:induction false} RemovalSparesReady(h: Home, h': Home, r: Row)
    requires Inv(h) && RemoveStep(h, true, h') && r in SettleInDoubt(h.rows) && r.state == Ready
    ensures r in h'.rows && FileAt(h'.files, r.path) == FileAt(h.files, r.path) && Shows(FileAt(h'.files, r.path), ContentOf(r))
  {
    var rows := SettleInDoubt(h.rows);
    SettleInDoubtSound(h.rows, h.files, h.doubt);
    RemoveKeepsSound(h, rows, true, h');
    ForgetsRemoving(rows, r);
    ForgetKept(rows);
    assert Stands(h'.rows, r);
  }

  /** Releasing a home, then carrying out the work that leaves, leaves no row and no Core file. */
  lemma {:induction false} ReleaseEmptiesHome(h: Home, released: Home, emptied: Home)
    requires Inv(h) && Next(h, Release, released) && RemoveStep(released, true, emptied)
    ensures emptied.rows == [] && forall p :: Held(emptied.files, p).None?
  {
    ReleaseSound(h.rows, h.files, h.doubt);
    SettledStaysRemoving(ReleaseHome(h.rows));
    RemovalEmpties(released, emptied);
  }

  lemma {:induction false} RemovalEmpties(h: Home, h': Home)
    requires Sound(h.rows, h.files, h.doubt) && RemoveStep(h, true, h')
    requires forall r | r in SettleInDoubt(h.rows) :: r.state == Removing
    ensures h'.rows == [] && forall p :: Held(h'.files, p).None?
  {
    var rows := SettleInDoubt(h.rows);
    SettleInDoubtSound(h.rows, h.files, h.doubt);
    RemoveKeepsSound(h, rows, true, h');
    forall r ensures r !in h'.rows { ForgetsRemoving(rows, r); }
    SomeRow(h'.rows);
    assert forall p :: !RowAt(h'.rows, p);
  }

  lemma {:induction false} SomeRow(rows: seq<Row>)
    ensures rows == [] || exists r :: r in rows
  {
    if rows != [] { assert rows[0] in rows; }
  }

  lemma {:induction false} SettledStaysRemoving(rows: seq<Row>)
    requires forall r | r in rows :: r.state == Removing
    ensures forall r | r in SettleInDoubt(rows) :: r.state == Removing
  {
  }

  // ---------------------------------------------------------------------------------------------
  // An account archived while its login is being written
  // ---------------------------------------------------------------------------------------------

  const HELD_ROW := Row("held", Claude, "b", 1, LoginFile(Claude), Subscription, Ready)
  const WRITTEN := HomeWrite(Selection(Claude, "a", 1, Subscription), None, "written", LoginFile(Claude))
  const WRITING := Put("owner", [WRITTEN], [], [], [])
  const ACCOUNTS: Accounts := map["a" := Account("owner", Claude, 1, Active)]

  /** Archiving does not look at what a put has in flight, and then a ready row can name a login that is
      no longer in its file: account b's login is ready, a put writes account a's over it, a is archived
      before the put is settled, the answer is lost and the write lands. */
  lemma {:induction false} ArchivedMidPutMisreports()
    ensures var start := BeginHomeWrite([HELD_ROW], ACCOUNTS, WRITING);
            var landed := Lands(map[LoginFile(Claude) := There(Content("b", 1))], Store(WRITTEN.path, Wanted(WRITTEN.selection)));
            && start.Begun? && IsEffect(WRITING, Store(WRITTEN.path, Wanted(WRITTEN.selection)))
            && !ArchiveSafe(start.rows, WRITTEN.selection.accountId)
            && !Matches(SettleInDoubt(ArchiveRows(start.rows, {WRITTEN.selection.accountId})), landed)
  {
    ExampleBegins();
    ExampleWrites();
    WrittenOverUnmarked(HELD_ROW, WRITTEN, map[LoginFile(Claude) := There(Content("b", 1))]);
  }

  lemma {:induction false} ExampleWrites()
    ensures IsEffect(WRITING, Store(WRITTEN.path, Wanted(WRITTEN.selection)))
    ensures HELD_ROW.state == Ready && WRITTEN.path == HELD_ROW.path && HELD_ROW.accountId != WRITTEN.selection.accountId
  {
    assert WRITTEN in WRITING.writes;
  }

  /** A row left ready where a put in flight writes another login. */
  lemma {:induction false} WrittenOverUnmarked(held: Row, w: HomeWrite, files: Files)
    requires held.state == Ready && w.path == held.path && held.accountId != w.selection.accountId
    ensures var rows := [held, NewRow(w)];
            var archived := ArchiveRows(rows, {w.selection.accountId});
            && !ArchiveSafe(rows, w.selection.accountId)
            && !Matches(SettleInDoubt(archived), Lands(files, Store(w.path, Wanted(w.selection))))
  {
    var rows := [held, NewRow(w)];
    var archived := ArchiveRows(rows, {w.selection.accountId});
    assert archived == [held, Retire(NewRow(w))];
    assert !PendingAt(archived, held.path);
    assert SettleInDoubt(archived)[0] == held;
    assert rows[0] in rows && rows[1] in rows && archived[0] in archived && SettleInDoubt(archived)[0] in SettleInDoubt(archived);
    assert PendingAt(rows, held.path);
    SettleInDoubtOnlyRetires(archived);
    OverwrittenIsSeen(SettleInDoubt(archived), held, files, Wanted(w.selection));
  }

  lemma {:induction false} OverwrittenIsSeen(rows: seq<Row>, held: Row, files: Files, content: Content)
    requires held in rows && held.state == Ready && NonePending(rows) && ContentOf(held) != content
    ensures !Matches(rows, Lands(files, Store(held.path, content)))
  {
    assert Stands(rows, held);
  }

  lemma {:induction false} SettleInDoubtOnlyRetires(rows: seq<Row>)
    ensures forall s | s in SettleInDoubt(rows) :: s.state != Pending
  {
    forall s | s in SettleInDoubt(rows) ensures s.state != Pending {
      var r :| r in rows && s == if PendingAt(rows, r.path) && r.state != Removing then Retire(r) else r;
    }
  }

  lemma {:induction false} ExampleBegins()
    ensures var start := BeginHomeWrite([HELD_ROW], ACCOUNTS, WRITING);
            start.Begun? && start.rows == [HELD_ROW, NewRow(WRITTEN)]
  {
    assert WRITING.writes[..0] == [];
    assert BeginWrites([HELD_ROW], ACCOUNTS, "owner", []) == Some(Progress([HELD_ROW], []));
    var begun := BeginWrites([HELD_ROW], ACCOUNTS, "owner", WRITING.writes);
    assert begun.Some? && begun.value.rows == [HELD_ROW, NewRow(WRITTEN)];
    var retired := RetiredIds(begun.value.rows, WRITING);
    assert forall id :: id !in retired;
    assert RetireIds(begun.value.rows, retired) == begun.value.rows;
  }

  /** The example is a state of the protocol: a sound home on which the put begins and runs. */
  lemma {:induction false} ExampleRuns() returns (h: Home, h': Home)
    ensures h.rows == [HELD_ROW] && Inv(h) && Next(h, Begin(WRITING, ACCOUNTS), h') && RunningOk(h')
  {
    var start := BeginHomeWrite([HELD_ROW], ACCOUNTS, WRITING);
    ExampleBegins();
    ExampleIsSound();
    h := Home([HELD_ROW], map[LoginFile(Claude) := There(Content("b", 1))], {}, Idle);
    h' := Home(start.rows, h.files, {}, Running([HELD_ROW], WRITING, start.intent, {}));
    StepKeepsInv(h, Begin(WRITING, ACCOUNTS), h');
  }

  lemma {:induction false} ExampleIsSound()
    ensures Sound([HELD_ROW], map[LoginFile(Claude) := There(Content("b", 1))], {})
    ensures PutOk([HELD_ROW], WRITING) && SettleInDoubt([HELD_ROW]) == [HELD_ROW]
  {
    assert [HELD_ROW][0] in [HELD_ROW] && !IsKeyRow(HELD_ROW);
    assert !PendingAt([HELD_ROW], LoginFile(Claude));
  }
}

