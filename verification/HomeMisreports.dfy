/** Which puts settle soundly however they are refused, and refusals after which the rows and the files
    part: a login left in a file with no row, or a ready row that names a login no longer in its file. */
module HomeMisreports {
  import opened Wrappers
  import opened Placements
  import opened HomeScript
  import opened HomeProtocol
  import opened HomeSafety
  import opened HomeRefusals

  // ---------------------------------------------------------------------------------------------
  // Puts that settle soundly however they are refused
  // ---------------------------------------------------------------------------------------------

  predicate MergedRefusable(s: ScriptStep) {
    match s
    case WriteLogin(w) => KindOf(w.selection) == Merged
    case RemoveLogin(provider) => IsMerged(provider)
    case _ => false
  }

  /** A login written before a key that may be refused. */
  ghost predicate ExposedToKeys(files: Files, put: Put, e: Effect) {
    exists i, n | 0 <= i < n < |FirstSteps(put)| ::
      KeyMayRefuse(files, FirstSteps(put)[n]) && FirstSteps(put)[i].WriteLogin? && e == EffectOf(FirstSteps(put)[i], {})
  }

  /** A merge or removal before a merged login that may be refused. */
  ghost predicate ExposedToMerges(files: Files, put: Put, kept: set<Provider>, e: Effect) {
    && KeptOk(files, put, kept)
    && exists i, n | 0 <= i < n < |RestSteps(put)| ::
         MergedRefusable(RestSteps(put)[n]) && e == EffectOf(RestSteps(put)[i], kept)
  }

  /** An effect of a put's script that a refusal of a later step does not report. */
  ghost predicate Exposed(files: Files, put: Put, e: Effect) {
    ExposedToKeys(files, put, e) || exists kept :: ExposedToMerges(files, put, kept, e)
  }

  ghost predicate BearsExposed(files: Files, base: seq<Row>, put: Put, archived: set<AccountId>, accounts: Accounts) {
    forall e | Exposed(files, put, e) :: FoundLost(files, e) || Borne(base, put, archived, accounts, e)
  }

  lemma {:induction false} UnreportedIsExposed(files: Files, put: Put, stop: Stop, e: Effect)
    requires StopOk(files, put, stop) && Unreported(put, stop, e)
    ensures Exposed(files, put, e)
  {
    var before := StepsBefore(put, stop);
    var s :| s in before && UnreportedStep(s, stop) && e == EffectOf(s, KeptBy(stop));
    var i :| 0 <= i < |before| && before[i] == s;
    match stop
    case AtKey(n, made) => assert FirstSteps(put)[i] == s && ExposedToKeys(files, put, e);
    case AtMerged(n, kept, code) => assert RestSteps(put)[i] == s && ExposedToMerges(files, put, kept, e);
  }

  lemma {:induction false} ExposedIsUnreported(files: Files, put: Put, e: Effect) returns (stop: Stop)
    requires Exposed(files, put, e)
    ensures StopOk(files, put, stop) && Unreported(put, stop, e)
  {
    if ExposedToKeys(files, put, e) {
      stop := StopsAtKey(files, put, e);
    } else {
      var kept :| ExposedToMerges(files, put, kept, e);
      stop := StopsAtMerged(files, put, kept, e);
    }
  }

  lemma {:induction false} StopsAtKey(files: Files, put: Put, e: Effect) returns (stop: Stop)
    requires ExposedToKeys(files, put, e)
    ensures StopOk(files, put, stop) && Unreported(put, stop, e)
  {
    var steps := FirstSteps(put);
    var i, n :| 0 <= i < n < |steps| && KeyMayRefuse(files, steps[n]) && steps[i].WriteLogin? && e == EffectOf(steps[i], {});
    stop := AtKey(n, {});
    assert steps[..n][i] == steps[i] && steps[i] in StepsBefore(put, stop) && UnreportedStep(steps[i], stop);
  }

  lemma {:induction false} StopsAtMerged(files: Files, put: Put, kept: set<Provider>, e: Effect) returns (stop: Stop)
    requires ExposedToMerges(files, put, kept, e)
    ensures StopOk(files, put, stop) && Unreported(put, stop, e)
  {
    var steps := RestSteps(put);
    var i, n :| 0 <= i < n < |steps| && MergedRefusable(steps[n]) && e == EffectOf(steps[i], kept);
    stop := AtMerged(n, kept, UnusableExit(if steps[n].WriteLogin? then steps[n].write.selection.provider else steps[n].provider));
    assert steps[..n][i] == steps[i] && steps[i] in StepsBefore(put, stop) && UnreportedStep(steps[i], stop);
  }

  ghost predicate SettlesSoundly(h: Home, accounts: Accounts, stop: Stop)
    requires h.phase.Running? && StopOk(h.files, h.phase.put, stop)
  {
    Sound(SettledHome(h, accounts, stop), AfterStop(h.files, h.phase.put, stop), DoubtAfter(h.doubt, stop))
  }

  /** Exactly which puts settle soundly wherever they are refused: those whose every effect that comes
      before a key or merged login that may be refused is borne by the rows they began on. */
  lemma {:induction false} HoweverRefused(h: Home, accounts: Accounts)
    requires RunningOk(h)
    ensures (forall stop | StopOk(h.files, h.phase.put, stop) :: SettlesSoundly(h, accounts, stop))
            <==> BearsExposed(h.files, h.phase.base, h.phase.put, h.phase.archived, accounts)
  {
    var base, put, archived := h.phase.base, h.phase.put, h.phase.archived;
    forall stop | StopOk(h.files, put, stop)
      ensures SettlesSoundly(h, accounts, stop) <==> RefusalSafe(h.files, base, put, archived, accounts, stop)
    {
      RefusalExactly(h, accounts, stop);
    }
    forall stop, e | StopOk(h.files, put, stop) && Unreported(put, stop, e) ensures Exposed(h.files, put, e) {
      UnreportedIsExposed(h.files, put, stop, e);
    }
    forall e | Exposed(h.files, put, e) ensures exists stop :: StopOk(h.files, put, stop) && Unreported(put, stop, e) {
      var stop := ExposedIsUnreported(h.files, put, e);
    }
  }

  /** Such are the puts that write no Claude key, find no kept one missing, and whose only merged login, if
      any, comes before all they remove. */
  lemma {:induction false} OneMergedIsSafe(h: Home, accounts: Accounts, stop: Stop)
    requires RunningOk(h) && StopOk(h.files, h.phase.put, stop)
    requires forall w | w in h.phase.put.writes :: KindOf(w.selection) != ClaudeKey
    requires forall k | k in h.phase.put.keptKeys :: Held(h.files, KeyFile(k.id)).Some?
    requires forall n | 0 < n < |RestSteps(h.phase.put)| :: !MergedRefusable(RestSteps(h.phase.put)[n])
    ensures SettlesSoundly(h, accounts, stop)
  {
    NoKeyRefuses(h.files, h.phase.put);
    assert stop.AtMerged? ==> stop.n == 0;
    RefusalExactly(h, accounts, stop);
  }

  lemma {:induction false} NoKeyRefuses(files: Files, put: Put)
    requires forall w | w in put.writes :: KindOf(w.selection) != ClaudeKey
    requires forall k | k in put.keptKeys :: Held(files, KeyFile(k.id)).Some?
    ensures forall n | 0 <= n < |FirstSteps(put)| :: !KeyMayRefuse(files, FirstSteps(put)[n])
  {
    forall n | 0 <= n < |FirstSteps(put)| ensures !KeyMayRefuse(files, FirstSteps(put)[n]) {
      assert FirstSteps(put)[n] in FirstSteps(put) && IsFirst(put, FirstSteps(put)[n]);
    }
  }

  // ---------------------------------------------------------------------------------------------
  // Refusals after which rows and files part
  // ---------------------------------------------------------------------------------------------

  const OWNED: Accounts := map["a" := Account("owner", Codex, 1, Active), "b" := Account("owner", Codex, 1, Active),
                               "c" := Account("owner", Claude, 1, Active)]
  const PI_LOGIN := HomeWrite(Selection(Pi, "a", 1, Subscription), None, "pi", LoginFile(Pi))
  const OPENCODE_LOGIN := HomeWrite(Selection(Opencode, "a", 1, Subscription), None, "opencode", LoginFile(Opencode))
  const CODEX_LOGIN := HomeWrite(Selection(Codex, "a", 1, Subscription), None, "codex", LoginFile(Codex))
  const CLAUDE_API_KEY := HomeWrite(Selection(Claude, "c", 1, ApiKey("key")), None, "key", KeyFile("key"))

  function ReadyRow(provider: Provider, accountId: AccountId): Row {
    Row("ready", provider, accountId, 1, LoginFile(provider), Subscription, Ready)
  }

  /** An empty home, or one with a ready row and the login it names in its file. */
  function Holding(held: Option<Row>): Home {
    match held
    case None => Home([], map[], {}, Idle)
    case Some(r) => Home([r], map[r.path := There(ContentOf(r))], {}, Idle)
  }

  lemma {:induction false} HoldingIsSound(held: Option<Row>)
    requires held.Some? ==> held.value == ReadyRow(held.value.provider, held.value.accountId)
    ensures Inv(Holding(held)) && NonePending(Holding(held).rows)
  {
    var rows := Holding(held).rows;
    if held.Some? {
      assert rows[0] in rows;
      assert RowAt(rows, held.value.path);
    }
  }

  lemma {:induction false} FreshWritesBegin(rows: seq<Row>, accounts: Accounts, owner: string, writes: seq<HomeWrite>)
    requires forall w | w in writes :: w.reuse.None? && !Moved(accounts, owner, w.selection)
    ensures BeginWrites(rows, accounts, owner, writes).Some?
  {
    if writes != [] {
      assert forall w | w in writes[..|writes| - 1] :: w in writes;
      FreshWritesBegin(rows, accounts, owner, writes[..|writes| - 1]);
      assert writes[|writes| - 1] in writes;
    }
  }

  /** A put of new logins into a home none runs in, whose refusal at `stop` leaves `e` unreported. */
  ghost predicate CaseOk(start: Home, put: Put, stop: Stop, e: Effect) {
    && start.phase.Idle? && Inv(start) && NonePending(start.rows) && PutOk(start.rows, put)
    && (forall w | w in put.writes :: w.reuse.None? && !Moved(OWNED, put.owner, w.selection))
    && (forall k | k in put.keptKeys :: KeptKeyStands(start.rows, OWNED, put.owner, k))
    && StopOk(start.files, put, stop) && Unreported(put, stop, e)
  }

  /** The put once begun there, about to be refused at `stop`. */
  ghost predicate RefusedAt(start: Home, put: Put, stop: Stop, h: Home) {
    && Inv(start) && Next(start, Begin(put, OWNED), h)
    && RunningOk(h) && h.phase.base == start.rows && h.phase.put == put && h.phase.archived == {}
    && h.files == start.files && StopOk(h.files, put, stop)
  }

  lemma {:induction false} Begins(start: Home, put: Put, stop: Stop, e: Effect) returns (h: Home)
    requires CaseOk(start, put, stop, e)
    ensures RefusedAt(start, put, stop, h)
  {
    FreshWritesBegin(start.rows, OWNED, put.owner, put.writes);
    NothingInDoubt(start.rows);
    var begun := BeginHomeWrite(start.rows, OWNED, put);
    h := Home(begun.rows, start.files, start.doubt, Running(start.rows, put, begun.intent, {}));
    BeginRuns(start, put, OWNED, h);
  }

  lemma {:induction false} NothingInDoubt(rows: seq<Row>)
    requires NonePending(rows)
    ensures SettleInDoubt(rows) == rows
  {
    assert forall p :: !PendingAt(rows, p);
  }

  /** A login left where no row was is left with no row. */
  lemma {:induction false} Orphaned(start: Home, put: Put, stop: Stop, e: Effect) returns (h: Home)
    requires CaseOk(start, put, stop, e) && e.Store? && !RowAt(start.rows, e.path)
    ensures RefusedAt(start, put, stop, h)
    ensures !Rowed(SettledHome(h, OWNED, stop), AfterStop(h.files, put, stop))
  {
    h := Begins(start, put, stop, e);
    UnborneMisreports(h, OWNED, stop, e);
  }

  /** A ready row the put does not reuse is ready again over an unreported effect that contradicts it. */
  lemma {:induction false} Misreported(start: Home, b: Row, put: Put, stop: Stop, e: Effect) returns (h: Home)
    requires CaseOk(start, put, stop, e) && b in start.rows && b.state == Ready && b.path == e.path
    requires e != Store(b.path, ContentOf(b)) && !FoundLost(start.files, e) && Unarchived(OWNED, b.accountId)
    ensures RefusedAt(start, put, stop, h)
    ensures !Matches(SettledHome(h, OWNED, stop), AfterStop(h.files, put, stop))
  {
    h := Begins(start, put, stop, e);
    assert ReadyAgain(put, h.phase.archived, OWNED, b);
    assert RowAt(start.rows, e.path);
    UnborneMisreports(h, OWNED, stop, e);
  }

  lemma {:induction false} FirstIsUnreported(put: Put, stop: Stop)
    requires stop.AtMerged? && stop.n == 1 <= |RestSteps(put)|
    ensures Unreported(put, stop, EffectOf(RestSteps(put)[0], stop.kept))
  {
    var s := RestSteps(put)[0];
    assert StepsBefore(put, stop) == [s];
    assert s in StepsBefore(put, stop) && UnreportedStep(s, stop);
  }

  const TWO_MERGED := Put("owner", [PI_LOGIN, OPENCODE_LOGIN], [], [], [])
  const OPENCODE_REFUSED := AtMerged(1, {}, OPENCODE_LOGIN_UNUSABLE)
  const PI_WRITTEN := Store(LoginFile(Pi), Content("a", 1))

  lemma {:induction false} TwoMergedSteps()
    ensures RestSteps(TWO_MERGED) == [WriteLogin(PI_LOGIN), WriteLogin(OPENCODE_LOGIN)]
    ensures Unreported(TWO_MERGED, OPENCODE_REFUSED, PI_WRITTEN)
  {
    assert TWO_MERGED.writes[1..] == [OPENCODE_LOGIN];
    assert WriteSteps([OPENCODE_LOGIN], Merged) == [WriteLogin(OPENCODE_LOGIN)];
    FirstIsUnreported(TWO_MERGED, OPENCODE_REFUSED);
  }

  lemma {:induction false} TwoMergedCase(held: Option<Row>)
    requires held == None || held == Some(ReadyRow(Pi, "b"))
    ensures CaseOk(Holding(held), TWO_MERGED, OPENCODE_REFUSED, PI_WRITTEN)
  {
    hide Inv, Unreported;
    TwoMergedSteps();
    HoldingIsSound(held);
  }

  /** Pi's login is merged, OpenCode's refused, and the refusal reports neither: Pi's row is forgotten and
      its login stays in the file with no row. */
  lemma {:induction false} MergedLoginOrphaned() returns (h: Home)
    ensures RefusedAt(Holding(None), TWO_MERGED, OPENCODE_REFUSED, h)
    ensures !Rowed(SettledHome(h, OWNED, OPENCODE_REFUSED), AfterStop(h.files, TWO_MERGED, OPENCODE_REFUSED))
  {
    TwoMergedCase(None);
    h := Orphaned(Holding(None), TWO_MERGED, OPENCODE_REFUSED, PI_WRITTEN);
  }

  /** The same over another account's ready Pi login: its row stays ready over the new one. */
  lemma {:induction false} MergedLoginMisreported() returns (h: Home)
    ensures RefusedAt(Holding(Some(ReadyRow(Pi, "b"))), TWO_MERGED, OPENCODE_REFUSED, h)
    ensures !Matches(SettledHome(h, OWNED, OPENCODE_REFUSED), AfterStop(h.files, TWO_MERGED, OPENCODE_REFUSED))
  {
    TwoMergedCase(Some(ReadyRow(Pi, "b")));
    h := Misreported(Holding(Some(ReadyRow(Pi, "b"))), ReadyRow(Pi, "b"), TWO_MERGED, OPENCODE_REFUSED, PI_WRITTEN);
  }

  const MERGED_AND_SCRUBBED := Put("owner", [PI_LOGIN], [], [Opencode], [])

  lemma {:induction false} MergedAndScrubbedCase()
    ensures CaseOk(Holding(None), MERGED_AND_SCRUBBED, OPENCODE_REFUSED, PI_WRITTEN)
  {
    hide Inv, Unreported;
    assert WriteSteps([PI_LOGIN], Merged) == [WriteLogin(PI_LOGIN)];
    assert RemoveLoginSteps([Opencode]) == [RemoveLogin(Opencode)];
    assert RestSteps(MERGED_AND_SCRUBBED) == [WriteLogin(PI_LOGIN), RemoveLogin(Opencode)];
    FirstIsUnreported(MERGED_AND_SCRUBBED, OPENCODE_REFUSED);
    HoldingIsSound(None);
  }

  /** So does a put whose only write is Pi's, when it removes OpenCode's and that is refused. */
  lemma {:induction false} ScrubRefusedOrphans() returns (h: Home)
    ensures RefusedAt(Holding(None), MERGED_AND_SCRUBBED, OPENCODE_REFUSED, h)
    ensures !Rowed(SettledHome(h, OWNED, OPENCODE_REFUSED), AfterStop(h.files, MERGED_AND_SCRUBBED, OPENCODE_REFUSED))
  {
    MergedAndScrubbedCase();
    h := Orphaned(Holding(None), MERGED_AND_SCRUBBED, OPENCODE_REFUSED, PI_WRITTEN);
  }

  const TWO_REMOVED := Put("owner", [], [], [Claude, Pi], [])
  const PI_REFUSED := AtMerged(1, {}, PI_LOGIN_UNUSABLE)

  lemma {:induction false} TwoRemovedCase()
    ensures CaseOk(Holding(Some(ReadyRow(Claude, "c"))), TWO_REMOVED, PI_REFUSED, Drop(LoginFile(Claude)))
  {
    assert TWO_REMOVED.removes[1..] == [Pi];
    assert RemoveLoginSteps([Pi]) == [RemoveLogin(Pi)];
    assert RestSteps(TWO_REMOVED) == [RemoveLogin(Claude), RemoveLogin(Pi)];
    FirstIsUnreported(TWO_REMOVED, PI_REFUSED);
    HoldingIsSound(Some(ReadyRow(Claude, "c")));
  }

  /** Claude's file is removed, Pi's refused: Claude's row comes back ready, its file gone. */
  lemma {:induction false} RemovedLoginRestored() returns (h: Home)
    ensures RefusedAt(Holding(Some(ReadyRow(Claude, "c"))), TWO_REMOVED, PI_REFUSED, h)
    ensures !Matches(SettledHome(h, OWNED, PI_REFUSED), AfterStop(h.files, TWO_REMOVED, PI_REFUSED))
  {
    TwoRemovedCase();
    h := Misreported(Holding(Some(ReadyRow(Claude, "c"))), ReadyRow(Claude, "c"), TWO_REMOVED, PI_REFUSED, Drop(LoginFile(Claude)));
  }

  const FILE_AND_KEY := Put("owner", [CODEX_LOGIN, CLAUDE_API_KEY], [], [], [])
  const KEY_REFUSED := AtKey(1, {})
  const CODEX_WRITTEN := Store(LoginFile(Codex), Content("a", 1))

  lemma {:induction false} FileAndKeySteps()
    ensures FirstSteps(FILE_AND_KEY) == [WriteLogin(CODEX_LOGIN), WriteLogin(CLAUDE_API_KEY)]
    ensures Unreported(FILE_AND_KEY, KEY_REFUSED, CODEX_WRITTEN)
  {
    assert FILE_AND_KEY.writes[1..] == [CLAUDE_API_KEY];
    assert WriteSteps([CLAUDE_API_KEY], ClaudeKey) == [WriteLogin(CLAUDE_API_KEY)];
    assert WriteSteps([CLAUDE_API_KEY], WholeFile) == [];
    assert WriteSteps(FILE_AND_KEY.writes, WholeFile) == [WriteLogin(CODEX_LOGIN)];
    assert StepsBefore(FILE_AND_KEY, KEY_REFUSED) == [WriteLogin(CODEX_LOGIN)];
    assert WriteLogin(CODEX_LOGIN) in StepsBefore(FILE_AND_KEY, KEY_REFUSED);
    assert UnreportedStep(WriteLogin(CODEX_LOGIN), KEY_REFUSED);
  }

  lemma {:induction false} FileAndKeyOk()
    ensures PutOk([ReadyRow(Codex, "b")], FILE_AND_KEY)
  {
  }

  lemma {:induction false} FileAndKeyCase()
    ensures CaseOk(Holding(Some(ReadyRow(Codex, "b"))), FILE_AND_KEY, KEY_REFUSED, CODEX_WRITTEN)
  {
    hide Inv, Unreported, PutOk;
    FileAndKeySteps();
    FileAndKeyOk();
    HoldingIsSound(Some(ReadyRow(Codex, "b")));
  }

  /** A key refused after a file that was there was written over: only files the script made are taken
      back, and the row of the login written over comes back ready. */
  lemma {:induction false} OverwrittenLoginMisreported() returns (h: Home)
    ensures RefusedAt(Holding(Some(ReadyRow(Codex, "b"))), FILE_AND_KEY, KEY_REFUSED, h)
    ensures !Matches(SettledHome(h, OWNED, KEY_REFUSED), AfterStop(h.files, FILE_AND_KEY, KEY_REFUSED))
  {
    FileAndKeyCase();
    h := Misreported(Holding(Some(ReadyRow(Codex, "b"))), ReadyRow(Codex, "b"), FILE_AND_KEY, KEY_REFUSED, CODEX_WRITTEN);
  }

  const KEY_ROW := Row("key", Claude, "c", 1, KeyFile("key"), ApiKey("key"), Ready)
  const CODEX_ROW := ReadyRow(Codex, "b")
  const KEY_HELD := Home([CODEX_ROW, KEY_ROW], map[LoginFile(Codex) := There(ContentOf(CODEX_ROW)),
                                                   KeyFile("key") := There(ContentOf(KEY_ROW))], {}, Idle)
  const KEY_MISSING := KEY_HELD.(files := KEY_HELD.files[KeyFile("key") := Lost])
  const KEPT_KEY := KeptKey(Selection(Claude, "c", 1, ApiKey("key")), "key")
  const FILE_AND_KEPT_KEY := Put("owner", [CODEX_LOGIN], [KEPT_KEY], [], [])

  lemma {:induction false} KeyHeldIsSound()
    ensures Inv(KEY_HELD) && NonePending(KEY_HELD.rows)
  {
    var rows := KEY_HELD.rows;
    assert rows[0] in rows && rows[1] in rows;
    assert RowAt(rows, LoginFile(Codex)) && RowAt(rows, KeyFile("key"));
  }

  lemma {:induction false} KeyMissingIsSound()
    ensures Next(KEY_HELD, Lose(KeyFile("key")), KEY_MISSING) && Inv(KEY_MISSING) && NonePending(KEY_MISSING.rows)
  {
    hide Sound;
    KeyHeldIsSound();
    LoseSound(KEY_HELD.rows, KEY_HELD.files, {}, KeyFile("key"));
  }

  lemma {:induction false} FileAndKeptKeySteps()
    ensures FirstSteps(FILE_AND_KEPT_KEY) == [WriteLogin(CODEX_LOGIN), RestoreKey(KEPT_KEY)]
    ensures Unreported(FILE_AND_KEPT_KEY, KEY_REFUSED, CODEX_WRITTEN)
  {
    assert WriteSteps([CODEX_LOGIN], WholeFile) == [WriteLogin(CODEX_LOGIN)];
    assert WriteSteps([CODEX_LOGIN], ClaudeKey) == [];
    assert RestoreSteps([KEPT_KEY]) == [RestoreKey(KEPT_KEY)];
    assert StepsBefore(FILE_AND_KEPT_KEY, KEY_REFUSED) == [WriteLogin(CODEX_LOGIN)];
    assert WriteLogin(CODEX_LOGIN) in StepsBefore(FILE_AND_KEPT_KEY, KEY_REFUSED);
    assert UnreportedStep(WriteLogin(CODEX_LOGIN), KEY_REFUSED);
  }

  lemma {:induction false} FileAndKeptKeyOk()
    ensures PutOk(KEY_MISSING.rows, FILE_AND_KEPT_KEY) && KeptKeyStands(KEY_MISSING.rows, OWNED, "owner", KEPT_KEY)
  {
    assert KEY_MISSING.rows[1..] == [KEY_ROW];
    assert Find([KEY_ROW], "key") == Some(KEY_ROW);
  }

  lemma {:induction false} FileAndKeptKeyCase()
    ensures CaseOk(KEY_MISSING, FILE_AND_KEPT_KEY, KEY_REFUSED, CODEX_WRITTEN)
  {
    hide Inv, Unreported, PutOk, KeptKeyStands;
    FileAndKeptKeySteps();
    FileAndKeptKeyOk();
    KeyMissingIsSound();
  }

  /** So does restoring a key the person took away, though the put writes no key and no merged login: the
      Codex login written over before the restore was refused is reported by no one. */
  lemma {:induction false} RestoreRefusedMisreports() returns (h: Home)
    ensures Next(KEY_HELD, Lose(KeyFile("key")), KEY_MISSING) && RefusedAt(KEY_MISSING, FILE_AND_KEPT_KEY, KEY_REFUSED, h)
    ensures !Matches(SettledHome(h, OWNED, KEY_REFUSED), AfterStop(h.files, FILE_AND_KEPT_KEY, KEY_REFUSED))
  {
    KeyMissingIsSound();
    FileAndKeptKeyCase();
    assert KEY_MISSING.rows[0] == CODEX_ROW && CODEX_ROW in KEY_MISSING.rows;
    h := Misreported(KEY_MISSING, CODEX_ROW, FILE_AND_KEPT_KEY, KEY_REFUSED, CODEX_WRITTEN);
  }
}
