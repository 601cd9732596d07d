/** The begin/settle write protocol of one home as a state machine beside the files the executor
    really holds, with every write that may still land late. The rows are those of `Placements`, the
    script that of `HomeScript`; when its answers are lost, and how they are settled, follows
    packages/workspaces/src/worker/home-placements.ts. */
module HomeProtocol {
  import opened Wrappers
  import opened Placements
  import opened HomeScript

  // ---------------------------------------------------------------------------------------------
  // What holds between rows, files and writes in doubt
  // ---------------------------------------------------------------------------------------------

  ghost predicate RowAt(rows: seq<Row>, path: Path) {
    exists r :: r in rows && r.path == path
  }

  /** Ids are unique, and a row's path is the one its login has in the home. */
  ghost predicate WellKept(rows: seq<Row>) {
    && (forall r, s | r in rows && s in rows && r.id == s.id :: r == s)
    && forall r | r in rows :: r.path == PlacementPath(r.provider, r.login, r.id)
  }

  ghost predicate OneReady(rows: seq<Row>) {
    forall r, s | r in rows && s in rows && r.state == Ready && s.state == Ready && r.path == s.path :: r == s
  }

  ghost predicate NonePending(rows: seq<Row>) {
    forall r | r in rows :: r.state != Pending
  }

  /** A ready row whose path nothing is being written to. */
  predicate Stands(rows: seq<Row>, r: Row) {
    r.state == Ready && !PendingAt(rows, r.path)
  }

  /** Every ready row whose path has no pending row names the login really in its file, unless the person
      took it away. */
  ghost predicate Matches(rows: seq<Row>, files: Files) {
    forall r | r in rows && Stands(rows, r) :: Shows(FileAt(files, r.path), ContentOf(r))
  }

  /** Every Core login in a file has a row at its path. */
  ghost predicate Rowed(rows: seq<Row>, files: Files) {
    forall p | Held(files, p).Some? :: RowAt(rows, p)
  }

  /** An effect that may land at any moment: it contradicts no standing row, and leaves no orphan. */
  ghost predicate Harmless(rows: seq<Row>, e: Effect) {
    match e
    case Store(path, content) =>
      RowAt(rows, path) && forall r | r in rows && Stands(rows, r) && r.path == path :: ContentOf(r) == content
    case Drop(path) =>
      forall r | r in rows && r.path == path :: !Stands(rows, r)
  }

  ghost predicate AllHarmless(rows: seq<Row>, doubt: set<Effect>) {
    forall e | e in doubt :: Harmless(rows, e)
  }

  ghost predicate Sound(rows: seq<Row>, files: Files, doubt: set<Effect>) {
    && WellKept(rows) && OneReady(rows)
    && Matches(rows, files) && Rowed(rows, files) && AllHarmless(rows, doubt)
  }

  // ---------------------------------------------------------------------------------------------
  // The premises of a put, and the effects of its script
  // ---------------------------------------------------------------------------------------------

  predicate Reuses(w: HomeWrite, id: Id) {
    w.reuse == Some(id)
  }

  predicate Reused(writes: seq<HomeWrite>, id: Id) {
    exists w :: w in writes && Reuses(w, id)
  }

  /** A write either reuses the ready row at its provider's own file, or inserts a fresh row. */
  ghost predicate WriteOk(rows: seq<Row>, put: Put, w: HomeWrite) {
    && w.selection.provider !in put.removes
    && w.path == PlacementPath(w.selection.provider, w.selection.login, w.id)
    && if w.reuse.Some? then
         && w.reuse.value == w.id && !IsKey(w.selection.provider, w.selection.login)
         && exists b :: b in rows && b.id == w.id && b.state == Ready && b.provider == w.selection.provider
                        && b.accountId == w.selection.accountId && !IsKeyRow(b)
       else
         forall r | r in rows :: r.id != w.id
  }

  ghost predicate DistinctWrites(writes: seq<HomeWrite>) {
    forall v, w | v in writes && w in writes ::
      (v.id == w.id || v.selection.provider == w.selection.provider) ==> v == w
  }

  /** The premises of one put: its writes name distinct providers, none it also removes, and fresh
      ids; the keys it keeps or removes are key rows of the home. */
  ghost predicate PutOk(rows: seq<Row>, put: Put) {
    && (forall i, j | 0 <= i < j < |put.writes| :: put.writes[i] != put.writes[j])
    && DistinctWrites(put.writes)
    && (forall w | w in put.writes :: WriteOk(rows, put, w))
    && (forall k | k in put.keptKeys :: forall r | r in rows && r.id == k.id :: IsKeyRow(r))
    && (forall id | id in put.removedKeys :: exists r :: r in rows && r.id == id && IsKeyRow(r))
  }

  /** What an executor may do with one effect of the put's script, whenever it lands. */
  ghost predicate IsEffect(put: Put, e: Effect) {
    match e
    case Store(path, content) =>
      || (exists w :: w in put.writes && path == w.path && content == Wanted(w.selection))
      || (exists k :: k in put.keptKeys && path == KeyFile(k.id) && content == Wanted(k.selection))
    case Drop(path) =>
      || DropsPath(put, path)
      || (exists w :: w in put.writes && KindOf(w.selection) == Merged && path == w.path)
  }

  ghost predicate Effects(put: Put, effects: set<Effect>) {
    forall e :: e in effects <==> IsEffect(put, e)
  }

  // ---------------------------------------------------------------------------------------------
  // The machine
  // ---------------------------------------------------------------------------------------------

  /** A put that has begun and is not settled: the rows it began on, and the accounts archived
      since. */
  datatype Phase =
    | Idle
    | Running(base: seq<Row>, put: Put, intent: Intent, archived: set<AccountId>)

  datatype Home = Home(rows: seq<Row>, files: Files, doubt: set<Effect>, phase: Phase)

  function ArchiveRow(archived: set<AccountId>, r: Row): Row {
    if r.accountId in archived then Retire(r) else r
  }

  function ArchiveRows(rows: seq<Row>, archived: set<AccountId>): seq<Row> {
    MapRows(rows, (r: Row) => ArchiveRow(archived, r))
  }

  /** A row another account's archiving leaves standing: pending rows of that account were all that
      marked its path. */
  ghost predicate StandsAnew(rows: seq<Row>, accountId: AccountId, r: Row) {
    && r in rows && r.state == Ready && r.accountId != accountId
    && PendingAt(rows, r.path) && !PendingAt(ArchiveRows(rows, {accountId}), r.path)
  }

  /** Archiving an account while a put runs is safe when it leaves no other row standing anew. */
  ghost predicate ArchiveSafe(rows: seq<Row>, accountId: AccountId) {
    forall r | r in rows :: !StandsAnew(rows, accountId, r)
  }

  /** With no put running, it is when each row it leaves standing anew names the login in its file, and
      no write in doubt there is another one. */
  ghost predicate LeftArchiveSafe(rows: seq<Row>, files: Files, doubt: set<Effect>, accountId: AccountId) {
    forall r | r in rows && StandsAnew(rows, accountId, r) ::
      && Shows(FileAt(files, r.path), ContentOf(r))
      && forall e | e in doubt && e.path == r.path :: e == Store(r.path, ContentOf(r))
  }

  /** A row the put began on that is ready again once the put is settled as refused. */
  predicate ReadyAgain(put: Put, archived: set<AccountId>, accounts: Accounts, b: Row) {
    && b.state == Ready
    && (RetiredBy(put, b) || b.accountId !in archived)
    && (RetiredBy(put, b) || Reused(put.writes, b.id) ==> Unarchived(accounts, b.accountId))
  }

  /** An effect the rows a put began on bear although the refusal does not report it: a login has a row
      at its path, and no row ready again there names another; at a removed one, none is ready again. */
  ghost predicate Borne(base: seq<Row>, put: Put, archived: set<AccountId>, accounts: Accounts, e: Effect) {
    match e
    case Store(path, content) =>
      && RowAt(base, path)
      && forall b | b in base && b.path == path && ReadyAgain(put, archived, accounts, b) :: ContentOf(b) == content
    case Drop(path) =>
      forall b | b in base && b.path == path :: !ReadyAgain(put, archived, accounts, b)
  }

  /** A removal that found the login taken away by the person already. */
  predicate FoundLost(files: Files, e: Effect) {
    e.Drop? && FileAt(files, e.path) == Some(Lost)
  }

  /** Settling a refusal is safe for the protocol when the rows bear every effect it does not report. */
  ghost predicate RefusalSafe(files: Files, base: seq<Row>, put: Put, archived: set<AccountId>, accounts: Accounts, stop: Stop) {
    forall e | Unreported(put, stop, e) :: FoundLost(files, e) || Borne(base, put, archived, accounts, e)
  }

  datatype Action =
    | Begin(put: Put, accounts: Accounts)
    | Crash(effects: set<Effect>)
    | Answer(kept: set<Provider>, settledBy: Option<Accounts>)
    | Refuse(stop: Stop, settledBy: Option<Accounts>)
    | Late(effect: Effect)
    | Lose(path: Path)
    | ArchiveAccount(accountId: AccountId)
    | Prune(live: seq<Id>, defaults: set<AccountId>, accounts: Accounts)
    | Remove(confirmed: bool)
    | Release
    | Emptied

  predicate Removes(work: Removal, p: Path) {
    match p
    case LoginFile(provider) => provider in work.removes
    case KeyFile(id) => id in work.removedKeys
  }

  ghost predicate RemovedFiles(files: Files, work: Removal, after: Files) {
    forall p :: FileAt(after, p) == if Removes(work, p) then None else FileAt(files, p)
  }

  function Forget(rows: seq<Row>, work: Removal): seq<Row> {
    Without(rows, work.forget)
  }

  ghost predicate BeginStep(h: Home, put: Put, accounts: Accounts, h': Home) {
    var base := SettleInDoubt(h.rows);
    && h.phase.Idle? && PutOk(base, put) && h'.files == h.files && h'.doubt == h.doubt
    && (match BeginHomeWrite(base, accounts, put)
        case AccountsMoved => h'.rows == base && h'.phase == Idle
        case Begun(rows, intent) => h'.rows == rows && h'.phase == Running(base, put, intent, {}))
  }

  ghost predicate CrashStep(h: Home, effects: set<Effect>, h': Home) {
    h.phase.Running? && Effects(h.phase.put, effects) && h' == Home(h.rows, h.files, h.doubt + effects, Idle)
  }

  /** What is left of the rows of an answered put: settled, unless Core stopped before it settled them. */
  function AnsweredRows(h: Home, outcome: Outcome, settledBy: Option<Accounts>): seq<Row>
    requires h.phase.Running?
  {
    match settledBy
    case None => h.rows
    case Some(accounts) => SettleHomeWrite(h.rows, accounts, h.phase.intent, outcome)
  }

  /** A put whose script finished, but for the merged logins it left to the person's own. Its fencing
      token got through, so no earlier write is in doubt any more. */
  ghost predicate AnswerStep(h: Home, kept: set<Provider>, settledBy: Option<Accounts>, h': Home) {
    && h.phase.Running? && (forall p | p in kept :: IsMerged(p)) && KeptOk(h.files, h.phase.put, kept)
    && h' == Home(AnsweredRows(h, DoneOf(h.phase.put, kept), settledBy),
                  AfterSteps(h.files, h.phase.put, |RestSteps(h.phase.put)|, kept), {}, Idle)
  }

  /** The writes still in doubt after a refusal: all the earlier ones when it came before anything was
      written, for its fencing token may not have got through. */
  function DoubtAfter(doubt: set<Effect>, stop: Stop): set<Effect> {
    if stop.Early? then doubt else {}
  }

  /** A put whose script was refused. It is settled only where that is safe. */
  ghost predicate RefuseStep(h: Home, stop: Stop, settledBy: Option<Accounts>, h': Home) {
    && h.phase.Running? && StopOk(h.files, h.phase.put, stop)
    && h' == Home(AnsweredRows(h, RefusalOf(h.phase.put, stop), settledBy), AfterStop(h.files, h.phase.put, stop),
                  DoubtAfter(h.doubt, stop), Idle)
    && (settledBy.Some? ==> RefusalSafe(h.files, h.phase.base, h.phase.put, h.phase.archived, settledBy.value, stop))
  }

  ghost predicate LateStep(h: Home, e: Effect, h': Home) {
    e in h.doubt && h' == h.(files := Lands(h.files, e))
  }

  /** The person takes a Core login away, at any moment. */
  ghost predicate LoseStep(h: Home, p: Path, h': Home) {
    Held(h.files, p).Some? && h' == h.(files := h.files[p := Lost])
  }

  ghost predicate ArchiveStep(h: Home, accountId: AccountId, h': Home) {
    && (if h.phase.Idle? then LeftArchiveSafe(h.rows, h.files, h.doubt, accountId) else ArchiveSafe(h.rows, accountId))
    && h' == h.(rows := ArchiveRows(h.rows, {accountId}),
                phase := if h.phase.Idle? then Idle else h.phase.(archived := h.phase.archived + {accountId}))
  }

  /** The removal of what is left: no script when there is no file to remove; otherwise the rows go
      only once the script is confirmed. */
  ghost predicate RemoveStep(h: Home, confirmed: bool, h': Home) {
    var rows := SettleInDoubt(h.rows);
    var work := RemovalWork(rows);
    && h.phase.Idle? && h'.phase == Idle
    && if work.removes == {} && work.removedKeys == {} then
         h'.rows == Forget(rows, work) && h'.files == h.files && h'.doubt == h.doubt
       else if confirmed then
         h'.rows == Forget(rows, work) && RemovedFiles(h.files, work, h'.files) && h'.doubt == {}
       else
         && h'.rows == rows && h'.files == h.files
         && forall e :: e in h'.doubt <==> e in h.doubt || (e.Drop? && Removes(work, e.path))
  }

  ghost predicate Next(h: Home, a: Action, h': Home) {
    match a
    case Begin(put, accounts) => BeginStep(h, put, accounts, h')
    case Crash(effects) => CrashStep(h, effects, h')
    case Answer(kept, settledBy) => AnswerStep(h, kept, settledBy, h')
    case Refuse(stop, settledBy) => RefuseStep(h, stop, settledBy, h')
    case Late(e) => LateStep(h, e, h')
    case Lose(p) => LoseStep(h, p, h')
    case ArchiveAccount(accountId) => ArchiveStep(h, accountId, h')
    case Prune(live, defaults, accounts) =>
      h.phase.Idle? && h' == h.(rows := PruneHome(SettleInDoubt(h.rows), live, defaults, accounts))
    case Remove(confirmed) => RemoveStep(h, confirmed, h')
    case Release => h.phase.Idle? && h' == h.(rows := ReleaseHome(h.rows))
    case Emptied => h.phase.Idle? && h' == Home([], map[], {}, Idle)
  }
}
