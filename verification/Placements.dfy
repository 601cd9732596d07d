/** The placement rows of one home and the operations on them
    (packages/db/src/credential-placements.ts). A row says which login Core put, or is putting, at a
    path of the home. */
module Placements {
  import opened Wrappers

  type Id = string
  type AccountId = string

  datatype Provider = Claude | Codex | Github | Pi | Opencode
  datatype Login = Subscription | ApiKey(suffix: string)

  /** Where a login lives in the home: a provider's own file, or a Claude key's own file. */
  datatype Path = LoginFile(provider: Provider) | KeyFile(id: Id)

  datatype RowState = Pending | Ready | Removing
  datatype Row = Row(id: Id, provider: Provider, accountId: AccountId, revision: int, path: Path, login: Login,
                     state: RowState)

  datatype AccountStatus = Active | Unusable | Archived
  datatype Account = Account(ownerUserId: string, provider: Provider, revision: int, status: AccountStatus)
  type Accounts = map<AccountId, Account>

  datatype Selection = Selection(provider: Provider, accountId: AccountId, revision: int, login: Login)
  datatype PlannedWrite = PlannedWrite(selection: Selection, reuse: Option<Id>)
  datatype KeptKey = KeptKey(selection: Selection, id: Id)
  datatype HomeWrite = HomeWrite(selection: Selection, reuse: Option<Id>, id: Id, path: Path)

  datatype PutPlan = PutPlan(writes: seq<PlannedWrite>, keptKeys: seq<KeptKey>, removes: seq<Provider>,
                             removedKeys: seq<Id>, pinned: seq<Id>)

  /** One put into the home: what it writes, restores and removes, and for whom. */
  datatype Put = Put(owner: string, writes: seq<HomeWrite>, keptKeys: seq<KeptKey>, removes: seq<Provider>,
                     removedKeys: seq<Id>)

  datatype WriteIntent = WriteIntent(provider: Provider, id: Id, path: Path, revision: int, inserted: bool)
  datatype Intent = Intent(writes: seq<WriteIntent>, retired: seq<Id>)
  datatype Start = Begun(rows: seq<Row>, intent: Intent) | AccountsMoved

  /** What the executor answered: which providers' writes landed, and which it left to the person's
      own login. */
  datatype Outcome = Done(written: set<Provider>, kept: set<Provider>) | Refused(written: set<Provider>) | Unconfirmed

  function SourceOf(provider: Provider): Provider {
    if provider == Pi || provider == Opencode then Codex else provider
  }

  predicate IsKey(provider: Provider, login: Login) {
    provider == Claude && login.ApiKey?
  }

  predicate IsKeyRow(row: Row) {
    IsKey(row.provider, row.login)
  }

  function PlacementPath(provider: Provider, login: Login, id: Id): Path {
    if IsKey(provider, login) then KeyFile(id) else LoginFile(provider)
  }

  predicate Unarchived(accounts: Accounts, accountId: AccountId) {
    accountId in accounts && accounts[accountId].status != Archived
  }

  predicate SameLogin(row: Row, selection: Selection) {
    row.accountId == selection.accountId && row.revision == selection.revision
  }

  function Retire(row: Row): Row {
    row.(state := Removing)
  }

  function Find(rows: seq<Row>, id: Id): (found: Option<Row>)
    ensures found.Some? ==> found.value in rows && found.value.id == id
    ensures found.None? ==> forall r | r in rows :: r.id != id
  {
    if rows == [] then None else if rows[0].id == id then Some(rows[0]) else Find(rows[1..], id)
  }

  function MapRows(rows: seq<Row>, f: Row -> Row): (mapped: seq<Row>)
    ensures |mapped| == |rows|
    ensures forall i | 0 <= i < |rows| :: mapped[i] == f(rows[i])
    ensures forall r | r in rows :: f(r) in mapped
    ensures forall m | m in mapped :: exists r :: r in rows && m == f(r)
  {
    seq(|rows|, i requires 0 <= i < |rows| => f(rows[i]))
  }

  /** The rows whose id is not in `ids`, in their order. */
  function Without(rows: seq<Row>, ids: set<Id>): (left: seq<Row>)
    ensures forall r :: r in left <==> r in rows && r.id !in ids
  {
    if rows == [] then [] else (if rows[0].id in ids then [] else [rows[0]]) + Without(rows[1..], ids)
  }

  // ---------------------------------------------------------------------------------------------
  // Settling what is in doubt, pruning, releasing, removing
  // ---------------------------------------------------------------------------------------------

  predicate PendingAt(rows: seq<Row>, path: Path) {
    exists r :: r in rows && r.path == path && r.state == Pending
  }

  predicate ReadyAt(rows: seq<Row>, path: Path) {
    exists r :: r in rows && r.path == path && r.state == Ready
  }

  function SettleInDoubt(rows: seq<Row>): seq<Row> {
    MapRows(rows, (r: Row) => if PendingAt(rows, r.path) && r.state != Removing then Retire(r) else r)
  }

  function ReleaseHome(rows: seq<Row>): seq<Row> {
    MapRows(rows, Retire)
  }

  function PruneHome(rows: seq<Row>, live: seq<Id>, defaults: set<AccountId>, accounts: Accounts): seq<Row> {
    MapRows(rows, (r: Row) =>
      if r.id in live
         || (r.state == Ready && r.accountId in defaults && r.accountId in accounts
             && accounts[r.accountId].revision == r.revision)
      then r else Retire(r))
  }

  datatype Removal = Removal(removes: set<Provider>, removedKeys: set<Id>, forget: set<Id>)

  /** What is left to remove: never a path a ready row holds. */
  function RemovalWork(rows: seq<Row>): Removal {
    Removal(
      set r | r in rows && r.state == Removing && !ReadyAt(rows, r.path) && !IsKeyRow(r) :: r.provider,
      set r | r in rows && r.state == Removing && !ReadyAt(rows, r.path) && IsKeyRow(r) :: r.id,
      set r | r in rows && r.state == Removing :: r.id)
  }

  /** The rows a launch leaves for the logins it wrote: each ready, unless its account was archived
      meanwhile. */
  function RecordLaunchHome(rows: seq<Row>, logins: seq<HomeWrite>, accounts: Accounts): seq<Row> {
    rows + seq(|logins|, i requires 0 <= i < |logins| =>
      var s := logins[i].selection;
      Row(logins[i].id, s.provider, s.accountId, s.revision, logins[i].path, s.login,
          if Unarchived(accounts, s.accountId) then Ready else Removing))
  }

  // ---------------------------------------------------------------------------------------------
  // Planning a put
  // ---------------------------------------------------------------------------------------------

  predicate IsLive(live: Option<seq<Id>>, id: Id) {
    live.Some? && id in live.value
  }

  /** The ready row at a provider's own file: the first one. */
  function Slot(rows: seq<Row>, provider: Provider): (held: Option<Row>)
    ensures held.Some? ==> held.value in rows && held.value.state == Ready && held.value.provider == provider
                           && !IsKeyRow(held.value)
    ensures held.None? ==> forall r | r in rows && r.state == Ready && r.provider == provider :: IsKeyRow(r)
  {
    if rows == [] then None
    else if rows[0].state == Ready && rows[0].provider == provider && !IsKeyRow(rows[0]) then Some(rows[0])
    else Slot(rows[1..], provider)
  }

  /** The ready Claude key row of a selected login: the first one. */
  function SameKey(rows: seq<Row>, selection: Selection): (same: Option<Row>)
    ensures same.Some? ==> same.value in rows && same.value.state == Ready && IsKeyRow(same.value)
                           && SameLogin(same.value, selection)
  {
    if rows == [] then None
    else if rows[0].state == Ready && IsKeyRow(rows[0]) && SameLogin(rows[0], selection) then Some(rows[0])
    else SameKey(rows[1..], selection)
  }

  datatype Decision = Write(reuse: Option<Id>) | KeepKey(id: Id) | Pin(id: Id)

  function Decide(rows: seq<Row>, live: Option<seq<Id>>, selection: Selection): Decision {
    if IsKey(selection.provider, selection.login) then
      var same := SameKey(rows, selection);
      if same.None? then Write(None) else KeepKey(same.value.id)
    else
      var held := Slot(rows, selection.provider);
      if held.Some? && IsLive(live, held.value.id) && !SameLogin(held.value, selection) then Pin(held.value.id)
      else Write(if held.Some? && SameLogin(held.value, selection) then Some(held.value.id) else None)
  }

  /** The ready Claude keys a removed provider gives up: those no running process holds. */
  function IdleKeys(rows: seq<Row>, live: Option<seq<Id>>, provider: Provider): (ids: seq<Id>)
    ensures forall id | id in ids ::
              !IsLive(live, id)
              && exists r :: r in rows && r.id == id && r.state == Ready && IsKeyRow(r) && r.provider == provider
  {
    if rows == [] then []
    else
      var r := rows[0];
      (if r.state == Ready && r.provider == provider && IsKeyRow(r) && !IsLive(live, r.id) then [r.id] else [])
      + IdleKeys(rows[1..], live, provider)
  }

  const NO_PLAN := PutPlan([], [], [], [], [])

  function PlanSelected(rows: seq<Row>, live: Option<seq<Id>>, selected: seq<Selection>): PutPlan {
    if selected == [] then NO_PLAN
    else
      var plan, s := PlanSelected(rows, live, selected[..|selected| - 1]), selected[|selected| - 1];
      match Decide(rows, live, s)
      case Write(reuse) => plan.(writes := plan.writes + [PlannedWrite(s, reuse)])
      case KeepKey(id) => plan.(keptKeys := plan.keptKeys + [KeptKey(s, id)])
      case Pin(id) => plan.(pinned := plan.pinned + [id])
  }

  function PlanRemoved(rows: seq<Row>, live: Option<seq<Id>>, plan: PutPlan, removed: seq<Provider>): PutPlan {
    if removed == [] then plan
    else
      var plan, p := PlanRemoved(rows, live, plan, removed[..|removed| - 1]), removed[|removed| - 1];
      var held := Slot(rows, p);
      var pins := held.Some? && IsLive(live, held.value.id);
      plan.(pinned := plan.pinned + if pins then [held.value.id] else [],
            removes := plan.removes + if pins then [] else [p],
            removedKeys := plan.removedKeys + IdleKeys(rows, live, p))
  }

  function PlanHomePut(rows: seq<Row>, live: Option<seq<Id>>, selected: seq<Selection>, removed: seq<Provider>): PutPlan {
    PlanRemoved(rows, live, PlanSelected(rows, live, selected), removed)
  }

  method PlanPut(rows: seq<Row>, live: Option<seq<Id>>, selected: seq<Selection>, removed: seq<Provider>)
    returns (plan: PutPlan)
    ensures plan == PlanHomePut(rows, live, selected, removed)
  {
    plan := PlanSelections(rows, live, selected);
    plan := PlanRemovals(rows, live, plan, removed);
  }

  method PlanSelections(rows: seq<Row>, live: Option<seq<Id>>, selected: seq<Selection>) returns (plan: PutPlan)
    ensures plan == PlanSelected(rows, live, selected)
  {
    plan := NO_PLAN;
    for i := 0 to |selected|
      invariant plan == PlanSelected(rows, live, selected[..i])
    {
      var s := selected[i];
      assert selected[..i + 1][..i] == selected[..i];
      if IsKey(s.provider, s.login) {
        var same := SameKey(rows, s);
        if same.None? { plan := plan.(writes := plan.writes + [PlannedWrite(s, None)]); }
        else { plan := plan.(keptKeys := plan.keptKeys + [KeptKey(s, same.value.id)]); }
      } else {
        var held := Slot(rows, s.provider);
        var same := held.Some? && SameLogin(held.value, s);
        if held.Some? && IsLive(live, held.value.id) && !same {
          plan := plan.(pinned := plan.pinned + [held.value.id]);
        } else {
          plan := plan.(writes := plan.writes + [PlannedWrite(s, if same then Some(held.value.id) else None)]);
        }
      }
    }
    assert selected[..|selected|] == selected;
  }

  method PlanRemovals(rows: seq<Row>, live: Option<seq<Id>>, selections: PutPlan, removed: seq<Provider>)
    returns (plan: PutPlan)
    ensures plan == PlanRemoved(rows, live, selections, removed)
  {
    plan := selections;
    for i := 0 to |removed|
      invariant plan == PlanRemoved(rows, live, selections, removed[..i])
    {
      assert removed[..i + 1][..i] == removed[..i];
      var held := Slot(rows, removed[i]);
      var keys := IdleKeys(rows, live, removed[i]);
      if held.Some? && IsLive(live, held.value.id) {
        assert plan.removes + [] == plan.removes;
        plan := plan.(pinned := plan.pinned + [held.value.id]);
      } else {
        assert plan.pinned + [] == plan.pinned;
        plan := plan.(removes := plan.removes + [removed[i]]);
      }
      plan := plan.(removedKeys := plan.removedKeys + keys);
    }
    assert removed[..|removed|] == removed;
  }

  // ---------------------------------------------------------------------------------------------
  // Beginning a put
  // ---------------------------------------------------------------------------------------------

  /** The selected login is no longer the active one at the selected revision, of that owner and
      that kind. */
  predicate Moved(accounts: Accounts, owner: string, s: Selection) {
    || s.accountId !in accounts
    || var a := accounts[s.accountId];
       a.status != Active || a.revision != s.revision || a.ownerUserId != owner || a.provider != SourceOf(s.provider)
  }

  predicate KeptKeyStands(rows: seq<Row>, accounts: Accounts, owner: string, kept: KeptKey) {
    var row := Find(rows, kept.id);
    !Moved(accounts, owner, kept.selection) && row.Some? && row.value.state == Ready && SameLogin(row.value, kept.selection)
  }

  function NewRow(w: HomeWrite): Row {
    Row(w.id, w.selection.provider, w.selection.accountId, w.selection.revision, w.path, w.selection.login, Pending)
  }

  function MarkPending(rows: seq<Row>, id: Id): seq<Row> {
    MapRows(rows, (r: Row) => if r.id == id then r.(state := Pending) else r)
  }

  datatype Progress = Progress(rows: seq<Row>, writes: seq<WriteIntent>)

  function BeginWrite(progress: Progress, accounts: Accounts, owner: string, w: HomeWrite): Option<Progress> {
    if Moved(accounts, owner, w.selection) then None
    else if w.reuse.Some? then
      var reused := Find(progress.rows, w.reuse.value);
      if reused.None? || reused.value.state != Ready then None
      else Some(Progress(
        MarkPending(progress.rows, w.reuse.value),
        progress.writes + [WriteIntent(w.selection.provider, reused.value.id, reused.value.path, w.selection.revision, false)]))
    else
      Some(Progress(
        progress.rows + [NewRow(w)],
        progress.writes + [WriteIntent(w.selection.provider, w.id, w.path, w.selection.revision, true)]))
  }

  function BeginWrites(rows: seq<Row>, accounts: Accounts, owner: string, writes: seq<HomeWrite>): Option<Progress> {
    if writes == [] then Some(Progress(rows, []))
    else
      var before := BeginWrites(rows, accounts, owner, writes[..|writes| - 1]);
      if before.None? then None else BeginWrite(before.value, accounts, owner, writes[|writes| - 1])
  }

  /** A ready row this put removes: a key by its id, any other by its provider. */
  predicate RetiredBy(put: Put, r: Row) {
    r.state == Ready && if IsKeyRow(r) then r.id in put.removedKeys else r.provider in put.removes
  }

  function RetiredIds(rows: seq<Row>, put: Put): (ids: seq<Id>)
    ensures forall id :: id in ids <==> exists r :: r in rows && RetiredBy(put, r) && r.id == id
  {
    if rows == [] then []
    else (if RetiredBy(put, rows[0]) then [rows[0].id] else []) + RetiredIds(rows[1..], put)
  }

  function RetireIn(ids: seq<Id>, r: Row): Row {
    if r.id in ids then Retire(r) else r
  }

  function RetireIds(rows: seq<Row>, ids: seq<Id>): (retired: seq<Row>)
    ensures forall r | r in rows :: RetireIn(ids, r) in retired
    ensures forall m | m in retired :: exists r :: r in rows && m == RetireIn(ids, r)
  {
    MapRows(rows, (r: Row) => RetireIn(ids, r))
  }

  function BeginHomeWrite(rows: seq<Row>, accounts: Accounts, put: Put): Start {
    if exists k :: k in put.keptKeys && !KeptKeyStands(rows, accounts, put.owner, k) then AccountsMoved
    else
      var begun := BeginWrites(rows, accounts, put.owner, put.writes);
      if begun.None? then AccountsMoved
      else
        var retired := RetiredIds(begun.value.rows, put);
        Begun(RetireIds(begun.value.rows, retired), Intent(begun.value.writes, retired))
  }

  lemma {:induction false} BeginWritesStops(rows: seq<Row>, accounts: Accounts, owner: string, writes: seq<HomeWrite>, k: nat)
    requires k <= |writes| && BeginWrites(rows, accounts, owner, writes[..k]).None?
    ensures BeginWrites(rows, accounts, owner, writes).None?
  {
    if k < |writes| {
      assert writes[..|writes| - 1][..k] == writes[..k];
      BeginWritesStops(rows, accounts, owner, writes[..|writes| - 1], k);
    } else {
      assert writes[..k] == writes;
    }
  }

  method BeginPut(rows: seq<Row>, accounts: Accounts, put: Put) returns (start: Start)
    ensures start == BeginHomeWrite(rows, accounts, put)
  {
    for i := 0 to |put.keptKeys|
      invariant forall k | 0 <= k < i :: KeptKeyStands(rows, accounts, put.owner, put.keptKeys[k])
    {
      var kept := put.keptKeys[i];
      var row := Find(rows, kept.id);
      if Moved(accounts, put.owner, kept.selection) || row.None? || row.value.state != Ready
         || !SameLogin(row.value, kept.selection) {
        assert kept in put.keptKeys && !KeptKeyStands(rows, accounts, put.owner, kept);
        return AccountsMoved;
      }
    }
    var begun := BeginAll(rows, accounts, put.owner, put.writes);
    if begun.None? { return AccountsMoved; }
    var retired := RetiredIds(begun.value.rows, put);
    return Begun(RetireIds(begun.value.rows, retired), Intent(begun.value.writes, retired));
  }

  /** The writes begun one after another, up to the first that has moved. */
  method BeginAll(rows: seq<Row>, accounts: Accounts, owner: string, puts: seq<HomeWrite>) returns (begun: Option<Progress>)
    ensures begun == BeginWrites(rows, accounts, owner, puts)
  {
    var placements, writes := rows, [];
    for i := 0 to |puts|
      invariant BeginWrites(rows, accounts, owner, puts[..i]) == Some(Progress(placements, writes))
    {
      var w := puts[i];
      assert puts[..i + 1][..i] == puts[..i];
      if Moved(accounts, owner, w.selection) {
        BeginWritesStops(rows, accounts, owner, puts, i + 1);
        return None;
      }
      if w.reuse.Some? {
        var reused := Find(placements, w.reuse.value);
        if reused.None? || reused.value.state != Ready {
          BeginWritesStops(rows, accounts, owner, puts, i + 1);
          return None;
        }
        placements := MarkPending(placements, w.reuse.value);
        writes := writes + [WriteIntent(w.selection.provider, reused.value.id, reused.value.path, w.selection.revision, false)];
      } else {
        placements := placements + [NewRow(w)];
        writes := writes + [WriteIntent(w.selection.provider, w.id, w.path, w.selection.revision, true)];
      }
    }
    assert puts[..|puts|] == puts;
    return Some(Progress(placements, writes));
  }

  // ---------------------------------------------------------------------------------------------
  // Settling a put
  // ---------------------------------------------------------------------------------------------

  predicate Landed(outcome: Outcome, w: WriteIntent) {
    !outcome.Unconfirmed? && w.provider in outcome.written
  }

  predicate Preserved(outcome: Outcome, w: WriteIntent) {
    outcome.Done? && w.provider in outcome.kept
  }

  /** What settling one write does to one row. */
  function SettleRow(r: Row, accounts: Accounts, w: WriteIntent, outcome: Outcome): Row {
    var r := if (Landed(outcome, w) || Preserved(outcome, w)) && r.path == w.path && r.id != w.id && r.state == Ready
             then Retire(r) else r;
    if r.id != w.id then r
    else if Landed(outcome, w) then
      r.(revision := w.revision,
         state := if r.state == Pending && Unarchived(accounts, r.accountId) then Ready else Removing)
    else if w.inserted then r
    else
      r.(state := if r.state == Pending && Unarchived(accounts, r.accountId) && !Preserved(outcome, w) then Ready
                  else Removing)
  }

  /** What settling all the writes, in order, does to one row. */
  function SettleRowAll(r: Row, accounts: Accounts, writes: seq<WriteIntent>, outcome: Outcome): Row {
    if writes == [] then r
    else SettleRow(SettleRowAll(r, accounts, writes[..|writes| - 1], outcome), accounts, writes[|writes| - 1], outcome)
  }

  /** A refused put's retired rows come back, unless their account was archived. */
  function RestoreRetired(r: Row, accounts: Accounts, retired: seq<Id>, outcome: Outcome): Row {
    if outcome.Refused? && r.id in retired && Unarchived(accounts, r.accountId) then r.(state := Ready) else r
  }

  function SettledRow(r: Row, accounts: Accounts, intent: Intent, outcome: Outcome): Row {
    RestoreRetired(SettleRowAll(r, accounts, intent.writes, outcome), accounts, intent.retired, outcome)
  }

  /** The rows a put inserted for writes that did not land. */
  function Unlanded(writes: seq<WriteIntent>, outcome: Outcome): set<Id> {
    set w | w in writes && !Landed(outcome, w) && w.inserted :: w.id
  }

  function Forgotten(intent: Intent, outcome: Outcome): set<Id> {
    Unlanded(intent.writes, outcome) + if outcome.Done? then (set id | id in intent.retired) else {}
  }

  function SettleHomeWrite(rows: seq<Row>, accounts: Accounts, intent: Intent, outcome: Outcome): seq<Row> {
    if outcome.Unconfirmed? then rows
    else Without(MapRows(rows, (r: Row) => SettledRow(r, accounts, intent, outcome)), Forgotten(intent, outcome))
  }

  /** A write that landed but does not stand ready at the account's present revision. */
  predicate Overtaken(rows: seq<Row>, accounts: Accounts, w: WriteIntent) {
    var settled := Find(rows, w.id);
    || settled.None? || settled.value.state != Ready
    || settled.value.accountId !in accounts || accounts[settled.value.accountId].revision != w.revision
  }

  /** The rows once the writes `writes` are settled. */
  function Passed(rows: seq<Row>, accounts: Accounts, writes: seq<WriteIntent>, outcome: Outcome): (passed: seq<Row>)
    ensures |passed| == |rows|
    ensures forall i | 0 <= i < |rows| :: passed[i] == SettleRowAll(rows[i], accounts, writes, outcome)
  {
    MapRows(rows, (r: Row) => SettleRowAll(r, accounts, writes, outcome))
  }

  lemma {:induction false} OneMorePass(rows: seq<Row>, accounts: Accounts, writes: seq<WriteIntent>, k: nat, outcome: Outcome,
                                       next: seq<Row>)
    requires k < |writes| && |next| == |rows|
    requires forall i | 0 <= i < |rows| ::
               next[i] == SettleRow(Passed(rows, accounts, writes[..k], outcome)[i], accounts, writes[k], outcome)
    ensures next == Passed(rows, accounts, writes[..k + 1], outcome)
  {
    assert writes[..k + 1][..k] == writes[..k];
  }

  /** The settlement of one write, as the passes over all the rows it is. */
  method SettleWrite(rows: seq<Row>, accounts: Accounts, w: WriteIntent, outcome: Outcome) returns (settled: seq<Row>)
    ensures |settled| == |rows|
    ensures forall i | 0 <= i < |rows| :: settled[i] == SettleRow(rows[i], accounts, w, outcome)
  {
    settled := rows;
    if Landed(outcome, w) || Preserved(outcome, w) {
      settled := MapRows(settled, (r: Row) =>
        if r.path == w.path && r.id != w.id && r.state == Ready then Retire(r) else r);
    }
    if Landed(outcome, w) {
      settled := MapRows(settled, (r: Row) =>
        if r.id == w.id then
          r.(revision := w.revision,
             state := if r.state == Pending && Unarchived(accounts, r.accountId) then Ready else Removing)
        else r);
    } else if !w.inserted {
      settled := MapRows(settled, (r: Row) =>
        if r.id == w.id then
          r.(state := if r.state == Pending && Unarchived(accounts, r.accountId) && !Preserved(outcome, w) then Ready
                      else Removing)
        else r);
    }
  }

  /** Some landed write, once settled, does not stand ready at its account's present revision. */
  predicate StaleAfter(rows: seq<Row>, accounts: Accounts, writes: seq<WriteIntent>, outcome: Outcome) {
    && writes != []
    && var w := writes[|writes| - 1];
       || StaleAfter(rows, accounts, writes[..|writes| - 1], outcome)
       || (Landed(outcome, w) && Overtaken(Passed(rows, accounts, writes, outcome), accounts, w))
  }

  lemma {:induction false} OneMoreWrite(rows: seq<Row>, accounts: Accounts, writes: seq<WriteIntent>, k: nat, outcome: Outcome)
    requires k < |writes|
    ensures var w := writes[k];
            StaleAfter(rows, accounts, writes[..k + 1], outcome)
            <==> (StaleAfter(rows, accounts, writes[..k], outcome)
                  || (Landed(outcome, w) && Overtaken(Passed(rows, accounts, writes[..k + 1], outcome), accounts, w)))
    ensures Unlanded(writes[..k + 1], outcome)
            == Unlanded(writes[..k], outcome)
               + if !Landed(outcome, writes[k]) && writes[k].inserted then {writes[k].id} else {}
  {
    assert writes[..k + 1][..k] == writes[..k];
    assert writes[..k + 1] == writes[..k] + [writes[k]];
  }

  lemma {:induction false} NothingSettled(rows: seq<Row>, accounts: Accounts, outcome: Outcome)
    ensures Passed(rows, accounts, [], outcome) == rows
    ensures Unlanded([], outcome) == {} && !StaleAfter(rows, accounts, [], outcome)
  {
  }

  /** The settlement of the writes, one after another. */
  method SettleWrites(rows: seq<Row>, accounts: Accounts, writes: seq<WriteIntent>, outcome: Outcome)
    returns (placements: seq<Row>, forget: set<Id>, stale: bool)
    ensures placements == Passed(rows, accounts, writes, outcome)
    ensures forget == Unlanded(writes, outcome)
    ensures stale <==> StaleAfter(rows, accounts, writes, outcome)
  {
    hide SettleRowAll, SettleRow, StaleAfter, Unlanded, Overtaken;
    placements, forget, stale := rows, {}, false;
    NothingSettled(rows, accounts, outcome);
    for k := 0 to |writes|
      invariant placements == Passed(rows, accounts, writes[..k], outcome)
      invariant forget == Unlanded(writes[..k], outcome)
      invariant stale <==> StaleAfter(rows, accounts, writes[..k], outcome)
    {
      var w := writes[k];
      var next := SettleWrite(placements, accounts, w, outcome);
      OneMorePass(rows, accounts, writes, k, outcome, next);
      OneMoreWrite(rows, accounts, writes, k, outcome);
      placements := next;
      if Landed(outcome, w) { stale := stale || Overtaken(placements, accounts, w); }
      else if w.inserted { forget := forget + {w.id}; }
    }
    assert writes[..|writes|] == writes;
  }

  /** Settling a put: the writes, then the retired rows. The passes compose to one function of each
      row, and the rows of writes that did not land are dropped. */
  method SettlePut(rows: seq<Row>, accounts: Accounts, intent: Intent, outcome: Outcome)
    returns (settled: seq<Row>, stale: bool)
    ensures settled == SettleHomeWrite(rows, accounts, intent, outcome)
    ensures stale <==> !outcome.Unconfirmed? && StaleAfter(rows, accounts, intent.writes, outcome)
  {
    if outcome.Unconfirmed? { return rows, false; }
    var placements, forget;
    placements, forget, stale := SettleWrites(rows, accounts, intent.writes, outcome);
    placements, forget := SettleRetired(placements, accounts, intent.retired, outcome, forget);
    assert placements == MapRows(rows, (r: Row) => SettledRow(r, accounts, intent, outcome));
    settled := Without(placements, forget);
  }

  method SettleRetired(rows: seq<Row>, accounts: Accounts, retired: seq<Id>, outcome: Outcome, dropped: set<Id>)
    returns (placements: seq<Row>, forget: set<Id>)
    requires !outcome.Unconfirmed?
    ensures |placements| == |rows|
    ensures forall i | 0 <= i < |rows| :: placements[i] == RestoreRetired(rows[i], accounts, retired, outcome)
    ensures forget == dropped + if outcome.Done? then (set id | id in retired) else {}
  {
    placements, forget := rows, dropped;
    for k := 0 to |retired|
      invariant |placements| == |rows|
      invariant forall i | 0 <= i < |rows| :: placements[i] == RestoreRetired(rows[i], accounts, retired[..k], outcome)
      invariant forget == dropped + if outcome.Done? then (set id | id in retired[..k]) else {}
    {
      var id := retired[k];
      assert retired[..k + 1] == retired[..k] + [id];
      if outcome.Done? {
        forget := forget + {id};
      } else {
        placements := MapRows(placements, (r: Row) =>
          if r.id == id && Unarchived(accounts, r.accountId) then r.(state := Ready) else r);
      }
    }
    assert retired[..|retired|] == retired;
  }
}
