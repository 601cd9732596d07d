/** What a planned put does to the home: it keeps the premises of the protocol, and touches no login
    a running process holds. */
module HomePlan {
  import opened Wrappers
  import opened Placements
  import opened HomeScript
  import opened HomeProtocol
  import opened HomeBegin
  import opened HomeSafety
  import opened HomeSettle
  import opened HomeFiles

  /** A planned write with its id, the reused row's or a fresh one, and the path that id gives it. */
  function Placed(planned: PlannedWrite, newId: Id): HomeWrite {
    var id := if planned.reuse.Some? then planned.reuse.value else newId;
    HomeWrite(planned.selection, planned.reuse, id,
              PlacementPath(planned.selection.provider, planned.selection.login, id))
  }

  function PlaceAll(writes: seq<PlannedWrite>, newIds: seq<Id>): seq<HomeWrite>
    requires |newIds| == |writes|
  {
    seq(|writes|, i requires 0 <= i < |writes| => Placed(writes[i], newIds[i]))
  }

  function PutOf(owner: string, plan: PutPlan, newIds: seq<Id>): Put
    requires |newIds| == |plan.writes|
  {
    Put(owner, PlaceAll(plan.writes, newIds), plan.keptKeys, plan.removes, plan.removedKeys)
  }

  ghost predicate DistinctProviders(selected: seq<Selection>) {
    forall i, j | 0 <= i < j < |selected| :: selected[i].provider != selected[j].provider
  }

  ghost predicate NoneRemoved(selected: seq<Selection>, removed: seq<Provider>) {
    forall s | s in selected :: s.provider !in removed
  }

  ghost predicate FreshIds(rows: seq<Row>, newIds: seq<Id>) {
    && (forall i, j | 0 <= i < j < |newIds| :: newIds[i] != newIds[j])
    && forall r | r in rows :: r.id !in newIds
  }

  // ---------------------------------------------------------------------------------------------
  // What is in a plan
  // ---------------------------------------------------------------------------------------------

  lemma {:induction false} Planned(rows: seq<Row>, live: Option<seq<Id>>, selected: seq<Selection>)
    ensures var plan := PlanSelected(rows, live, selected);
            && (forall w | w in plan.writes :: w.selection in selected && Decide(rows, live, w.selection) == Write(w.reuse))
            && (forall k | k in plan.keptKeys :: k.selection in selected && Decide(rows, live, k.selection) == KeepKey(k.id))
            && plan.removes == [] && plan.removedKeys == []
  {
    if selected != [] {
      Planned(rows, live, selected[..|selected| - 1]);
      assert forall s | s in selected[..|selected| - 1] :: s in selected;
    }
  }

  lemma {:induction false} PlannedDistinct(rows: seq<Row>, live: Option<seq<Id>>, selected: seq<Selection>, i: nat, j: nat)
    requires DistinctProviders(selected) && i < j < |PlanSelected(rows, live, selected).writes|
    ensures var writes := PlanSelected(rows, live, selected).writes;
            writes[i].selection.provider != writes[j].selection.provider
  {
    var before := selected[..|selected| - 1];
    if j < |PlanSelected(rows, live, before).writes| {
      PlannedDistinct(rows, live, before, i, j);
    } else {
      Planned(rows, live, before);
      var w := PlanSelected(rows, live, before).writes[i];
      var k :| 0 <= k < |before| && before[k] == w.selection;
    }
  }

  lemma {:induction false} RemovedPlan(rows: seq<Row>, live: Option<seq<Id>>, plan: PutPlan, removed: seq<Provider>)
    ensures var after := PlanRemoved(rows, live, plan, removed);
            && after.writes == plan.writes && after.keptKeys == plan.keptKeys
            && (forall p | p in after.removes :: p in plan.removes || (p in removed && !SlotIsLive(rows, live, p)))
            && (forall id | id in after.removedKeys :: id in plan.removedKeys || IsIdleKey(rows, live, id))
  {
    if removed != [] {
      var before, p := removed[..|removed| - 1], removed[|removed| - 1];
      RemovedPlan(rows, live, plan, before);
      assert forall q | q in before :: q in removed;
      forall id | id in IdleKeys(rows, live, p) ensures IsIdleKey(rows, live, id) {}
    }
  }

  predicate SlotIsLive(rows: seq<Row>, live: Option<seq<Id>>, provider: Provider) {
    var held := Slot(rows, provider);
    held.Some? && IsLive(live, held.value.id)
  }

  predicate IsIdleKey(rows: seq<Row>, live: Option<seq<Id>>, id: Id) {
    !IsLive(live, id) && exists r :: r in rows && r.id == id && IsKeyRow(r)
  }

  // ---------------------------------------------------------------------------------------------
  // A planned put keeps the protocol's premises
  // ---------------------------------------------------------------------------------------------

  ghost predicate PlanPremises(rows: seq<Row>, selected: seq<Selection>, removed: seq<Provider>, plan: PutPlan, newIds: seq<Id>) {
    && WellKept(rows) && DistinctProviders(selected) && NoneRemoved(selected, removed)
    && |newIds| == |plan.writes| && FreshIds(rows, newIds)
  }

  lemma {:induction false} DecidedWriteOk(rows: seq<Row>, live: Option<seq<Id>>, put: Put, planned: PlannedWrite, newId: Id)
    requires Decide(rows, live, planned.selection) == Write(planned.reuse)
    requires planned.selection.provider !in put.removes && (forall r | r in rows :: r.id != newId)
    ensures WriteOk(rows, put, Placed(planned, newId))
  {
    if planned.reuse.Some? {
      var held := Slot(rows, planned.selection.provider).value;
      assert held in rows && held.id == planned.reuse.value;
    }
  }

  /** The put made of a plan meets the premises under which every run of the protocol is safe. */
  lemma {:induction false} PlannedPutIsOk(rows: seq<Row>, live: Option<seq<Id>>, selected: seq<Selection>, removed: seq<Provider>,
                                          owner: string, newIds: seq<Id>)
    requires PlanPremises(rows, selected, removed, PlanHomePut(rows, live, selected, removed), newIds)
    ensures PutOk(rows, PutOf(owner, PlanHomePut(rows, live, selected, removed), newIds))
  {
    var chosen := PlanSelected(rows, live, selected);
    var plan := PlanHomePut(rows, live, selected, removed);
    var put := PutOf(owner, plan, newIds);
    Planned(rows, live, selected);
    RemovedPlan(rows, live, chosen, removed);
    forall i, j | 0 <= i < j < |put.writes|
      ensures put.writes[i].selection.provider != put.writes[j].selection.provider && put.writes[i].id != put.writes[j].id
    {
      PlannedDistinct(rows, live, selected, i, j);
      PlacedIdsDiffer(rows, live, plan.writes[i], plan.writes[j], newIds[i], newIds[j]);
    }
    forall w | w in put.writes ensures WriteOk(rows, put, w) {
      var i :| 0 <= i < |put.writes| && put.writes[i] == w;
      assert plan.writes[i] in plan.writes && plan.writes[i].selection in selected;
      DecidedWriteOk(rows, live, put, plan.writes[i], newIds[i]);
    }
    forall k | k in put.keptKeys, r | r in rows && r.id == k.id ensures IsKeyRow(r) {
      var same := SameKey(rows, k.selection).value;
      assert same == r;
    }
  }

  lemma {:induction false} PlacedIdsDiffer(rows: seq<Row>, live: Option<seq<Id>>, v: PlannedWrite, w: PlannedWrite, f: Id, g: Id)
    requires Decide(rows, live, v.selection) == Write(v.reuse) && Decide(rows, live, w.selection) == Write(w.reuse)
    requires v.selection.provider != w.selection.provider && f != g && WellKept(rows)
    requires forall r | r in rows :: r.id != f && r.id != g
    ensures Placed(v, f).id != Placed(w, g).id
  {
  }

  // ---------------------------------------------------------------------------------------------
  // A plan answers everything asked
  // ---------------------------------------------------------------------------------------------

  /** What becomes of a selected login, read off the rows: a key already placed is kept; any other login
      is pinned out by a live row of another login, written over the row that holds it already, or
      written anew. */
  ghost predicate Answers(rows: seq<Row>, live: Option<seq<Id>>, plan: PutPlan, s: Selection) {
    if s.provider == Claude && s.login.ApiKey? then
      if exists r :: r in rows && r.state == Ready && r.provider == Claude && r.login.ApiKey?
                     && r.accountId == s.accountId && r.revision == s.revision
      then exists k :: k in plan.keptKeys && k.selection == s
      else PlannedWrite(s, None) in plan.writes
    else
      && (forall r | r in rows && r.state == Ready && r.provider == s.provider && !(r.provider == Claude && r.login.ApiKey?) ::
            if r.accountId == s.accountId && r.revision == s.revision then PlannedWrite(s, Some(r.id)) in plan.writes
            else if live.Some? && r.id in live.value then r.id in plan.pinned
            else PlannedWrite(s, None) in plan.writes)
      && ((forall r | r in rows && r.state == Ready && r.provider == s.provider :: r.provider == Claude && r.login.ApiKey?) ==>
            PlannedWrite(s, None) in plan.writes)
  }

  ghost predicate Holds(plan: PutPlan, s: Selection, d: Decision) {
    match d
    case Write(reuse) => PlannedWrite(s, reuse) in plan.writes
    case KeepKey(id) => KeptKey(s, id) in plan.keptKeys
    case Pin(id) => id in plan.pinned
  }

  lemma {:induction false} SelectedIsDecided(rows: seq<Row>, live: Option<seq<Id>>, selected: seq<Selection>, s: Selection)
    requires s in selected
    ensures Holds(PlanSelected(rows, live, selected), s, Decide(rows, live, s))
  {
    var before, last := selected[..|selected| - 1], selected[|selected| - 1];
    assert selected == before + [last];
    if s in before { SelectedIsDecided(rows, live, before, s); }
  }

  lemma {:induction false} RemovalsKeepDecisions(rows: seq<Row>, live: Option<seq<Id>>, plan: PutPlan, removed: seq<Provider>,
                                                 s: Selection, d: Decision)
    requires Holds(plan, s, d)
    ensures Holds(PlanRemoved(rows, live, plan, removed), s, d)
  {
    if removed != [] { RemovalsKeepDecisions(rows, live, plan, removed[..|removed| - 1], s, d); }
  }

  lemma {:induction false} NoSameKey(rows: seq<Row>, s: Selection)
    ensures SameKey(rows, s).None? ==> forall r | r in rows && r.state == Ready && IsKeyRow(r) :: !SameLogin(r, s)
  {
    if rows != [] { NoSameKey(rows[1..], s); }
  }

  /** A plan leaves no selected login unanswered. */
  lemma {:induction false} PlanAnswers(rows: seq<Row>, live: Option<seq<Id>>, selected: seq<Selection>, removed: seq<Provider>,
                                       s: Selection)
    requires WellKept(rows) && OneReady(rows) && s in selected
    ensures Answers(rows, live, PlanHomePut(rows, live, selected, removed), s)
  {
    SelectedIsDecided(rows, live, selected, s);
    RemovalsKeepDecisions(rows, live, PlanSelected(rows, live, selected), removed, s, Decide(rows, live, s));
    NoSameKey(rows, s);
    forall r | r in rows && r.state == Ready && r.provider == s.provider && !IsKeyRow(r) ensures Slot(rows, s.provider) == Some(r) {
      SlotIsTheRow(rows, r);
    }
  }

  /** A removed provider's own login is removed unless a live row holds it, which is then pinned; and its
      keys are removed, those no running process holds. */
  lemma {:induction false} PlanRemoves(rows: seq<Row>, live: Option<seq<Id>>, plan: PutPlan, removed: seq<Provider>, p: Provider)
    requires p in removed && p !in plan.removes
    ensures var after := PlanRemoved(rows, live, plan, removed);
            && (p in after.removes <==> !SlotIsLive(rows, live, p))
            && (SlotIsLive(rows, live, p) ==> Slot(rows, p).value.id in after.pinned)
            && (forall r | r in rows && r.state == Ready && r.provider == p && IsKeyRow(r) && (live.None? || r.id !in live.value) ::
                  r.id in after.removedKeys)
            && (WellKept(rows) && OneReady(rows) ==>
                  && (forall r | r in rows && r.state == Ready && r.provider == p && !(p == Claude && r.login.ApiKey?)
                                && live.Some? && r.id in live.value ::
                        r.id in after.pinned && p !in after.removes)
                  && (p !in after.removes ==>
                        exists r :: r in rows && r.state == Ready && r.provider == p && !(p == Claude && r.login.ApiKey?)
                                    && live.Some? && r.id in live.value))
  {
    var before, last := removed[..|removed| - 1], removed[|removed| - 1];
    assert removed == before + [last];
    RemovedPlan(rows, live, plan, removed);
    if p in before { PlanRemoves(rows, live, plan, before, p); }
    IdleKeysAll(rows, live, p);
    if WellKept(rows) && OneReady(rows) {
      forall r | r in rows && r.state == Ready && r.provider == p && !IsKeyRow(r) { SlotIsTheRow(rows, r); }
    }
  }

  lemma {:induction false} IdleKeysAll(rows: seq<Row>, live: Option<seq<Id>>, p: Provider)
    ensures forall r | r in rows && r.state == Ready && r.provider == p && IsKeyRow(r) && !IsLive(live, r.id) ::
              r.id in IdleKeys(rows, live, p)
  {
    if rows != [] { IdleKeysAll(rows[1..], live, p); }
  }

  /** What a plan's selections put in it, and nothing more. */
  lemma {:induction false} SelectedOnly(rows: seq<Row>, live: Option<seq<Id>>, selected: seq<Selection>)
    ensures forall id | id in PlanSelected(rows, live, selected).pinned ::
              exists s :: s in selected && Decide(rows, live, s) == Pin(id)
  {
    if selected != [] {
      var before, last := selected[..|selected| - 1], selected[|selected| - 1];
      assert selected == before + [last];
      SelectedOnly(rows, live, before);
      forall id | id in PlanSelected(rows, live, selected).pinned
        ensures exists s :: s in selected && Decide(rows, live, s) == Pin(id)
      {
        if id in PlanSelected(rows, live, before).pinned {
          var s :| s in before && Decide(rows, live, s) == Pin(id);
          assert s in selected;
        }
      }
    }
  }

  /** What the removals of a plan add to it, and nothing more. */
  lemma {:induction false} RemovedOnly(rows: seq<Row>, live: Option<seq<Id>>, plan: PutPlan, removed: seq<Provider>, id: Id)
    ensures id in PlanRemoved(rows, live, plan, removed).pinned ==>
              id in plan.pinned
              || exists p :: p in removed && SlotIsLive(rows, live, p) && Slot(rows, p).value.id == id
    ensures id in PlanRemoved(rows, live, plan, removed).removedKeys ==>
              id in plan.removedKeys || exists p :: p in removed && id in IdleKeys(rows, live, p)
  {
    if removed != [] {
      var before, last := removed[..|removed| - 1], removed[|removed| - 1];
      assert removed == before + [last];
      RemovedOnly(rows, live, plan, before, id);
      if p :| p in before && SlotIsLive(rows, live, p) && Slot(rows, p).value.id == id { assert p in removed; }
      if p :| p in before && id in IdleKeys(rows, live, p) { assert p in removed; }
      assert last in removed;
    }
  }

  /** A planned write is of a selected login: over the ready row of that very login, or, there being none,
      where no running process holds another. */
  lemma {:induction false} WritesOnlyAsked(rows: seq<Row>, live: Option<seq<Id>>, selected: seq<Selection>,
                                           removed: seq<Provider>, w: PlannedWrite)
    requires WellKept(rows) && OneReady(rows) && w in PlanHomePut(rows, live, selected, removed).writes
    ensures w.selection in selected
    ensures w.reuse.Some? ==>
              exists r :: r in rows && r.id == w.reuse.value && r.state == Ready && r.provider == w.selection.provider
                          && !(r.provider == Claude && r.login.ApiKey?)
                          && r.accountId == w.selection.accountId && r.revision == w.selection.revision
    ensures w.reuse.None? ==>
              var key := w.selection.provider == Claude && w.selection.login.ApiKey?;
              forall r | r in rows && r.state == Ready && r.provider == w.selection.provider
                         && (key <==> r.provider == Claude && r.login.ApiKey?) ::
                && (r.accountId == w.selection.accountId ==> r.revision != w.selection.revision)
                && (key || live.None? || r.id !in live.value)
  {
    Planned(rows, live, selected);
    RemovedPlan(rows, live, PlanSelected(rows, live, selected), removed);
    NoSameKey(rows, w.selection);
    forall r | r in rows && r.state == Ready && r.provider == w.selection.provider && !IsKeyRow(r) { SlotIsTheRow(rows, r); }
  }

  /** A kept key is a selected Claude key, at the ready row of that very login. */
  lemma {:induction false} KeepsOnlyAsked(rows: seq<Row>, live: Option<seq<Id>>, selected: seq<Selection>,
                                          removed: seq<Provider>, k: KeptKey)
    requires k in PlanHomePut(rows, live, selected, removed).keptKeys
    ensures k.selection in selected && k.selection.provider == Claude && k.selection.login.ApiKey?
    ensures exists r :: r in rows && r.id == k.id && r.state == Ready && r.provider == Claude && r.login.ApiKey?
                        && r.accountId == k.selection.accountId && r.revision == k.selection.revision
  {
    Planned(rows, live, selected);
    RemovedPlan(rows, live, PlanSelected(rows, live, selected), removed);
    assert SameKey(rows, k.selection).value in rows;
  }

  /** A pinned row is ready, held by a running process, and of a removed provider or of one selected with
      another login. */
  lemma {:induction false} PinsOnlyHeld(rows: seq<Row>, live: Option<seq<Id>>, selected: seq<Selection>,
                                        removed: seq<Provider>, id: Id)
    requires id in PlanHomePut(rows, live, selected, removed).pinned
    ensures live.Some? && id in live.value
    ensures exists r :: r in rows && r.id == id && r.state == Ready && !(r.provider == Claude && r.login.ApiKey?)
                        && (r.provider in removed
                            || exists s :: s in selected && s.provider == r.provider
                                           && (r.accountId == s.accountId ==> r.revision != s.revision))
  {
    SelectedOnly(rows, live, selected);
    RemovedOnly(rows, live, PlanSelected(rows, live, selected), removed, id);
    if id in PlanSelected(rows, live, selected).pinned {
      var s :| s in selected && Decide(rows, live, s) == Pin(id);
      assert Slot(rows, s.provider).value.id == id;
    } else {
      var p :| p in removed && SlotIsLive(rows, live, p) && Slot(rows, p).value.id == id;
      assert Slot(rows, p).value in rows;
    }
  }

  /** What a plan removes is of a removed provider, and no running process holds it. */
  lemma {:induction false} RemovesOnlyAsked(rows: seq<Row>, live: Option<seq<Id>>, selected: seq<Selection>,
                                            removed: seq<Provider>, p: Provider, id: Id)
    requires WellKept(rows) && OneReady(rows)
    ensures p in PlanHomePut(rows, live, selected, removed).removes ==>
              p in removed
              && forall r | r in rows && r.state == Ready && r.provider == p && !(p == Claude && r.login.ApiKey?) ::
                   live.None? || r.id !in live.value
    ensures id in PlanHomePut(rows, live, selected, removed).removedKeys ==>
              && (live.None? || id !in live.value)
              && exists r :: r in rows && r.id == id && r.state == Ready && r.provider in removed
                             && r.provider == Claude && r.login.ApiKey?
  {
    Planned(rows, live, selected);
    RemovedPlan(rows, live, PlanSelected(rows, live, selected), removed);
    RemovedOnly(rows, live, PlanSelected(rows, live, selected), removed, id);
    forall r | r in rows && r.state == Ready && r.provider == p && !IsKeyRow(r) { SlotIsTheRow(rows, r); }
    if q :| q in removed && id in IdleKeys(rows, live, q) {
      var r :| r in rows && r.id == id && r.state == Ready && IsKeyRow(r) && r.provider == q;
    }
  }

  // ---------------------------------------------------------------------------------------------
  // A login in use
  // ---------------------------------------------------------------------------------------------

  /** The ready row at a provider's own file is the one the plan finds. */
  lemma {:induction false} SlotIsTheRow(rows: seq<Row>, r: Row)
    requires WellKept(rows) && OneReady(rows) && r in rows && r.state == Ready && !IsKeyRow(r)
    ensures Slot(rows, r.provider) == Some(r)
  {
    var held := Slot(rows, r.provider);
    assert held.value.path == r.path;
  }

  /** A put leaves alone a login some process holds, unless it writes the same login over it. */
  ghost predicate Spares(put: Put, r: Row) {
    && (forall w | w in put.writes :: w.path != r.path && w.id != r.id)
    && !DropsPath(put, r.path) && !RetiredBy(put, r)
  }

  lemma {:induction false} WriteSpares(rows: seq<Row>, live: Option<seq<Id>>, planned: PlannedWrite, newId: Id, r: Row)
    requires WellKept(rows) && OneReady(rows) && r in rows && r.state == Ready && IsLive(live, r.id)
    requires Decide(rows, live, planned.selection) == Write(planned.reuse) && r.id != newId && planned.reuse != Some(r.id)
    ensures Placed(planned, newId).path != r.path && Placed(planned, newId).id != r.id
  {
    if !IsKeyRow(r) { SlotIsTheRow(rows, r); }
  }

  lemma {:induction false} LiveIsSpared(rows: seq<Row>, live: Option<seq<Id>>, selected: seq<Selection>, removed: seq<Provider>,
                                        owner: string, newIds: seq<Id>, r: Row)
    requires PlanPremises(rows, selected, removed, PlanHomePut(rows, live, selected, removed), newIds) && OneReady(rows)
    requires r in rows && r.state == Ready && IsLive(live, r.id)
    requires var put := PutOf(owner, PlanHomePut(rows, live, selected, removed), newIds); !Reused(put.writes, r.id)
    ensures Spares(PutOf(owner, PlanHomePut(rows, live, selected, removed), newIds), r)
  {
    var plan := PlanHomePut(rows, live, selected, removed);
    var put := PutOf(owner, plan, newIds);
    Planned(rows, live, selected);
    RemovedPlan(rows, live, PlanSelected(rows, live, selected), removed);
    forall w | w in put.writes ensures w.path != r.path && w.id != r.id {
      var i :| 0 <= i < |put.writes| && put.writes[i] == w;
      assert plan.writes[i] in plan.writes && !Reuses(w, r.id);
      WriteSpares(rows, live, plan.writes[i], newIds[i], r);
    }
    if !IsKeyRow(r) { SlotIsTheRow(rows, r); }
  }

  /** A row the put spares is in the rows it begins, in those it leaves however it is answered, and in
      those that settle a lost answer; and no answer changes the login in its file. */
  lemma {:induction false} SparedRowStays(base: seq<Row>, put: Put, begun: seq<Row>, intent: Intent, accounts: Accounts,
                                          outcome: Outcome, r: Row)
    requires WellKept(base) && PutStands(base, put, intent) && BegunFrom(base, put, begun)
    requires r in base && r.state == Ready && Spares(put, r)
    ensures r in begun && r in SettleHomeWrite(begun, accounts, intent, outcome)
  {
    NotReused(base, put, r);
    assert BegunRow(put, r) == r;
    if !outcome.Unconfirmed? {
      SparedRowIsFixed(base, put, intent, accounts, outcome, r);
      var f := (q: Row) => SettledRow(q, accounts, intent, outcome);
      assert f(r) in MapRows(begun, f);
    }
  }

  lemma {:induction false} SparedRowIsFixed(base: seq<Row>, put: Put, intent: Intent, accounts: Accounts, outcome: Outcome, r: Row)
    requires WellKept(base) && IntentsOf(put.writes, intent.writes) && RetiredFrom(base, put, intent.retired)
    requires r in base && r.state == Ready && Spares(put, r)
    ensures SettledRow(r, accounts, intent, outcome) == r && r.id !in Forgotten(intent, outcome)
  {
    forall v | v in intent.writes ensures v.id != r.id && v.path != r.path {
      var w := IntentIsWrite(put, intent, v);
    }
    SettleOther(r, accounts, intent.writes, outcome);
    RetiredOnlyIf(base, put, intent, r);
  }

  lemma {:induction false} SparedPathIsUnmarked(base: seq<Row>, put: Put, begun: seq<Row>, r: Row)
    requires WellKept(base) && NonePending(base) && PutOk(base, put) && BegunFrom(base, put, begun) && Spares(put, r)
    ensures !PendingAt(begun, r.path)
  {
    forall q | q in begun && q.state == Pending ensures q.path != r.path {
      if b :| b in base && q == BegunRow(put, b) {
        var w :| w in put.writes && Reuses(w, b.id);
        assert WriteOk(base, put, w);
      }
    }
  }

  lemma {:induction false} SparedRowStands(base: seq<Row>, put: Put, begun: seq<Row>, r: Row)
    requires WellKept(base) && NonePending(base) && PutOk(base, put) && BegunFrom(base, put, begun)
    requires r in base && r.state == Ready && Spares(put, r)
    ensures Stands(begun, r) && r in SettleInDoubt(begun)
  {
    NotReused(base, put, r);
    assert BegunRow(put, r) == r;
    SparedPathIsUnmarked(base, put, begun, r);
    var f := (q: Row) => if PendingAt(begun, q.path) && q.state != Removing then Retire(q) else q;
    assert f(r) in MapRows(begun, f);
  }

  lemma {:induction false} SparedFileStays(base: seq<Row>, put: Put, files: Files, doubt: set<Effect>, outcome: Outcome, r: Row,
                                          f: Option<File>)
    requires Sound(base, files, doubt) && NonePending(base) && KeptStand(base, put) && !outcome.Unconfirmed?
    requires r in base && r.state == Ready && Spares(put, r) && ReportedAs(files, put, outcome, r.path, f)
    ensures Shows(f, ContentOf(r))
  {
    UntouchedMatches(base, put, outcome, files, doubt, r, f);
  }

  ghost predicate AnswerShows(put: Put, files: Files, outcome: Outcome, r: Row)
    requires !outcome.Unconfirmed?
  {
    forall f | ReportedAs(files, put, outcome, r.path, f) :: Shows(f, ContentOf(r))
  }

  lemma {:induction false} SparedAnswerShows(base: seq<Row>, put: Put, files: Files, doubt: set<Effect>, outcome: Outcome, r: Row)
    requires Sound(base, files, doubt) && NonePending(base) && KeptStand(base, put) && !outcome.Unconfirmed?
    requires r in base && r.state == Ready && Spares(put, r)
    ensures AnswerShows(put, files, outcome, r)
  {
    forall f | ReportedAs(files, put, outcome, r.path, f) { SparedFileStays(base, put, files, doubt, outcome, r, f); }
  }

  /** Every effect of a put at the path of a row it spares stores the login that is there. */
  lemma {:induction false} SparedFileIsRestored(base: seq<Row>, put: Put, e: Effect, r: Row)
    requires WellKept(base) && KeptStand(base, put) && r in base && r.state == Ready && Spares(put, r)
    requires IsEffect(put, e) && e.path == r.path
    ensures e == Store(r.path, ContentOf(r))
  {
    if e.Store? && !(exists w :: w in put.writes && e.path == w.path && e.content == Wanted(w.selection)) {
      var k :| k in put.keptKeys && e.path == KeyFile(k.id) && e.content == Wanted(k.selection);
      var b :| b in base && b.id == k.id && IsKeyRow(b) && ContentOf(b) == Wanted(k.selection);
      assert b.path == r.path && r.path == PlacementPath(r.provider, r.login, r.id);
      assert b == r;
    }
  }

  /** However much of the put's script lands, and whenever, the row's file is as it was, or has the row's
      login again where the person had taken it away. */
  ghost predicate FileKept(put: Put, files: Files, r: Row) {
    forall effects: seq<Effect> | (forall e | e in effects :: IsEffect(put, e)) ::
      FileAt(Landing(files, effects), r.path) == FileAt(files, r.path)
      || FileAt(Landing(files, effects), r.path) == Some(There(ContentOf(r)))
  }

  lemma {:induction false} SparedFileKept(base: seq<Row>, put: Put, files: Files, doubt: set<Effect>, r: Row)
    requires Sound(base, files, doubt) && NonePending(base) && KeptStand(base, put)
    requires r in base && r.state == Ready && Spares(put, r)
    ensures Shows(FileAt(files, r.path), ContentOf(r)) && FileKept(put, files, r)
  {
    assert Stands(base, r);
    forall effects: seq<Effect> | (forall e | e in effects :: IsEffect(put, e))
      ensures FileAt(Landing(files, effects), r.path) == FileAt(files, r.path)
              || FileAt(Landing(files, effects), r.path) == Some(There(ContentOf(r)))
    {
      forall e | e in effects && e.path == r.path ensures e == Store(r.path, ContentOf(r)) {
        SparedFileIsRestored(base, put, e, r);
      }
      LandingAt(files, effects, Store(r.path, ContentOf(r)));
    }
  }

  /** A planned put never touches a login a running process holds: whatever is answered or lost, each
      live ready row it does not reuse keeps its id, path and ready state, no write of the put goes to
      its path, and its file keeps its login, unless the person took it away, whatever part of the script
      lands. */
  lemma {:induction false} PutKeepsLive(rows: seq<Row>, live: Option<seq<Id>>, selected: seq<Selection>, removed: seq<Provider>,
                                        owner: string, newIds: seq<Id>, put: Put, accounts: Accounts, start: Start, r: Row,
                                        files: Files, doubt: set<Effect>, settledBy: Accounts, outcome: Outcome)
    requires PlanPremises(rows, selected, removed, PlanHomePut(rows, live, selected, removed), newIds)
    requires put == PutOf(owner, PlanHomePut(rows, live, selected, removed), newIds)
    requires start == BeginHomeWrite(rows, accounts, put) && start.Begun?
    requires Sound(rows, files, doubt) && NonePending(rows)
    requires r in rows && r.state == Ready && live.Some? && r.id in live.value && !Reused(put.writes, r.id)
    ensures r in start.rows && Stands(start.rows, r) && r in SettleInDoubt(start.rows)
    ensures r in SettleHomeWrite(start.rows, settledBy, start.intent, outcome)
    ensures forall w | w in put.writes :: w.path != r.path
    ensures !outcome.Unconfirmed? ==> AnswerShows(put, files, outcome, r)
    ensures Shows(FileAt(files, r.path), ContentOf(r)) && FileKept(put, files, r)
  {
    hide AnswerShows, FileKept;
    PlannedPutIsOk(rows, live, selected, removed, owner, newIds);
    LiveIsSpared(rows, live, selected, removed, owner, newIds, r);
    BeginShape(rows, accounts, put);
    SparedRowStays(rows, put, start.rows, start.intent, settledBy, outcome, r);
    SparedRowStands(rows, put, start.rows, r);
    if !outcome.Unconfirmed? { SparedAnswerShows(rows, put, files, doubt, outcome, r); }
    SparedFileKept(rows, put, files, doubt, r);
  }
}
