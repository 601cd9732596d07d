/** A put whose script was refused on the way: exactly when settling it by what the refusal reports
    leaves a sound home, and puts for which it does not. */
module HomeRefusals {
  import opened Wrappers
  import opened Placements
  import opened HomeScript
  import opened HomeProtocol
  import opened HomeBegin
  import opened HomeSafety
  import opened HomeSettle
  import opened HomeFiles

  function SettledHome(h: Home, accounts: Accounts, stop: Stop): seq<Row>
    requires h.phase.Running?
  {
    SettleHomeWrite(h.rows, accounts, h.phase.intent, RefusalOf(h.phase.put, stop))
  }

  // ---------------------------------------------------------------------------------------------
  // The rows ready again after a refusal
  // ---------------------------------------------------------------------------------------------

  ghost predicate NoneLanded(put: Put, outcome: Outcome, p: Path) {
    forall w | w in put.writes && w.path == p :: !Landed(outcome, IntentOf(w))
  }

  function RowNow(h: Home, b: Row): Row
    requires h.phase.Running?
  {
    ArchiveRow(h.phase.archived, BegunRow(h.phase.put, b))
  }

  /** The settled form of a row the put began on, at a path nothing landed at: the row itself when it is
      ready again, and else not ready. */
  lemma {:induction false} SettledBase(h: Home, accounts: Accounts, outcome: Outcome, b: Row)
    requires RunningOk(h) && outcome.Refused? && b in h.phase.base && NoneLanded(h.phase.put, outcome, b.path)
    ensures var s := SettledRow(RowNow(h, b), accounts, h.phase.intent, outcome);
            if ReadyAgain(h.phase.put, h.phase.archived, accounts, b) then s == b else s.state != Ready
  {
    if Reused(h.phase.put.writes, b.id) {
      SettledReused(h, accounts, outcome, b);
    } else {
      SettledUnnamed(h, accounts, outcome, b);
    }
  }

  lemma {:induction false} SettledReused(h: Home, accounts: Accounts, outcome: Outcome, b: Row)
    requires RunningOk(h) && outcome.Refused? && b in h.phase.base && NoneLanded(h.phase.put, outcome, b.path)
    requires Reused(h.phase.put.writes, b.id)
    ensures var s := SettledRow(RowNow(h, b), accounts, h.phase.intent, outcome);
            if ReadyAgain(h.phase.put, h.phase.archived, accounts, b) then s == b else s.state != Ready
  {
    var base, put := h.phase.base, h.phase.put;
    ReusedIsNotRetired(base, put, b);
    var w :| w in put.writes && Reuses(w, b.id);
    assert WriteOk(base, put, w);
    var c := ReusedRow(base, put, w);
    assert c == b;
    SettleWriteRow(base, put, h.phase.intent, accounts, outcome, w, RowNow(h, b));
  }

  lemma {:induction false} SettledUnnamed(h: Home, accounts: Accounts, outcome: Outcome, b: Row)
    requires RunningOk(h) && outcome.Refused? && b in h.phase.base && NoneLanded(h.phase.put, outcome, b.path)
    requires !Reused(h.phase.put.writes, b.id)
    ensures var s := SettledRow(RowNow(h, b), accounts, h.phase.intent, outcome);
            if ReadyAgain(h.phase.put, h.phase.archived, accounts, b) then s == b else s.state != Ready
  {
    var base, put, intent := h.phase.base, h.phase.put, h.phase.intent;
    forall v | v in intent.writes ensures v.id != b.id && (v.path == b.path ==> !Displaces(outcome, v)) {
      var w := IntentIsWrite(put, intent, v);
      assert WriteOk(base, put, w) && !Reuses(w, b.id);
    }
    SettleOther(RowNow(h, b), accounts, intent.writes, outcome);
    RetiredOnlyIf(base, put, intent, b);
    assert RetiredBy(put, b) ==> b.id in intent.retired;
  }

  /** The row a settlement leaves for one it was made on: its settled form, and no other of its id. */
  lemma {:induction false} SettledForm(h: Home, accounts: Accounts, outcome: Outcome, c: Row)
    requires RunningOk(h) && outcome.Refused? && c in h.rows && c.id !in Forgotten(h.phase.intent, outcome)
    ensures forall s: Row | s.id == c.id ::
              s in SettleHomeWrite(h.rows, accounts, h.phase.intent, outcome)
              <==> s == SettledRow(c, accounts, h.phase.intent, outcome)
  {
    var next := SettleHomeWrite(h.rows, accounts, h.phase.intent, outcome);
    RunningKept(h);
    SettledFinds(h.rows, accounts, h.phase.intent, outcome, c);
    forall s | s in next && s.id == c.id ensures s == SettledRow(c, accounts, h.phase.intent, outcome) {
      var d := SettledFrom(h.rows, accounts, h.phase.intent, outcome, s);
    }
  }

  /** A row the put began on is ready after a refusal exactly when it is ready again. */
  lemma {:induction false} BackExactly(h: Home, accounts: Accounts, stop: Stop, b: Row)
    requires RunningOk(h) && b in h.phase.base && NoneLanded(h.phase.put, RefusalOf(h.phase.put, stop), b.path)
    ensures b in SettledHome(h, accounts, stop) && b.state == Ready <==> ReadyAgain(h.phase.put, h.phase.archived, accounts, b)
  {
    var outcome := RefusalOf(h.phase.put, stop);
    SettledBase(h, accounts, outcome, b);
    BaseIsNotForgotten(h.phase.base, h.phase.put, h.phase.intent, outcome, b);
    SettledForm(h, accounts, outcome, RowNow(h, b));
  }

  lemma {:induction false} SettledNonePending(h: Home, accounts: Accounts, outcome: Outcome, s: Row)
    requires RunningOk(h) && outcome.Refused? && s in SettleHomeWrite(h.rows, accounts, h.phase.intent, outcome)
    ensures s.state != Pending
  {
    var c := SettledFrom(h.rows, accounts, h.phase.intent, outcome, s);
    if w :| w in h.phase.put.writes && w.id == c.id {
      WrittenNotPending(h, accounts, outcome, w, c);
    } else {
      OtherNotPending(h, accounts, outcome, c);
    }
  }

  lemma {:induction false} WrittenNotPending(h: Home, accounts: Accounts, outcome: Outcome, w: HomeWrite, c: Row)
    requires RunningOk(h) && c in h.rows && c.id !in Forgotten(h.phase.intent, outcome) && outcome.Refused?
    requires w in h.phase.put.writes && w.id == c.id
    ensures SettledRow(c, accounts, h.phase.intent, outcome).state != Pending
  {
    var base, put, intent := h.phase.base, h.phase.put, h.phase.intent;
    IntentIsListed(put, intent, w);
    assert WriteOk(base, put, w);
    var r := WriteHasRow(base, put, h.phase.archived, h.rows, w);
    RowsKept(base, put, h.phase.archived, h.rows, r, c);
    SettleWriteRow(base, put, intent, accounts, outcome, w, c);
  }

  lemma {:induction false} OtherNotPending(h: Home, accounts: Accounts, outcome: Outcome, c: Row)
    requires RunningOk(h) && c in h.rows && forall w | w in h.phase.put.writes :: w.id != c.id
    ensures SettledRow(c, accounts, h.phase.intent, outcome).state != Pending
  {
    var base, put, intent := h.phase.base, h.phase.put, h.phase.intent;
    forall v | v in intent.writes ensures v.id != c.id { var w := IntentIsWrite(put, intent, v); }
    SettleOther(c, accounts, intent.writes, outcome);
    if c.state == Pending { var w := PendingIsWrite(base, put, h.phase.archived, h.rows, c); }
  }

  // ---------------------------------------------------------------------------------------------
  // The effects a refusal does not report
  // ---------------------------------------------------------------------------------------------

  lemma {:induction false} UnreportedNotLanded(h: Home, stop: Stop, e: Effect)
    requires RunningOk(h) && StopOk(h.files, h.phase.put, stop) && Unreported(h.phase.put, stop, e)
    ensures NoneLanded(h.phase.put, RefusalOf(h.phase.put, stop), e.path)
  {
    LandedIsNotMerged(h.phase.put, stop);
    if stop.AtMerged? {
      var s := UnreportedIsRest(h.phase.put, stop, e);
      RestIsNotFirst(h.phase.base, h.phase.put, s, stop.kept);
    } else {
      NothingReported(h.files, h.phase.put, stop, e.path, FileAt(h.files, e.path));
    }
  }

  lemma {:induction false} UnreportedIsRest(put: Put, stop: Stop, e: Effect) returns (s: ScriptStep)
    requires stop.AtMerged? && Unreported(put, stop, e)
    ensures IsRest(put, s) && e == EffectOf(s, stop.kept)
  {
    s :| s in StepsBefore(put, stop) && UnreportedStep(s, stop) && e == EffectOf(s, KeptBy(stop));
  }

  /** Every login written where a later step is is a merged one. */
  lemma {:induction false} RestIsNotFirst(base: seq<Row>, put: Put, s: ScriptStep, kept: set<Provider>)
    requires PutOk(base, put) && WellKept(base) && IsRest(put, s)
    ensures forall w | w in put.writes && w.path == EffectOf(s, kept).path :: IsMerged(w.selection.provider)
  {
    forall w | w in put.writes && w.path == EffectOf(s, kept).path ensures IsMerged(w.selection.provider) {
      WriteIsNotDropped(base, put, w);
      if s.WriteLogin? { WritesDoNotMeet(base, put, s.write, w); }
    }
  }

  lemma {:induction false} LandedIsNotMerged(put: Put, stop: Stop)
    ensures forall w | w in put.writes && Landed(RefusalOf(put, stop), IntentOf(w)) :: !IsMerged(w.selection.provider)
    ensures !MergedRefused(CodeOf(stop)) ==> RefusalOf(put, stop) == Refused({})
  {
  }

  /** After a refusal, a path nothing landed at has a row exactly when it had one before the put. */
  lemma {:induction false} RowStaysExactly(h: Home, accounts: Accounts, stop: Stop, p: Path)
    requires RunningOk(h) && NoneLanded(h.phase.put, RefusalOf(h.phase.put, stop), p)
    ensures RowAt(SettledHome(h, accounts, stop), p) <==> RowAt(h.phase.base, p)
  {
    if b :| b in h.phase.base && b.path == p {
      BaseStaysSettled(h, accounts, RefusalOf(h.phase.put, stop), b);
    } else if s :| s in SettledHome(h, accounts, stop) && s.path == p {
      NewRowIsGone(h.phase.base, h.phase.put, h.phase.archived, h.rows, h.phase.intent, accounts,
                   RefusalOf(h.phase.put, stop), s);
    }
  }

  lemma {:induction false} NewRowIsGone(base: seq<Row>, put: Put, archived: set<AccountId>, rows: seq<Row>, intent: Intent,
                                       accounts: Accounts, outcome: Outcome, s: Row)
    requires RowsFrom(base, put, archived, rows) && IntentsOf(put.writes, intent.writes)
    requires outcome.Refused? && NoneLanded(put, outcome, s.path) && s in SettleHomeWrite(rows, accounts, intent, outcome)
    ensures RowAt(base, s.path)
  {
    var c := SettledFrom(rows, accounts, intent, outcome, s);
    var o := RowOrigin(base, put, archived, rows, c);
    if o.New? { NewIsForgotten(put, intent, outcome, o.write); }
  }

  lemma {:induction false} NewIsForgotten(put: Put, intent: Intent, outcome: Outcome, w: HomeWrite)
    requires IntentsOf(put.writes, intent.writes) && w in put.writes && w.reuse.None? && !Landed(outcome, IntentOf(w))
    ensures w.id in Forgotten(intent, outcome)
  {
    IntentIsListed(put, intent, w);
  }

  /** The rows ready at a path nothing landed at are those ready again there. */
  lemma {:induction false} ReadyAgainExactly(h: Home, accounts: Accounts, stop: Stop, p: Path, s: Row)
    requires RunningOk(h) && NoneLanded(h.phase.put, RefusalOf(h.phase.put, stop), p) && s.path == p
    ensures s in SettledHome(h, accounts, stop) && Stands(SettledHome(h, accounts, stop), s)
            <==> s in h.phase.base && ReadyAgain(h.phase.put, h.phase.archived, accounts, s)
  {
    var next, outcome := SettledHome(h, accounts, stop), RefusalOf(h.phase.put, stop);
    forall q | q in next ensures q.state != Pending { SettledNonePending(h, accounts, outcome, q); }
    if s in next && s.state == Ready {
      ReadySettled(h, accounts, outcome, s);
      assert s in h.phase.base;
    }
    if s in h.phase.base { BackExactly(h, accounts, stop, s); }
  }

  /** The rows a refusal is settled to bear an unreported effect exactly when those before the put do. */
  lemma {:induction false} BorneExactly(h: Home, accounts: Accounts, stop: Stop, e: Effect)
    requires RunningOk(h) && StopOk(h.files, h.phase.put, stop) && Unreported(h.phase.put, stop, e)
    ensures Harmless(SettledHome(h, accounts, stop), e)
            <==> Borne(h.phase.base, h.phase.put, h.phase.archived, accounts, e)
  {
    UnreportedNotLanded(h, stop, e);
    RowStaysExactly(h, accounts, stop, e.path);
    forall s: Row | s.path == e.path
      ensures s in SettledHome(h, accounts, stop) && Stands(SettledHome(h, accounts, stop), s)
              <==> s in h.phase.base && ReadyAgain(h.phase.put, h.phase.archived, accounts, s)
    {
      ReadyAgainExactly(h, accounts, stop, e.path, s);
    }
  }

  // ---------------------------------------------------------------------------------------------
  // Exactly when settling a refusal is safe
  // ---------------------------------------------------------------------------------------------

  ghost predicate SafeAt(h: Home, accounts: Accounts, stop: Stop)
    requires h.phase.Running?
  {
    RefusalSafe(h.files, h.phase.base, h.phase.put, h.phase.archived, accounts, stop)
  }

  lemma {:induction false} RefusalMatches(h: Home, accounts: Accounts, stop: Stop, s: Row)
    requires RunningOk(h) && StopOk(h.files, h.phase.put, stop) && SafeAt(h, accounts, stop)
    requires s in SettledHome(h, accounts, stop) && Stands(SettledHome(h, accounts, stop), s)
    ensures Shows(FileAt(AfterStop(h.files, h.phase.put, stop), s.path), ContentOf(s))
  {
    if e :| Unreported(h.phase.put, stop, e) && e.path == s.path {
      BorneExactly(h, accounts, stop, e);
      StoppedUnreported(h, stop, e);
    } else {
      StoppedReported(h, stop, s.path);
      SettledMatches(h, accounts, RefusalOf(h.phase.put, stop), s, FileAt(AfterStop(h.files, h.phase.put, stop), s.path));
    }
  }

  lemma {:induction false} RefusalRowed(h: Home, accounts: Accounts, stop: Stop, p: Path)
    requires RunningOk(h) && StopOk(h.files, h.phase.put, stop) && SafeAt(h, accounts, stop)
    requires Held(AfterStop(h.files, h.phase.put, stop), p).Some?
    ensures RowAt(SettledHome(h, accounts, stop), p)
  {
    if e :| Unreported(h.phase.put, stop, e) && e.path == p {
      BorneExactly(h, accounts, stop, e);
      StoppedUnreported(h, stop, e);
    } else {
      StoppedReported(h, stop, p);
      SettledRowed(h, accounts, RefusalOf(h.phase.put, stop), p, FileAt(AfterStop(h.files, h.phase.put, stop), p));
    }
  }

  lemma {:induction false} SafeRefusalSound(h: Home, accounts: Accounts, stop: Stop)
    requires RunningOk(h) && StopOk(h.files, h.phase.put, stop) && SafeAt(h, accounts, stop)
    ensures Sound(SettledHome(h, accounts, stop), AfterStop(h.files, h.phase.put, stop), DoubtAfter(h.doubt, stop))
  {
    var next, files := SettledHome(h, accounts, stop), AfterStop(h.files, h.phase.put, stop);
    SettledWellKept(h, accounts, RefusalOf(h.phase.put, stop));
    forall s | s in next && Stands(next, s) ensures Shows(FileAt(files, s.path), ContentOf(s)) {
      RefusalMatches(h, accounts, stop, s);
    }
    forall p | Held(files, p).Some? ensures RowAt(next, p) { RefusalRowed(h, accounts, stop, p); }
    forall e | e in DoubtAfter(h.doubt, stop) ensures Harmless(next, e) {
      RefusedHarmless(h, accounts, RefusalOf(h.phase.put, stop), e);
    }
  }

  /** An unreported effect the rows do not bear leaves a ready row that names a login not in its file, or
      a Core login with no row. */
  lemma {:induction false} UnborneMisreports(h: Home, accounts: Accounts, stop: Stop, e: Effect)
    requires RunningOk(h) && StopOk(h.files, h.phase.put, stop) && Unreported(h.phase.put, stop, e)
    requires !FoundLost(h.files, e) && !Borne(h.phase.base, h.phase.put, h.phase.archived, accounts, e)
    ensures var next, files := SettledHome(h, accounts, stop), AfterStop(h.files, h.phase.put, stop);
            if e.Store? && !RowAt(h.phase.base, e.path) then !Rowed(next, files) else !Matches(next, files)
  {
    BorneExactly(h, accounts, stop, e);
    StoppedUnreported(h, stop, e);
    UnreportedNotLanded(h, stop, e);
    RowStaysExactly(h, accounts, stop, e.path);
    HarmIsSeen(SettledHome(h, accounts, stop), AfterStop(h.files, h.phase.put, stop), e, FileAt(h.files, e.path));
  }

  lemma {:induction false} HarmIsSeen(rows: seq<Row>, files: Files, e: Effect, was: Option<File>)
    requires !Harmless(rows, e) && FileAt(files, e.path) == Left(was, e) && (e.Drop? ==> was != Some(Lost))
    ensures if e.Store? && !RowAt(rows, e.path) then !Rowed(rows, files) else !Matches(rows, files)
  {
    assert e.Store? ==> Held(files, e.path).Some?;
  }

  /** Exactly when the settlement of a refusal leaves a sound home: when the rows the put began on bear
      every effect of the script that the refusal does not report, but for removals of what the person had
      taken away already. */
  lemma {:induction false} RefusalExactly(h: Home, accounts: Accounts, stop: Stop)
    requires RunningOk(h) && StopOk(h.files, h.phase.put, stop)
    ensures Sound(SettledHome(h, accounts, stop), AfterStop(h.files, h.phase.put, stop), DoubtAfter(h.doubt, stop))
            <==> RefusalSafe(h.files, h.phase.base, h.phase.put, h.phase.archived, accounts, stop)
  {
    if SafeAt(h, accounts, stop) {
      SafeRefusalSound(h, accounts, stop);
    } else {
      var e :| Unreported(h.phase.put, stop, e) && !FoundLost(h.files, e)
               && !Borne(h.phase.base, h.phase.put, h.phase.archived, accounts, e);
      UnborneMisreports(h, accounts, stop, e);
    }
  }
}
