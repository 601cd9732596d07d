/** What beginning a put leaves, row by row: the reused rows pending, the removed ones removing, one
    pending row for each new login, and everything else as it was. */
module HomeBegin {
  import opened Wrappers
  import opened Placements
  import opened HomeScript
  import opened HomeProtocol

  function Marked(writes: seq<HomeWrite>, b: Row): Row {
    if Reused(writes, b.id) then b.(state := Pending) else b
  }

  /** `rows` are the base rows with the reused ones pending, and a row for each new write. */
  ghost predicate WritesBegun(base: seq<Row>, writes: seq<HomeWrite>, rows: seq<Row>) {
    && (forall b | b in base :: Marked(writes, b) in rows)
    && (forall w | w in writes && w.reuse.None? :: NewRow(w) in rows)
    && forall r | r in rows ::
         || (exists b :: b in base && r == Marked(writes, b))
         || (exists w :: w in writes && w.reuse.None? && r == NewRow(w))
  }

  function IntentOf(w: HomeWrite): WriteIntent {
    WriteIntent(w.selection.provider, w.id, w.path, w.selection.revision, w.reuse.None?)
  }

  ghost predicate IntentsOf(writes: seq<HomeWrite>, intents: seq<WriteIntent>) {
    |intents| == |writes| && forall i | 0 <= i < |writes| :: intents[i] == IntentOf(writes[i])
  }

  lemma {:induction false} MarkedGrows(writes: seq<HomeWrite>, b: Row)
    requires writes != []
    ensures Marked(writes, b) == if Reuses(writes[|writes| - 1], b.id) then b.(state := Pending)
                                 else Marked(writes[..|writes| - 1], b)
  {
    var n := |writes| - 1;
    assert writes == writes[..n] + [writes[n]];
    if !Reuses(writes[n], b.id) {
      assert forall w | w in writes && Reuses(w, b.id) :: w in writes[..n];
    } else {
      assert writes[n] in writes;
    }
  }

  /** The row a reusing write finds is the base row it names, at the write's own path. */
  lemma {:induction false} FoundReused(base: seq<Row>, put: Put, writes: seq<HomeWrite>, rows: seq<Row>, w: HomeWrite)
    requires WellKept(base) && WriteOk(base, put, w) && w.reuse.Some?
    requires forall v | v in writes :: WriteOk(base, put, v)
    requires WritesBegun(base, writes, rows) && Find(rows, w.id).Some?
    ensures Find(rows, w.id).value.path == w.path
    ensures forall v | v in writes && v.reuse.None? :: v.id != w.id
  {
    var found := Find(rows, w.id).value;
    var b :| b in base && b.id == w.id && b.provider == w.selection.provider && !IsKeyRow(b);
    assert b.path == w.path;
    forall v | v in writes && v.reuse.None? ensures v.id != w.id {
      assert WriteOk(base, put, v);
    }
    if c :| c in base && found == Marked(writes, c) {
      assert c == b;
    }
  }

  lemma {:induction false} ReuseStep(base: seq<Row>, put: Put, writes: seq<HomeWrite>, rows: seq<Row>)
    requires writes != [] && writes[|writes| - 1].reuse == Some(writes[|writes| - 1].id)
    requires WritesBegun(base, writes[..|writes| - 1], rows)
    requires forall v | v in writes && v.reuse.None? :: v.id != writes[|writes| - 1].id
    ensures WritesBegun(base, writes, MarkPending(rows, writes[|writes| - 1].id))
  {
    var n := |writes| - 1;
    var pre, w := writes[..n], writes[n];
    var next := MarkPending(rows, w.id);
    var mark := (r: Row) => if r.id == w.id then r.(state := Pending) else r;
    assert next == MapRows(rows, mark);
    assert writes == pre + [w];
    forall b | b in base ensures Marked(writes, b) in next && mark(Marked(pre, b)) == Marked(writes, b) {
      MarkedGrows(writes, b);
      assert mark(Marked(pre, b)) in next;
    }
    forall v | v in writes && v.reuse.None? ensures NewRow(v) in next && mark(NewRow(v)) == NewRow(v) {
      assert v in pre;
      assert mark(NewRow(v)) in next;
    }
    forall r | r in next
      ensures (exists b :: b in base && r == Marked(writes, b)) || (exists v :: v in writes && v.reuse.None? && r == NewRow(v))
    {
      var q :| q in rows && r == mark(q);
      if b :| b in base && q == Marked(pre, b) {
        assert r == Marked(writes, b);
      } else {
        var v :| v in pre && v.reuse.None? && q == NewRow(v);
        assert v in writes && r == NewRow(v);
      }
    }
  }

  lemma {:induction false} InsertStep(base: seq<Row>, writes: seq<HomeWrite>, rows: seq<Row>)
    requires writes != [] && writes[|writes| - 1].reuse.None?
    requires WritesBegun(base, writes[..|writes| - 1], rows)
    ensures WritesBegun(base, writes, rows + [NewRow(writes[|writes| - 1])])
  {
    var n := |writes| - 1;
    var pre, w := writes[..n], writes[n];
    var next := rows + [NewRow(w)];
    assert writes == pre + [w];
    forall b | b in base ensures Marked(writes, b) in next && Marked(writes, b) == Marked(pre, b) {
      MarkedGrows(writes, b);
      assert Marked(pre, b) in rows;
    }
    forall v | v in writes && v.reuse.None? ensures NewRow(v) in next {
      if v != w { assert v in pre; }
    }
    forall r | r in next
      ensures (exists b :: b in base && r == Marked(writes, b)) || (exists v :: v in writes && v.reuse.None? && r == NewRow(v))
    {
      if r in rows {
        if b :| b in base && r == Marked(pre, b) {
          assert r == Marked(writes, b);
        } else {
          var v :| v in pre && v.reuse.None? && r == NewRow(v);
          assert v in writes;
        }
      } else {
        assert w in writes && r == NewRow(w);
      }
    }
  }

  lemma {:induction false} IntentStep(writes: seq<HomeWrite>, intents: seq<WriteIntent>)
    requires writes != [] && IntentsOf(writes[..|writes| - 1], intents)
    ensures IntentsOf(writes, intents + [IntentOf(writes[|writes| - 1])])
  {
  }

  /** One more write begun. */
  lemma {:induction false} BeginOne(base: seq<Row>, accounts: Accounts, put: Put, writes: seq<HomeWrite>, before: Progress)
    requires WellKept(base) && (forall v | v in writes :: WriteOk(base, put, v)) && writes != []
    requires WritesBegun(base, writes[..|writes| - 1], before.rows) && IntentsOf(writes[..|writes| - 1], before.writes)
    requires BeginWrite(before, accounts, put.owner, writes[|writes| - 1]).Some?
    ensures var begun := BeginWrite(before, accounts, put.owner, writes[|writes| - 1]).value;
            WritesBegun(base, writes, begun.rows) && IntentsOf(writes, begun.writes)
  {
    var n := |writes| - 1;
    var pre, w := writes[..n], writes[n];
    assert w in writes && WriteOk(base, put, w);
    assert writes == pre + [w];
    IntentStep(writes, before.writes);
    if w.reuse.Some? {
      FoundReused(base, put, pre, before.rows, w);
      assert forall v | v in writes && v.reuse.None? :: v in pre;
      ReuseStep(base, put, writes, before.rows);
    } else {
      InsertStep(base, writes, before.rows);
    }
  }

  /** Beginning the writes of a put leaves the rows and intents above. */
  lemma {:induction false} BeginWritesShape(base: seq<Row>, accounts: Accounts, put: Put, writes: seq<HomeWrite>)
    requires WellKept(base) && (forall w | w in writes :: WriteOk(base, put, w))
    requires BeginWrites(base, accounts, put.owner, writes).Some?
    ensures var begun := BeginWrites(base, accounts, put.owner, writes).value;
            WritesBegun(base, writes, begun.rows) && IntentsOf(writes, begun.writes)
  {
    if writes == [] {
      assert forall b | b in base :: Marked(writes, b) == b;
    } else {
      BeginWritesShape(base, accounts, put, writes[..|writes| - 1]);
      BeginOne(base, accounts, put, writes, BeginWrites(base, accounts, put.owner, writes[..|writes| - 1]).value);
    }
  }

  // ---------------------------------------------------------------------------------------------
  // The whole start
  // ---------------------------------------------------------------------------------------------

  function BegunRow(put: Put, b: Row): Row {
    if Reused(put.writes, b.id) then b.(state := Pending) else if RetiredBy(put, b) then Retire(b) else b
  }

  ghost predicate BegunFrom(base: seq<Row>, put: Put, begun: seq<Row>) {
    && (forall b | b in base :: BegunRow(put, b) in begun)
    && (forall w | w in put.writes && w.reuse.None? :: NewRow(w) in begun)
    && forall r | r in begun ::
         || (exists b :: b in base && r == BegunRow(put, b))
         || (exists w :: w in put.writes && w.reuse.None? && r == NewRow(w))
  }

  /** The put's own rows are not among those it removes. */
  ghost predicate RetiredFrom(base: seq<Row>, put: Put, retired: seq<Id>) {
    forall id :: id in retired <==> exists b :: b in base && b.id == id && RetiredBy(put, b)
  }

  lemma {:induction false} ReusedIsNotRetired(base: seq<Row>, put: Put, b: Row)
    requires WellKept(base) && PutOk(base, put) && b in base && Reused(put.writes, b.id)
    ensures !RetiredBy(put, b) && !IsKeyRow(b) && b.state == Ready
  {
    var w :| w in put.writes && Reuses(w, b.id);
    assert WriteOk(base, put, w);
    var c :| c in base && c.id == w.id && c.state == Ready && c.provider == w.selection.provider && !IsKeyRow(c);
    assert c == b;
  }

  /** The kept keys of a begun put name ready key rows of the same login. */
  ghost predicate KeptStand(base: seq<Row>, put: Put) {
    forall k | k in put.keptKeys ::
      exists r :: r in base && r.id == k.id && r.state == Ready && IsKeyRow(r) && ContentOf(r) == Wanted(k.selection)
  }

  lemma {:induction false} BeginShape(base: seq<Row>, accounts: Accounts, put: Put)
    requires WellKept(base) && NonePending(base) && PutOk(base, put)
    requires BeginHomeWrite(base, accounts, put).Begun?
    ensures var start := BeginHomeWrite(base, accounts, put);
            && BegunFrom(base, put, start.rows) && IntentsOf(put.writes, start.intent.writes)
            && RetiredFrom(base, put, start.intent.retired) && KeptStand(base, put)
            && forall w | w in put.writes && w.reuse.None? ::
                 Row(w.id, w.selection.provider, w.selection.accountId, w.selection.revision, w.path, w.selection.login, Pending)
                 in start.rows
  {
    BeginWritesShape(base, accounts, put, put.writes);
    var rows := BeginWrites(base, accounts, put.owner, put.writes).value.rows;
    var retired := RetiredIds(rows, put);
    RetiredShape(base, put, rows);
    forall b | b in base { BaseRetires(base, put, retired, b); }
    forall w | w in put.writes && w.reuse.None? { FreshStays(base, put, retired, w); }
    BegunShape(base, put, rows, retired);
    forall k | k in put.keptKeys
      ensures exists r :: r in base && r.id == k.id && r.state == Ready && IsKeyRow(r) && ContentOf(r) == Wanted(k.selection)
    {
      assert KeptKeyStands(base, accounts, put.owner, k);
      var r := Find(base, k.id).value;
      assert IsKeyRow(r);
    }
  }

  lemma {:induction false} RetiredShape(base: seq<Row>, put: Put, rows: seq<Row>)
    requires WellKept(base) && PutOk(base, put) && WritesBegun(base, put.writes, rows)
    ensures RetiredFrom(base, put, RetiredIds(rows, put))
  {
    forall id | id in RetiredIds(rows, put) ensures exists b :: b in base && b.id == id && RetiredBy(put, b) {
      var r :| r in rows && RetiredBy(put, r) && r.id == id;
      if b :| b in base && r == Marked(put.writes, b) { assert r == b; }
    }
    forall b | b in base && RetiredBy(put, b) ensures b.id in RetiredIds(rows, put) {
      if Reused(put.writes, b.id) { ReusedIsNotRetired(base, put, b); }
      assert Marked(put.writes, b) == b && b in rows;
    }
  }

  lemma {:induction false} BaseRetires(base: seq<Row>, put: Put, retired: seq<Id>, b: Row)
    requires WellKept(base) && PutOk(base, put) && RetiredFrom(base, put, retired) && b in base
    ensures RetireIn(retired, Marked(put.writes, b)) == BegunRow(put, b)
  {
    if Reused(put.writes, b.id) { ReusedIsNotRetired(base, put, b); }
    assert b.id in retired <==> RetiredBy(put, b);
  }

  lemma {:induction false} FreshStays(base: seq<Row>, put: Put, retired: seq<Id>, w: HomeWrite)
    requires PutOk(base, put) && RetiredFrom(base, put, retired) && w in put.writes && w.reuse.None?
    ensures RetireIn(retired, NewRow(w)) == NewRow(w)
  {
    assert WriteOk(base, put, w);
  }

  lemma {:induction false} BegunShape(base: seq<Row>, put: Put, rows: seq<Row>, retired: seq<Id>)
    requires WritesBegun(base, put.writes, rows)
    requires forall b | b in base :: RetireIn(retired, Marked(put.writes, b)) == BegunRow(put, b)
    requires forall w | w in put.writes && w.reuse.None? :: RetireIn(retired, NewRow(w)) == NewRow(w)
    ensures BegunFrom(base, put, RetireIds(rows, retired))
  {
    var begun := RetireIds(rows, retired);
    forall r | r in begun
      ensures (exists b :: b in base && r == BegunRow(put, b)) || (exists w :: w in put.writes && w.reuse.None? && r == NewRow(w))
    {
      var q :| q in rows && r == RetireIn(retired, q);
      if b :| b in base && q == Marked(put.writes, b) {
        assert r == BegunRow(put, b);
      } else {
        var w :| w in put.writes && w.reuse.None? && q == NewRow(w);
        assert r == NewRow(w);
      }
    }
  }

  // ---------------------------------------------------------------------------------------------
  // When a put begins
  // ---------------------------------------------------------------------------------------------

  ghost predicate OneRowPerId(rows: seq<Row>) {
    forall r, s | r in rows && s in rows && r.id == s.id :: r == s
  }

  predicate FoundReady(rows: seq<Row>, id: Id) {
    Find(rows, id).Some? && Find(rows, id).value.state == Ready
  }

  ghost predicate HasReady(rows: seq<Row>, id: Id) {
    exists r :: r in rows && r.id == id && r.state == Ready
  }

  lemma {:induction false} MarkedTail(rows: seq<Row>, marked: Id)
    ensures |MarkPending(rows, marked)| == |rows|
    ensures rows != [] ==>
              && MarkPending(rows, marked)[0] == (if rows[0].id == marked then rows[0].(state := Pending) else rows[0])
              && MarkPending(rows, marked)[1..] == MarkPending(rows[1..], marked)
  {
  }

  lemma {:induction false} FindMarked(rows: seq<Row>, marked: Id, id: Id)
    ensures FoundReady(MarkPending(rows, marked), id) <==> FoundReady(rows, id) && id != marked
  {
    hide MarkPending, MapRows;
    MarkedTail(rows, marked);
    if rows != [] {
      FindMarked(rows[1..], marked, id);
    }
  }

  lemma {:induction false} FindAppended(rows: seq<Row>, row: Row, id: Id)
    requires row.state == Pending
    ensures FoundReady(rows + [row], id) <==> FoundReady(rows, id)
  {
    if rows != [] {
      assert (rows + [row])[1..] == rows[1..] + [row];
      FindAppended(rows[1..], row, id);
    } else {
      assert (rows + [row])[1..] == [];
    }
  }

  /** No two writes reuse one row. */
  ghost predicate ReuseDistinct(writes: seq<HomeWrite>) {
    forall i, j | 0 <= i < j < |writes| && writes[i].reuse.Some? :: writes[i].reuse != writes[j].reuse
  }

  ghost predicate WritesStand(rows: seq<Row>, accounts: Accounts, owner: string, writes: seq<HomeWrite>) {
    && (forall w | w in writes :: !Moved(accounts, owner, w.selection))
    && (forall w | w in writes && w.reuse.Some? :: FoundReady(rows, w.reuse.value))
    && ReuseDistinct(writes)
  }

  /** The rows a begun put finds ready are those ready before that no earlier write reused. */
  ghost predicate ReadyLeft(rows: seq<Row>, writes: seq<HomeWrite>, left: seq<Row>) {
    forall id :: FoundReady(left, id) <==> FoundReady(rows, id) && !Reused(writes, id)
  }

  lemma {:induction false} ReadyLeftStep(rows: seq<Row>, accounts: Accounts, owner: string, writes: seq<HomeWrite>,
                                         before: Progress)
    requires writes != [] && ReadyLeft(rows, writes[..|writes| - 1], before.rows)
    requires BeginWrite(before, accounts, owner, writes[|writes| - 1]).Some?
    ensures ReadyLeft(rows, writes, BeginWrite(before, accounts, owner, writes[|writes| - 1]).value.rows)
  {
    var pre, w := writes[..|writes| - 1], writes[|writes| - 1];
    var left := BeginWrite(before, accounts, owner, w).value.rows;
    forall id ensures FoundReady(left, id) <==> FoundReady(rows, id) && !Reused(writes, id) {
      assert Reused(writes, id) <==> Reused(pre, id) || Reuses(w, id) by {
        assert writes == pre + [w];
        if Reuses(w, id) { assert w in writes; }
        if v :| v in pre && Reuses(v, id) { assert v in writes; }
      }
      if w.reuse.Some? { FindMarked(before.rows, w.reuse.value, id); } else { FindAppended(before.rows, NewRow(w), id); }
    }
  }

  lemma {:induction false} DistinctStep(writes: seq<HomeWrite>)
    requires writes != []
    ensures var pre, w := writes[..|writes| - 1], writes[|writes| - 1];
            ReuseDistinct(writes) <==> ReuseDistinct(pre) && (w.reuse.Some? ==> !Reused(pre, w.reuse.value))
  {
    var pre, w := writes[..|writes| - 1], writes[|writes| - 1];
    if ReuseDistinct(pre) && (w.reuse.Some? ==> !Reused(pre, w.reuse.value)) {
      forall i, j | 0 <= i < j < |writes| && writes[i].reuse.Some? ensures writes[i].reuse != writes[j].reuse {
        if j < |pre| {
          assert pre[i].reuse != pre[j].reuse;
        } else if writes[i].reuse == w.reuse {
          assert pre[i] in pre && Reuses(pre[i], w.reuse.value);
        }
      }
    }
  }

  /** The writes begin exactly when each stands at the start and no two reuse one row. */
  lemma {:induction false} WritesBegin(rows: seq<Row>, accounts: Accounts, owner: string, writes: seq<HomeWrite>)
    ensures var begun := BeginWrites(rows, accounts, owner, writes);
            && (begun.Some? <==> WritesStand(rows, accounts, owner, writes))
            && (begun.Some? ==> ReadyLeft(rows, writes, begun.value.rows))
  {
    if writes != [] {
      var pre, w := writes[..|writes| - 1], writes[|writes| - 1];
      WritesBegin(rows, accounts, owner, pre);
      DistinctStep(writes);
      assert writes == pre + [w];
      assert WritesStand(rows, accounts, owner, writes) <==>
             && WritesStand(rows, accounts, owner, pre) && !Moved(accounts, owner, w.selection)
             && (w.reuse.Some? ==> FoundReady(rows, w.reuse.value) && !Reused(pre, w.reuse.value));
      var before := BeginWrites(rows, accounts, owner, pre);
      if before.Some? && BeginWrite(before.value, accounts, owner, w).Some? {
        ReadyLeftStep(rows, accounts, owner, writes, before.value);
      }
    }
  }

  lemma {:induction false} FoundIsTheOne(rows: seq<Row>, id: Id)
    requires OneRowPerId(rows)
    ensures FoundReady(rows, id) <==> HasReady(rows, id)
  {
    if r :| r in rows && r.id == id && r.state == Ready {
      assert Find(rows, id).Some?;
    }
  }

  lemma {:induction false} KeptIsTheOne(rows: seq<Row>, accounts: Accounts, owner: string, k: KeptKey)
    requires OneRowPerId(rows)
    ensures KeptKeyStands(rows, accounts, owner, k) <==>
              && !Moved(accounts, owner, k.selection)
              && exists r :: r in rows && r.id == k.id && r.state == Ready
                             && r.accountId == k.selection.accountId && r.revision == k.selection.revision
  {
    if r :| r in rows && r.id == k.id && r.state == Ready && SameLogin(r, k.selection) {
      assert Find(rows, k.id).Some?;
    }
  }

  lemma {:induction false} MovedExactly(accounts: Accounts, owner: string, s: Selection)
    ensures !Moved(accounts, owner, s) <==>
              && s.accountId in accounts
              && accounts[s.accountId].status == Active
              && accounts[s.accountId].revision == s.revision
              && accounts[s.accountId].ownerUserId == owner
              && (s.provider in {Pi, Opencode} ==> accounts[s.accountId].provider == Codex)
              && (s.provider in {Claude, Codex, Github} ==> accounts[s.accountId].provider == s.provider)
  {
  }

  /** A put begins exactly when every login it writes or restores is still the account's own: present,
      active, at the selected revision, the owner's, and of the kind the login is made from (Codex for
      pi and opencode); every key it restores has a ready row of that login; and every row it reuses is
      ready and reused once. Otherwise it is answered that the accounts moved, and changes nothing. */
  lemma {:induction false} BeginsExactly(rows: seq<Row>, accounts: Accounts, put: Put)
    requires forall r, s | r in rows && s in rows && r.id == s.id :: r == s
    ensures BeginHomeWrite(rows, accounts, put).Begun? <==>
      && (forall w | w in put.writes ::
            && w.selection.accountId in accounts
            && accounts[w.selection.accountId].status == Active
            && accounts[w.selection.accountId].revision == w.selection.revision
            && accounts[w.selection.accountId].ownerUserId == put.owner
            && (w.selection.provider in {Pi, Opencode} ==> accounts[w.selection.accountId].provider == Codex)
            && (w.selection.provider in {Claude, Codex, Github} ==>
                  accounts[w.selection.accountId].provider == w.selection.provider))
      && (forall k | k in put.keptKeys ::
            && k.selection.accountId in accounts
            && accounts[k.selection.accountId].status == Active
            && accounts[k.selection.accountId].revision == k.selection.revision
            && accounts[k.selection.accountId].ownerUserId == put.owner
            && (k.selection.provider in {Pi, Opencode} ==> accounts[k.selection.accountId].provider == Codex)
            && (k.selection.provider in {Claude, Codex, Github} ==>
                  accounts[k.selection.accountId].provider == k.selection.provider))
      && (forall k | k in put.keptKeys ::
            exists r :: r in rows && r.id == k.id && r.state == Ready
                        && r.accountId == k.selection.accountId && r.revision == k.selection.revision)
      && (forall w | w in put.writes && w.reuse.Some? ::
            exists r :: r in rows && r.id == w.reuse.value && r.state == Ready)
      && (forall i, j | 0 <= i < j < |put.writes| && put.writes[i].reuse.Some? ::
            put.writes[i].reuse != put.writes[j].reuse)
  {
    hide BeginWrites, Find, Moved, KeptKeyStands, RetiredIds, RetireIds;
    WritesBegin(rows, accounts, put.owner, put.writes);
    forall s: Selection { MovedExactly(accounts, put.owner, s); }
    forall w | w in put.writes && w.reuse.Some?
      ensures FoundReady(rows, w.reuse.value) <==> exists r :: r in rows && r.id == w.reuse.value && r.state == Ready
    {
      FoundIsTheOne(rows, w.reuse.value);
    }
    forall k | k in put.keptKeys
      ensures KeptKeyStands(rows, accounts, put.owner, k) <==>
                && !Moved(accounts, put.owner, k.selection)
                && exists r :: r in rows && r.id == k.id && r.state == Ready
                               && r.accountId == k.selection.accountId && r.revision == k.selection.revision
    {
      KeptIsTheOne(rows, accounts, put.owner, k);
    }
    assert WritesStand(rows, accounts, put.owner, put.writes) <==>
           BeginWrites(rows, accounts, put.owner, put.writes).Some?;
  }
}
