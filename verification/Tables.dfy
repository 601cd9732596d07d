/** Tables with unique keys, inserted into with `on conflict do nothing`: a row goes in unless one
    already there has a key in common with it. */
module Tables {
  /** The table once `rows` are inserted in order. */
  function Insert<R(==)>(table: seq<R>, rows: seq<R>, clash: (R, R) -> bool): (t: seq<R>)
    ensures table <= t
  {
    if rows == [] then table
    else InsertOne(Insert(table, rows[..|rows| - 1], clash), rows[|rows| - 1], clash)
  }

  function InsertOne<R(==)>(table: seq<R>, row: R, clash: (R, R) -> bool): seq<R> {
    if Taken(table, row, clash) then table else table + [row]
  }

  predicate Taken<R(==)>(table: seq<R>, row: R, clash: (R, R) -> bool) {
    exists r :: r in table && clash(r, row)
  }

  ghost predicate NoClash<R>(table: seq<R>, clash: (R, R) -> bool) {
    forall i, j | 0 <= i < j < |table| :: !clash(table[i], table[j])
  }

  method InsertRows<R(==)>(table: seq<R>, rows: seq<R>, clash: (R, R) -> bool) returns (t: seq<R>)
    ensures t == Insert(table, rows, clash)
  {
    t := table;
    for i := 0 to |rows|
      invariant t == Insert(table, rows[..i], clash)
    {
      assert rows[..i + 1][..i] == rows[..i];
      if !(exists r :: r in t && clash(r, rows[i])) { t := t + [rows[i]]; }
    }
    assert rows[..|rows|] == rows;
  }

  lemma {:induction false} InsertUnique<R>(table: seq<R>, rows: seq<R>, clash: (R, R) -> bool)
    requires NoClash(table, clash)
    ensures NoClash(Insert(table, rows, clash), clash)
  {
    if rows != [] {
      InsertUnique(table, rows[..|rows| - 1], clash);
      var before, row := Insert(table, rows[..|rows| - 1], clash), rows[|rows| - 1];
      if !Taken(before, row, clash) {
        forall i | 0 <= i < |before| ensures !clash(before[i], row) { assert before[i] in before; }
      }
    }
  }

  lemma {:induction false} InsertConcat<R>(table: seq<R>, a: seq<R>, b: seq<R>, clash: (R, R) -> bool)
    ensures Insert(table, a + b, clash) == Insert(Insert(table, a, clash), b, clash)
  {
    if b == [] {
      assert a + b == a;
    } else {
      assert (a + b)[..|a + b| - 1] == a + b[..|b| - 1];
      InsertConcat(table, a, b[..|b| - 1], clash);
    }
  }

  /** Rows come from the table or from what was inserted, and each row inserted is there or was kept
      out by one that is. */
  lemma {:induction false} InsertFrom<R>(table: seq<R>, rows: seq<R>, clash: (R, R) -> bool)
    ensures forall r | r in Insert(table, rows, clash) :: r in table || r in rows
    ensures forall r | r in rows :: r in Insert(table, rows, clash) || Taken(Insert(table, rows, clash), r, clash)
  {
    if rows != [] {
      var before, row := rows[..|rows| - 1], rows[|rows| - 1];
      InsertFrom(table, before, clash);
      assert rows == before + [row];
      assert Insert(table, before, clash) <= Insert(table, rows, clash);
    }
  }

  /** With every row taken already, nothing is inserted. */
  lemma {:induction false} InsertNothing<R>(table: seq<R>, rows: seq<R>, clash: (R, R) -> bool)
    requires forall r | r in rows :: Taken(table, r, clash)
    ensures Insert(table, rows, clash) == table
  {
    if rows != [] { InsertNothing(table, rows[..|rows| - 1], clash); }
  }

  function Map<A, B>(f: A -> B, s: seq<A>): (t: seq<B>)
    ensures |t| == |s| && forall i | 0 <= i < |s| :: t[i] == f(s[i])
    ensures forall a | a in s :: f(a) in t
    ensures forall b | b in t :: exists a :: a in s && b == f(a)
  {
    seq(|s|, i requires 0 <= i < |s| => f(s[i]))
  }

  /** Inserting the rows of entries is inserting the entries, told apart by their rows. */
  lemma {:induction false} InsertMap<A, B>(table: seq<A>, rows: seq<A>, f: A -> B, clash: (B, B) -> bool, lifted: (A, A) -> bool)
    requires forall a, b | (a in table || a in rows) && b in rows :: lifted(a, b) <==> clash(f(a), f(b))
    ensures Insert(Map(f, table), Map(f, rows), clash) == Map(f, Insert(table, rows, lifted))
  {
    if rows != [] {
      var before, row := rows[..|rows| - 1], rows[|rows| - 1];
      assert rows == before + [row];
      assert Map(f, rows)[..|rows| - 1] == Map(f, before);
      InsertMap(table, before, f, clash, lifted);
      InsertFrom(table, before, lifted);
      InsertOneMap(Insert(table, before, lifted), row, f, clash, lifted);
    }
  }

  lemma {:induction false} InsertOneMap<A, B>(table: seq<A>, row: A, f: A -> B, clash: (B, B) -> bool, lifted: (A, A) -> bool)
    requires forall a | a in table :: lifted(a, row) <==> clash(f(a), f(row))
    ensures InsertOne(Map(f, table), f(row), clash) == Map(f, InsertOne(table, row, lifted))
  {
    TakenMap(table, row, f, clash, lifted);
    assert Map(f, table + [row]) == Map(f, table) + [f(row)];
  }

  lemma {:induction false} TakenMap<A, B>(table: seq<A>, row: A, f: A -> B, clash: (B, B) -> bool, lifted: (A, A) -> bool)
    requires forall a | a in table :: lifted(a, row) <==> clash(f(a), f(row))
    ensures Taken(Map(f, table), f(row), clash) <==> Taken(table, row, lifted)
  {
    if Taken(table, row, lifted) {
      var a :| a in table && lifted(a, row);
      assert f(a) in Map(f, table);
    }
  }

  // ---------------------------------------------------------------------------------------------
  // Which rows an insertion into an empty table keeps
  // ---------------------------------------------------------------------------------------------

  /** Among `rows`, clashing is symmetric and transitive: they clash in groups. */
  ghost predicate Grouped<R>(rows: seq<R>, clash: (R, R) -> bool) {
    && (forall a, b | a in rows && b in rows && clash(a, b) :: clash(b, a))
    && forall a, b, c | a in rows && b in rows && c in rows && clash(a, b) && clash(b, c) :: clash(a, c)
  }

  /** No earlier row clashes with this one. */
  ghost predicate First<R>(rows: seq<R>, i: nat, clash: (R, R) -> bool)
    requires i < |rows|
  {
    forall j | 0 <= j < i :: !clash(rows[j], rows[i])
  }

  ghost predicate FirstOf<R>(rows: seq<R>, r: R, clash: (R, R) -> bool) {
    exists i :: 0 <= i < |rows| && rows[i] == r && First(rows, i, clash)
  }

  /** The first row of each group is kept, and no other. */
  lemma {:induction false} KeepsFirsts<R>(rows: seq<R>, clash: (R, R) -> bool, r: R)
    requires Grouped(rows, clash)
    ensures r in Insert([], rows, clash) <==> FirstOf(rows, r, clash)
  {
    if rows != [] {
      var n := |rows| - 1;
      var before := rows[..n];
      assert rows == before + [rows[n]];
      KeepsFirsts(before, clash, r);
      forall i | 0 <= i < n ensures First(rows, i, clash) <==> First(before, i, clash) {}
      LastIsTaken(rows, clash);
      if FirstOf(before, r, clash) {
        var i :| 0 <= i < |before| && before[i] == r && First(before, i, clash);
        assert rows[i] == r && First(rows, i, clash);
      }
      if FirstOf(rows, r, clash) {
        var i :| 0 <= i < |rows| && rows[i] == r && First(rows, i, clash);
        if i < n { assert before[i] == r && First(before, i, clash); }
      }
    }
  }

  lemma {:induction false} LastIsTaken<R>(rows: seq<R>, clash: (R, R) -> bool)
    requires Grouped(rows, clash) && rows != []
    ensures var n := |rows| - 1; Taken(Insert([], rows[..n], clash), rows[n], clash) <==> !First(rows, n, clash)
  {
    var n := |rows| - 1;
    var before := rows[..n];
    InsertFrom([], before, clash);
    if !First(rows, n, clash) {
      var j :| 0 <= j < n && clash(rows[j], rows[n]);
      assert before[j] in before;
      if before[j] !in Insert([], before, clash) {
        var q :| q in Insert([], before, clash) && clash(q, before[j]);
        assert q in before && q in rows;
        assert clash(q, rows[n]);
      }
    } else {
      forall q | q in Insert([], before, clash) ensures !clash(q, rows[n]) {
        assert q in before;
        var j :| 0 <= j < |before| && before[j] == q;
      }
    }
  }

  // ---------------------------------------------------------------------------------------------
  // Inserting in another order
  // ---------------------------------------------------------------------------------------------

  function Filter<R(!new)>(rows: seq<R>, keep: R -> bool): (kept: seq<R>)
    ensures forall r :: r in kept <==> r in rows && keep(r)
  {
    if rows == [] then []
    else Filter(rows[..|rows| - 1], keep) + if keep(rows[|rows| - 1]) then [rows[|rows| - 1]] else []
  }

  lemma {:induction false} FilterSnoc<R(!new)>(rows: seq<R>, r: R, keep: R -> bool)
    ensures Filter(rows + [r], keep) == Filter(rows, keep) + if keep(r) then [r] else []
  {
    assert (rows + [r])[..|rows|] == rows;
  }

  lemma {:induction false} FilterConcat<R(!new)>(a: seq<R>, b: seq<R>, keep: R -> bool)
    ensures Filter(a + b, keep) == Filter(a, keep) + Filter(b, keep)
  {
    if b == [] {
      assert a + b == a;
    } else {
      assert (a + b)[..|a + b| - 1] == a + b[..|b| - 1];
      FilterConcat(a, b[..|b| - 1], keep);
    }
  }

  lemma {:induction false} FilterMap<A(!new), B(!new)>(s: seq<A>, f: A -> B, keep: A -> bool, onMade: B -> bool)
    requires forall a | a in s :: onMade(f(a)) == keep(a)
    ensures Filter(Map(f, s), onMade) == Map(f, Filter(s, keep))
  {
    if s != [] {
      var before, a := s[..|s| - 1], s[|s| - 1];
      assert s == before + [a];
      FilterMap(before, f, keep, onMade);
      MapSnoc(before, a, f);
      FilterSnoc(Map(f, before), f(a), onMade);
      if keep(a) {
        MapSnoc(Filter(before, keep), a, f);
      } else {
        assert Filter(before, keep) + [] == Filter(before, keep);
      }
    }
  }

  lemma {:induction false} MapSnoc<A, B>(s: seq<A>, a: A, f: A -> B)
    ensures Map(f, s + [a]) == Map(f, s) + [f(a)]
  {
  }

  /** When rows that clash are kept or dropped together, filtering commutes with inserting. */
  lemma {:induction false} InsertFilter<R(!new)>(rows: seq<R>, keep: R -> bool, clash: (R, R) -> bool)
    requires forall a, b | a in rows && b in rows && clash(a, b) :: keep(a) == keep(b)
    ensures Filter(Insert([], rows, clash), keep) == Insert([], Filter(rows, keep), clash)
  {
    if rows != [] {
      var before, row := rows[..|rows| - 1], rows[|rows| - 1];
      assert rows == before + [row];
      InsertFilter(before, keep, clash);
      InsertFrom([], before, clash);
      var inserted := Insert([], before, clash);
      FilterSnoc(inserted, row, keep);
      if keep(row) {
        assert Filter(rows, keep)[..|Filter(before, keep)|] == Filter(before, keep);
        assert Taken(Filter(inserted, keep), row, clash) <==> Taken(inserted, row, clash);
      } else {
        assert Filter(rows, keep) == Filter(before, keep);
      }
    }
  }

  ghost predicate StrictlySorted<R>(rows: seq<R>, less: (R, R) -> bool) {
    && (forall i, j | 0 <= i < j < |rows| :: less(rows[i], rows[j]))
    && forall a, b | a in rows && b in rows && less(a, b) :: !less(b, a)
  }

  /** In a sorted table the least row of each group is first. */
  lemma {:induction false} LeastIsFirst<R>(rows: seq<R>, clash: (R, R) -> bool, less: (R, R) -> bool, c: R)
    requires StrictlySorted(rows, less)
    ensures FirstOf(rows, c, clash) <==> c in rows && forall d | d in rows && d != c && clash(d, c) :: less(c, d)
  {
    if c in rows && forall d | d in rows && d != c && clash(d, c) :: less(c, d) {
      var i :| 0 <= i < |rows| && rows[i] == c;
      forall j | 0 <= j < i ensures !clash(rows[j], rows[i]) { assert rows[j] in rows && less(rows[j], c); }
    }
  }

  /** The first row of a row's group. */
  lemma {:induction false} FirstExists<R>(rows: seq<R>, clash: (R, R) -> bool, i: nat) returns (c: R)
    requires Grouped(rows, clash) && i < |rows|
    ensures FirstOf(rows, c, clash) && (c == rows[i] || clash(c, rows[i]))
    decreases i
  {
    if First(rows, i, clash) {
      c := rows[i];
    } else {
      var j :| 0 <= j < i && clash(rows[j], rows[i]);
      c := FirstExists(rows, clash, j);
      assert c in rows;
    }
  }

  /** Each row kept is less than every row of its group that was kept out. */
  ghost predicate KeepsLeast<R(!new)>(rows: seq<R>, clash: (R, R) -> bool, less: (R, R) -> bool) {
    forall c, d | FirstOf(rows, c, clash) && d in rows && d != c && clash(d, c) :: less(c, d)
  }

  /** Inserted in two orders, the second sorted, a table keeps the same rows exactly when in the first
      order it keeps the least of each group. */
  lemma {:induction false} SameKept<R(!new)>(rows: seq<R>, ordered: seq<R>, clash: (R, R) -> bool, less: (R, R) -> bool)
    requires Grouped(rows, clash) && StrictlySorted(ordered, less) && forall r :: r in rows <==> r in ordered
    ensures (forall r :: r in Insert([], rows, clash) <==> r in Insert([], ordered, clash)) <==> KeepsLeast(rows, clash, less)
  {
    forall r ensures r in Insert([], rows, clash) <==> FirstOf(rows, r, clash) { KeepsFirsts(rows, clash, r); }
    forall r ensures r in Insert([], ordered, clash) <==> FirstOf(ordered, r, clash) { KeepsFirsts(ordered, clash, r); }
    if KeepsLeast(rows, clash, less) {
      forall r ensures FirstOf(rows, r, clash) <==> FirstOf(ordered, r, clash) {
        FirstInBoth(rows, ordered, clash, less, r);
      }
    } else {
      var c := FirstInOne(rows, ordered, clash, less);
    }
  }

  lemma {:induction false} FirstInOne<R(!new)>(rows: seq<R>, ordered: seq<R>, clash: (R, R) -> bool, less: (R, R) -> bool)
    returns (c: R)
    requires StrictlySorted(ordered, less) && (forall q :: q in rows <==> q in ordered) && !KeepsLeast(rows, clash, less)
    ensures FirstOf(rows, c, clash) && !FirstOf(ordered, c, clash)
  {
    var d;
    c, d :| FirstOf(rows, c, clash) && d in rows && d != c && clash(d, c) && !less(c, d);
    LeastIsFirst(ordered, clash, less, c);
  }

  lemma {:induction false} FirstInBoth<R(!new)>(rows: seq<R>, ordered: seq<R>, clash: (R, R) -> bool, less: (R, R) -> bool, r: R)
    requires Grouped(rows, clash) && StrictlySorted(ordered, less) && forall q :: q in rows <==> q in ordered
    requires KeepsLeast(rows, clash, less)
    ensures FirstOf(rows, r, clash) <==> FirstOf(ordered, r, clash)
  {
    LeastIsFirst(ordered, clash, less, r);
    if FirstOf(ordered, r, clash) {
      var i :| 0 <= i < |rows| && rows[i] == r;
      var c := FirstExists(rows, clash, i);
      assert c in rows;
    }
  }

  // ---------------------------------------------------------------------------------------------
  // Rows made of others
  // ---------------------------------------------------------------------------------------------

  lemma {:induction false} MapMap<A, B, C>(s: seq<A>, g: A -> B, h: B -> C, f: A -> C)
    requires forall a | a in s :: h(g(a)) == f(a)
    ensures Map(h, Map(g, s)) == Map(f, s)
  {
    forall i | 0 <= i < |s| ensures Map(h, Map(g, s))[i] == Map(f, s)[i] { assert s[i] in s; }
  }

  /** Of two selections of some rows, told apart by what is made of them, one is the part of the other
      a test takes exactly when what is made of the one is the part the same test takes of the other. */
  lemma {:induction false} SameSelection<A(!new), B(!new)>(all: seq<A>, part: seq<A>, whole: seq<A>, f: A -> B, test: A -> bool,
                                                          onMade: B -> bool)
    requires forall a, b | a in all && b in all && f(a) == f(b) :: a == b
    requires (forall a | a in part :: a in all) && (forall a | a in whole :: a in all)
    requires forall a | a in all :: onMade(f(a)) == test(a)
    ensures (forall t :: t in Map(f, part) <==> t in Map(f, whole) && onMade(t))
            <==> (forall a :: a in part <==> a in whole && test(a))
  {
    forall a | a in all ensures (f(a) in Map(f, part) <==> a in part) && (f(a) in Map(f, whole) <==> a in whole) {
      MadeOf(all, part, f, a);
      MadeOf(all, whole, f, a);
    }
    if forall a :: a in part <==> a in whole && test(a) {
      forall t ensures t in Map(f, part) <==> t in Map(f, whole) && onMade(t) {
        if t in Map(f, part) { var a :| a in part && t == f(a); }
        if t in Map(f, whole) { var a :| a in whole && t == f(a); }
      }
    }
  }

  lemma {:induction false} MadeOf<A, B>(all: seq<A>, some: seq<A>, f: A -> B, a: A)
    requires forall a, b | a in all && b in all && f(a) == f(b) :: a == b
    requires a in all && forall b | b in some :: b in all
    ensures f(a) in Map(f, some) <==> a in some
  {
  }
}
