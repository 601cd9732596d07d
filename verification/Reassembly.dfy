/** Reassembling an output stream from its chunks (packages/telemetry/src/normalize.ts). */
module Reassembly {
  type Bytes = seq<bv8>
  datatype Chunk = Chunk(streamOffset: nat, bytes: Bytes)
  datatype Interval = Interval(from: nat, to: nat)

  function EndOf(c: Chunk): nat {
    c.streamOffset + |c.bytes|
  }

  // ---------------------------------------------------------------------------------------------
  // Sorting by offset
  // ---------------------------------------------------------------------------------------------

  /** A chunk put among sorted ones, after those at its own offset. */
  function PlaceChunk(c: Chunk, ordered: seq<Chunk>): seq<Chunk> {
    if ordered == [] then [c]
    else if ordered[|ordered| - 1].streamOffset <= c.streamOffset then ordered + [c]
    else PlaceChunk(c, ordered[..|ordered| - 1]) + [ordered[|ordered| - 1]]
  }

  function ByOffset(chunks: seq<Chunk>): seq<Chunk> {
    if chunks == [] then [] else PlaceChunk(chunks[|chunks| - 1], ByOffset(chunks[..|chunks| - 1]))
  }

  ghost predicate Ascending(chunks: seq<Chunk>) {
    forall i, j | 0 <= i < j < |chunks| :: chunks[i].streamOffset <= chunks[j].streamOffset
  }

  lemma {:induction false} PlaceLosesNone(c: Chunk, ordered: seq<Chunk>)
    ensures multiset(PlaceChunk(c, ordered)) == multiset(ordered) + multiset{c}
  {
    if ordered != [] && ordered[|ordered| - 1].streamOffset > c.streamOffset {
      PlaceLosesNone(c, ordered[..|ordered| - 1]);
      assert ordered == ordered[..|ordered| - 1] + [ordered[|ordered| - 1]];
    }
  }

  lemma {:induction false} PlaceBounded(c: Chunk, ordered: seq<Chunk>, bound: nat)
    requires c.streamOffset <= bound && forall i | 0 <= i < |ordered| :: ordered[i].streamOffset <= bound
    ensures forall i | 0 <= i < |PlaceChunk(c, ordered)| :: PlaceChunk(c, ordered)[i].streamOffset <= bound
  {
    if ordered != [] && ordered[|ordered| - 1].streamOffset > c.streamOffset {
      PlaceBounded(c, ordered[..|ordered| - 1], bound);
    }
  }

  lemma {:induction false} PlaceKeeps(c: Chunk, ordered: seq<Chunk>)
    requires Ascending(ordered)
    ensures Ascending(PlaceChunk(c, ordered))
  {
    if ordered != [] && ordered[|ordered| - 1].streamOffset > c.streamOffset {
      var before, last := ordered[..|ordered| - 1], ordered[|ordered| - 1];
      PlaceKeeps(c, before);
      PlaceBounded(c, before, last.streamOffset);
    }
  }

  lemma {:induction false} ByOffsetSorts(chunks: seq<Chunk>)
    ensures Ascending(ByOffset(chunks)) && multiset(ByOffset(chunks)) == multiset(chunks)
  {
    if chunks != [] {
      var n := |chunks| - 1;
      assert chunks == chunks[..n] + [chunks[n]];
      ByOffsetSorts(chunks[..n]);
      PlaceKeeps(chunks[n], ByOffset(chunks[..n]));
      PlaceLosesNone(chunks[n], ByOffset(chunks[..n]));
    }
  }

  function AtOffset(chunks: seq<Chunk>, offset: nat): seq<Chunk> {
    if chunks == [] then []
    else
      var n := |chunks| - 1;
      AtOffset(chunks[..n], offset) + if chunks[n].streamOffset == offset then [chunks[n]] else []
  }

  lemma {:induction false} AtOffsetSnoc(chunks: seq<Chunk>, c: Chunk, offset: nat)
    ensures AtOffset(chunks + [c], offset) == AtOffset(chunks, offset) + if c.streamOffset == offset then [c] else []
  {
    assert (chunks + [c])[..|chunks|] == chunks;
  }

  lemma {:induction false} PlacedAfterItsOwn(c: Chunk, ordered: seq<Chunk>, offset: nat)
    ensures AtOffset(PlaceChunk(c, ordered), offset) == AtOffset(ordered, offset) + if c.streamOffset == offset then [c] else []
  {
    AtOffsetSnoc(ordered, c, offset);
    if ordered == [] {
      assert [] + [c] == [c];
    } else if ordered[|ordered| - 1].streamOffset > c.streamOffset {
      var before, last := ordered[..|ordered| - 1], ordered[|ordered| - 1];
      PlacedAfterItsOwn(c, before, offset);
      AtOffsetSnoc(PlaceChunk(c, before), last, offset);
    }
  }

  /** Chunks at one offset stay in the order they were given. */
  lemma {:induction false} SortIsStable(chunks: seq<Chunk>, offset: nat)
    ensures AtOffset(ByOffset(chunks), offset) == AtOffset(chunks, offset)
  {
    if chunks != [] {
      SortIsStable(chunks[..|chunks| - 1], offset);
      PlacedAfterItsOwn(chunks[|chunks| - 1], ByOffset(chunks[..|chunks| - 1]), offset);
    }
  }

  // ---------------------------------------------------------------------------------------------
  // The fold
  // ---------------------------------------------------------------------------------------------

  function Joined(chunks: seq<Chunk>): Bytes {
    if chunks == [] then [] else Joined(chunks[..|chunks| - 1]) + chunks[|chunks| - 1].bytes
  }

  function GapsOf(chunks: seq<Chunk>): seq<Interval> {
    if |chunks| <= 1 then []
    else
      var before, c := chunks[..|chunks| - 1], chunks[|chunks| - 1];
      var expected := EndOf(before[|before| - 1]);
      GapsOf(before) + if c.streamOffset > expected then [Interval(expected, c.streamOffset)] else []
  }

  method ReassembleByStreamOffset(chunks: seq<Chunk>) returns (bytes: Bytes, gaps: seq<Interval>)
    ensures bytes == Joined(ByOffset(chunks)) && gaps == GapsOf(ByOffset(chunks))
  {
    var ordered := ByOffset(chunks);
    bytes, gaps := [], [];
    var expected := if ordered != [] then ordered[0].streamOffset else 0;
    for i := 0 to |ordered|
      invariant bytes == Joined(ordered[..i]) && gaps == GapsOf(ordered[..i])
      invariant expected == if i > 0 then EndOf(ordered[i - 1]) else if ordered != [] then ordered[0].streamOffset else 0
    {
      var chunk := ordered[i];
      assert ordered[..i + 1][..i] == ordered[..i];
      if chunk.streamOffset > expected { gaps := gaps + [Interval(expected, chunk.streamOffset)]; }
      bytes := bytes + chunk.bytes;
      expected := EndOf(chunk);
    }
    assert ordered[..|ordered|] == ordered;
  }

  // ---------------------------------------------------------------------------------------------
  // Cutting, dropping, shuffling
  // ---------------------------------------------------------------------------------------------

  /** A byte string cut into pieces, each at its offset. */
  function Cut(base: nat, pieces: seq<Bytes>): seq<Chunk> {
    if pieces == [] then []
    else
      var n := |pieces| - 1;
      Cut(base, pieces[..n]) + [Chunk(base + |Flat(pieces[..n])|, pieces[n])]
  }

  function Flat(pieces: seq<Bytes>): Bytes {
    if pieces == [] then [] else Flat(pieces[..|pieces| - 1]) + pieces[|pieces| - 1]
  }

  /** The chunks kept of a cut. */
  function Keep(chunks: seq<Chunk>, keep: seq<bool>): seq<Chunk>
    requires |keep| == |chunks|
  {
    if chunks == [] then []
    else
      var n := |chunks| - 1;
      Keep(chunks[..n], keep[..n]) + if keep[n] then [chunks[n]] else []
  }

  /** Chunks of bytes, each after the end of the one before. */
  ghost predicate Apart(chunks: seq<Chunk>) {
    && (forall c | c in chunks :: c.bytes != [])
    && forall i, j | 0 <= i < j < |chunks| :: EndOf(chunks[i]) <= chunks[j].streamOffset
  }

  lemma {:induction false} ApartSnoc(chunks: seq<Chunk>, c: Chunk)
    requires Apart(chunks) && c.bytes != [] && forall d | d in chunks :: EndOf(d) <= c.streamOffset
    ensures Apart(chunks + [c])
  {
  }

  lemma {:induction false} CutApart(base: nat, pieces: seq<Bytes>)
    requires forall p | p in pieces :: p != []
    ensures Apart(Cut(base, pieces)) && forall c | c in Cut(base, pieces) :: EndOf(c) <= base + |Flat(pieces)|
  {
    if pieces != [] {
      var n := |pieces| - 1;
      assert forall p | p in pieces[..n] :: p in pieces;
      CutApart(base, pieces[..n]);
      assert pieces[n] in pieces;
      ApartSnoc(Cut(base, pieces[..n]), Chunk(base + |Flat(pieces[..n])|, pieces[n]));
    }
  }

  lemma {:induction false} KeepApart(chunks: seq<Chunk>, keep: seq<bool>)
    requires Apart(chunks) && |keep| == |chunks|
    ensures Apart(Keep(chunks, keep)) && forall c | c in Keep(chunks, keep) :: c in chunks
  {
    if chunks != [] {
      var n := |chunks| - 1;
      FrontApart(chunks);
      KeepApart(chunks[..n], keep[..n]);
      assert chunks[n] in chunks;
      if keep[n] {
        forall d | d in chunks[..n] ensures EndOf(d) <= chunks[n].streamOffset { BeforeLast(chunks, d); }
        ApartSnoc(Keep(chunks[..n], keep[..n]), chunks[n]);
      } else {
        assert Keep(chunks, keep) == Keep(chunks[..n], keep[..n]);
      }
    }
  }

  lemma {:induction false} BeforeLast(chunks: seq<Chunk>, d: Chunk)
    requires Apart(chunks) && chunks != [] && d in chunks[..|chunks| - 1]
    ensures EndOf(d) <= chunks[|chunks| - 1].streamOffset
  {
    var i :| 0 <= i < |chunks| - 1 && chunks[i] == d;
  }

  /** Chunks apart are the only way to put themselves in order. */
  lemma {:induction false} OneOrder(ordered: seq<Chunk>, apart: seq<Chunk>)
    requires Ascending(ordered) && Apart(apart) && multiset(ordered) == multiset(apart)
    ensures ordered == apart
  {
    SameLength(ordered, apart);
    if ordered != [] {
      var n := |ordered| - 1;
      SameLast(ordered, apart);
      AllButLast(ordered);
      AllButLast(apart);
      FrontAscending(ordered);
      FrontApart(apart);
      OneOrder(ordered[..n], apart[..n]);
      FrontAndLast(ordered, apart);
    }
  }

  lemma {:induction false} SameLength(a: seq<Chunk>, b: seq<Chunk>)
    requires multiset(a) == multiset(b)
    ensures |a| == |b|
  {
    assert |a| == |multiset(a)| == |multiset(b)| == |b|;
  }

  lemma {:induction false} FrontAscending(ordered: seq<Chunk>)
    requires Ascending(ordered) && ordered != []
    ensures Ascending(ordered[..|ordered| - 1])
  {
  }

  lemma {:induction false} FrontApart(apart: seq<Chunk>)
    requires Apart(apart) && apart != []
    ensures Apart(apart[..|apart| - 1])
  {
  }

  lemma {:induction false} FrontAndLast(a: seq<Chunk>, b: seq<Chunk>)
    requires |a| == |b| > 0 && a[..|a| - 1] == b[..|b| - 1] && a[|a| - 1] == b[|b| - 1]
    ensures a == b
  {
    assert a == a[..|a| - 1] + [a[|a| - 1]];
    assert b == b[..|b| - 1] + [b[|b| - 1]];
  }

  lemma {:induction false} AllButLast(chunks: seq<Chunk>)
    requires chunks != []
    ensures multiset(chunks[..|chunks| - 1]) == multiset(chunks) - multiset{chunks[|chunks| - 1]}
  {
    assert chunks == chunks[..|chunks| - 1] + [chunks[|chunks| - 1]];
  }

  lemma {:induction false} SameLast(ordered: seq<Chunk>, apart: seq<Chunk>)
    requires Ascending(ordered) && Apart(apart) && multiset(ordered) == multiset(apart) && |ordered| == |apart| > 0
    ensures ordered[|ordered| - 1] == apart[|apart| - 1]
  {
    var n := |ordered| - 1;
    assert apart[n] in multiset(apart) && ordered[n] in multiset(ordered);
    var i :| 0 <= i <= n && ordered[i] == apart[n];
    var j :| 0 <= j <= n && apart[j] == ordered[n];
    if j < n { assert apart[j].bytes != []; }
  }

  // ---------------------------------------------------------------------------------------------
  // What comes back
  // ---------------------------------------------------------------------------------------------

  predicate Holds(c: Chunk, k: nat) {
    c.streamOffset <= k < EndOf(c)
  }

  predicate Covered(chunks: seq<Chunk>, k: nat) {
    exists c :: c in chunks && Holds(c, k)
  }

  predicate InGap(gaps: seq<Interval>, k: nat) {
    exists g :: g in gaps && g.from <= k < g.to
  }

  /** A reported gap runs from the end of one chunk to the start of the next. */
  ghost predicate Between(chunks: seq<Chunk>, g: Interval) {
    exists i :: 0 < i < |chunks| && g == Interval(EndOf(chunks[i - 1]), chunks[i].streamOffset) && g.from < g.to
  }

  lemma {:induction false} CoveredSnoc(chunks: seq<Chunk>, c: Chunk, k: nat)
    ensures Covered(chunks + [c], k) <==> Covered(chunks, k) || Holds(c, k)
  {
    assert forall x :: x in chunks + [c] <==> x in chunks || x == c;
  }

  lemma {:induction false} InGapSnoc(gaps: seq<Interval>, g: Interval, k: nat)
    ensures InGap(gaps + [g], k) <==> InGap(gaps, k) || g.from <= k < g.to
  {
    assert forall x :: x in gaps + [g] <==> x in gaps || x == g;
  }

  lemma {:induction false} GapsAreBelow(chunks: seq<Chunk>, k: nat)
    requires Apart(chunks) && chunks != [] && k >= EndOf(chunks[|chunks| - 1])
    ensures !InGap(GapsOf(chunks), k) && !Covered(chunks, k)
  {
    var n := |chunks| - 1;
    forall c | c in chunks ensures EndOf(c) <= k {
      var i :| 0 <= i < |chunks| && chunks[i] == c;
      assert chunks[n] in chunks && i < n ==> EndOf(c) <= chunks[n].streamOffset;
    }
    if n > 0 {
      assert chunks[n] in chunks && EndOf(chunks[n - 1]) <= chunks[n].streamOffset;
      GapsAreBelow(chunks[..n], k);
      if chunks[n].streamOffset > EndOf(chunks[n - 1]) {
        InGapSnoc(GapsOf(chunks[..n]), Interval(EndOf(chunks[n - 1]), chunks[n].streamOffset), k);
      }
    }
  }

  /** Below the end of the last chunk but one, the last chunk and the gap before it do not matter. */
  lemma {:induction false} LastBeyond(chunks: seq<Chunk>, k: nat)
    requires Apart(chunks) && |chunks| > 1 && k < EndOf(chunks[|chunks| - 2])
    ensures InGap(GapsOf(chunks), k) == InGap(GapsOf(chunks[..|chunks| - 1]), k)
    ensures Covered(chunks, k) == Covered(chunks[..|chunks| - 1], k)
  {
    var n := |chunks| - 1;
    var before, c, expected := chunks[..n], chunks[n], EndOf(chunks[n - 1]);
    assert chunks == before + [c];
    CoveredSnoc(before, c, k);
    assert c.streamOffset >= expected;
    if c.streamOffset > expected {
      InGapSnoc(GapsOf(before), Interval(expected, c.streamOffset), k);
    } else {
      assert GapsOf(chunks) == GapsOf(before);
    }
  }

  /** From there to its own end, what the last chunk does not hold is the gap before it. */
  lemma {:induction false} LastDecides(chunks: seq<Chunk>, k: nat)
    requires Apart(chunks) && |chunks| > 1 && EndOf(chunks[|chunks| - 2]) <= k < EndOf(chunks[|chunks| - 1])
    ensures InGap(GapsOf(chunks), k) <==> k < chunks[|chunks| - 1].streamOffset
    ensures Covered(chunks, k) <==> k >= chunks[|chunks| - 1].streamOffset
  {
    var n := |chunks| - 1;
    var before, c, expected := chunks[..n], chunks[n], EndOf(chunks[n - 1]);
    assert chunks == before + [c];
    FrontApart(chunks);
    GapsAreBelow(before, k);
    CoveredSnoc(before, c, k);
    if c.streamOffset > expected {
      InGapSnoc(GapsOf(before), Interval(expected, c.streamOffset), k);
    } else {
      assert GapsOf(chunks) == GapsOf(before);
    }
  }

  /** The gaps are exactly what is missing between the first chunk and the last. */
  lemma {:induction false} GapsAreMissing(chunks: seq<Chunk>, k: nat)
    requires Apart(chunks) && chunks != []
    requires chunks[0].streamOffset <= k < EndOf(chunks[|chunks| - 1])
    ensures InGap(GapsOf(chunks), k) <==> !Covered(chunks, k)
  {
    var n := |chunks| - 1;
    if n == 0 {
      assert chunks[0] in chunks && Holds(chunks[0], k);
    } else if k < EndOf(chunks[n - 1]) {
      LastBeyond(chunks, k);
      GapsAreMissing(chunks[..n], k);
    } else {
      LastDecides(chunks, k);
    }
  }

  /** Each gap is maximal: it runs from one chunk's end to the next one's start. */
  lemma {:induction false} GapsAreMaximal(chunks: seq<Chunk>)
    ensures forall g | g in GapsOf(chunks) :: Between(chunks, g)
  {
    if |chunks| > 1 {
      var n := |chunks| - 1;
      GapsAreMaximal(chunks[..n]);
      forall g | g in GapsOf(chunks) ensures Between(chunks, g) {
        if g in GapsOf(chunks[..n]) {
          var i :| 0 < i < n && g == Interval(EndOf(chunks[..n][i - 1]), chunks[..n][i].streamOffset) && g.from < g.to;
          assert chunks[i - 1] == chunks[..n][i - 1];
        } else {
          assert g == Interval(EndOf(chunks[n - 1]), chunks[n].streamOffset);
        }
      }
    }
  }

  /** Cut any byte string into non-empty pieces, drop any, and deliver the rest in any order: what comes
      back is the kept pieces in their order, and the gaps are exactly the stretches missing between
      the first kept and the last, each whole. */
  lemma {:induction false} ReassemblyUndoesChunking(base: nat, pieces: seq<Bytes>, keep: seq<bool>, delivered: seq<Chunk>, k: nat)
    requires (forall p | p in pieces :: p != []) && |keep| == |Cut(base, pieces)|
    requires multiset(delivered) == multiset(Keep(Cut(base, pieces), keep))
    ensures var kept := Keep(Cut(base, pieces), keep);
            && Joined(ByOffset(delivered)) == Joined(kept)
            && (forall g | g in GapsOf(ByOffset(delivered)) :: Between(kept, g))
            && (kept != [] && kept[0].streamOffset <= k < EndOf(kept[|kept| - 1]) ==>
                  (InGap(GapsOf(ByOffset(delivered)), k) <==> !Covered(kept, k)))
  {
    var kept := Keep(Cut(base, pieces), keep);
    CutApart(base, pieces);
    KeepApart(Cut(base, pieces), keep);
    ByOffsetSorts(delivered);
    OneOrder(ByOffset(delivered), kept);
    GapsAreMaximal(kept);
    if kept != [] && kept[0].streamOffset <= k < EndOf(kept[|kept| - 1]) { GapsAreMissing(kept, k); }
  }

  /** With nothing dropped, the bytes come back whole and no gap is reported. */
  lemma {:induction false} NothingDroppedNothingLost(base: nat, pieces: seq<Bytes>, delivered: seq<Chunk>)
    requires (forall p | p in pieces :: p != []) && multiset(delivered) == multiset(Cut(base, pieces))
    ensures Joined(ByOffset(delivered)) == Flat(pieces) && GapsOf(ByOffset(delivered)) == []
  {
    CutApart(base, pieces);
    ByOffsetSorts(delivered);
    OneOrder(ByOffset(delivered), Cut(base, pieces));
    CutJoins(base, pieces);
  }

  lemma {:induction false} CutJoins(base: nat, pieces: seq<Bytes>)
    ensures |Cut(base, pieces)| == |pieces| && Joined(Cut(base, pieces)) == Flat(pieces) && GapsOf(Cut(base, pieces)) == []
    ensures pieces != [] ==> EndOf(Cut(base, pieces)[|pieces| - 1]) == base + |Flat(pieces)|
  {
    if pieces != [] {
      var n := |pieces| - 1;
      CutJoins(base, pieces[..n]);
      assert Cut(base, pieces)[..n] == Cut(base, pieces[..n]);
    }
  }
}
