/** Gap detection over a runtime's event stream (packages/telemetry/src/normalize.ts), as the ingester
    seeds and threads it (packages/telemetry/src/ingester.ts). */
module StreamGaps {
  import opened Wrappers
  import opened RecordEvents
  import opened SpanPlaces

  /** What detection reads of an event: its place in the stream, and the loss it marks, if any. */
  datatype Marker = NoMarker | Dropped(count: nat) | Overflow
  datatype Arrival = Arrival(runtimeId: RuntimeId, sequence: nat, marker: Marker)

  type LastSequences = map<RuntimeId, nat>

  function LastOf(last: LastSequences, r: RuntimeId): Option<nat> {
    if r in last then Some(last[r]) else None
  }

  function GapSpan(from: nat, to: nat): LossSpan
    requires from <= to
  {
    LossSpan(SequenceGap, Some(from), Some(to), Some(to - from + 1), None)
  }

  function SpanOf(prev: Option<nat>, a: Arrival): Option<LossSpan> {
    match a.marker
    case Dropped(count) => Some(LossSpan(DroppedEvent, None, None, Some(count), Some(a.sequence)))
    case Overflow => Some(LossSpan(WatchOverflow, None, None, None, Some(a.sequence)))
    case NoMarker =>
      if prev.Some? && a.sequence > prev.value + 1 then Some(GapSpan(prev.value + 1, a.sequence - 1)) else None
  }

  function Raise(prev: Option<nat>, sequence: nat): nat {
    if prev.None? || sequence > prev.value then sequence else prev.value
  }

  /** The state after arrivals. */
  function LastAfter(last: LastSequences, arrivals: seq<Arrival>): LastSequences {
    if arrivals == [] then last
    else
      var before, a := LastAfter(last, arrivals[..|arrivals| - 1]), arrivals[|arrivals| - 1];
      before[a.runtimeId := Raise(LastOf(before, a.runtimeId), a.sequence)]
  }

  /** The gap spans reported for one runtime, in order. */
  function Reported(last: LastSequences, arrivals: seq<Arrival>, r: RuntimeId): seq<LossSpan> {
    if arrivals == [] then []
    else
      var before, a := arrivals[..|arrivals| - 1], arrivals[|arrivals| - 1];
      var span := SpanOf(LastOf(LastAfter(last, before), a.runtimeId), a);
      Reported(last, before, r)
      + if a.runtimeId == r && span.Some? && span.value.kind == SequenceGap then [span.value] else []
  }

  class GapDetection {
    var lastSequenceByRuntime: LastSequences

    /** The ingester's seed: the highest sequence the log holds of the runtime, or 0, so that a head of
        the stream missed by a late attachment is reported. */
    constructor (runtimeId: RuntimeId, resume: Option<nat>)
      ensures lastSequenceByRuntime == map[runtimeId := if resume.Some? then resume.value else 0]
    {
      lastSequenceByRuntime := map[runtimeId := if resume.Some? then resume.value else 0];
    }

    method DetectGap(a: Arrival) returns (lossSpan: Option<LossSpan>)
      modifies this
      ensures lossSpan == SpanOf(LastOf(old(lastSequenceByRuntime), a.runtimeId), a)
      ensures lastSequenceByRuntime == LastAfter(old(lastSequenceByRuntime), [a])
      ensures match a.marker
              case Dropped(count) => lossSpan == Some(LossSpan(DroppedEvent, None, None, Some(count), Some(a.sequence)))
              case Overflow => lossSpan == Some(LossSpan(WatchOverflow, None, None, None, Some(a.sequence)))
              case NoMarker =>
                lossSpan
                == if a.runtimeId in old(lastSequenceByRuntime) && a.sequence - old(lastSequenceByRuntime)[a.runtimeId] >= 2 then
                     var last := old(lastSequenceByRuntime)[a.runtimeId];
                     Some(LossSpan(SequenceGap, Some(last + 1), Some(a.sequence - 1), Some(a.sequence - last - 1), None))
                   else None
      ensures a.runtimeId in lastSequenceByRuntime && a.sequence <= lastSequenceByRuntime[a.runtimeId]
      ensures lastSequenceByRuntime[a.runtimeId] == a.sequence
              || (a.runtimeId in old(lastSequenceByRuntime)
                  && lastSequenceByRuntime[a.runtimeId] == old(lastSequenceByRuntime)[a.runtimeId])
      ensures forall r | r in old(lastSequenceByRuntime) ::
                r in lastSequenceByRuntime && old(lastSequenceByRuntime)[r] <= lastSequenceByRuntime[r]
                && (r != a.runtimeId ==> lastSequenceByRuntime[r] == old(lastSequenceByRuntime)[r])
      ensures forall r | r in lastSequenceByRuntime :: r == a.runtimeId || r in old(lastSequenceByRuntime)
    {
      var prev := LastOf(lastSequenceByRuntime, a.runtimeId);
      lossSpan := None;
      if a.marker.Dropped? {
        lossSpan := Some(LossSpan(DroppedEvent, None, None, Some(a.marker.count), Some(a.sequence)));
      } else if a.marker.Overflow? {
        lossSpan := Some(LossSpan(WatchOverflow, None, None, None, Some(a.sequence)));
      } else if prev.Some? && a.sequence > prev.value + 1 {
        lossSpan := Some(LossSpan(SequenceGap, Some(prev.value + 1), Some(a.sequence - 1), Some(a.sequence - prev.value - 1), None));
      }
      assert LastAfter(lastSequenceByRuntime, []) == lastSequenceByRuntime;
      if prev.None? || a.sequence > prev.value {
        lastSequenceByRuntime := lastSequenceByRuntime[a.runtimeId := a.sequence];
      } else {
        assert lastSequenceByRuntime == lastSequenceByRuntime[a.runtimeId := prev.value];
      }
    }
  }

  // ---------------------------------------------------------------------------------------------
  // Accounting for every sequence
  // ---------------------------------------------------------------------------------------------

  /** One stretch of a runtime's sequences: one that raised the mark, a gap, or what was skipped just
      before a marker, which names its own loss. */
  datatype Piece = Delivered(from: nat, to: nat) | Gap(from: nat, to: nat) | Skipped(from: nat, to: nat)

  /** The stretches one arrival accounts for, above a mark. */
  function PiecesOf(mark: nat, a: Arrival): seq<Piece> {
    if a.sequence <= mark then []
    else
      (if a.sequence == mark + 1 then []
       else [if a.marker.NoMarker? then Gap(mark + 1, a.sequence - 1) else Skipped(mark + 1, a.sequence - 1)])
      + [Delivered(a.sequence, a.sequence)]
  }

  /** A runtime's mark after arrivals. */
  function Mark(seed: nat, arrivals: seq<Arrival>, r: RuntimeId): nat {
    if arrivals == [] then seed
    else
      var before, a := Mark(seed, arrivals[..|arrivals| - 1], r), arrivals[|arrivals| - 1];
      if a.runtimeId == r && a.sequence > before then a.sequence else before
  }

  function Pieces(seed: nat, arrivals: seq<Arrival>, r: RuntimeId): seq<Piece> {
    if arrivals == [] then []
    else
      var before, a := arrivals[..|arrivals| - 1], arrivals[|arrivals| - 1];
      Pieces(seed, before, r) + if a.runtimeId == r then PiecesOf(Mark(seed, before, r), a) else []
  }

  /** The stretches lie end to end from just above `low` up to `high`. */
  ghost predicate Tiles(pieces: seq<Piece>, low: nat, high: nat) {
    if pieces == [] then low == high
    else
      var p := pieces[|pieces| - 1];
      low < p.from <= p.to == high && Tiles(pieces[..|pieces| - 1], low, p.from - 1)
  }

  lemma {:induction false} TilesSnoc(pieces: seq<Piece>, p: Piece, low: nat, high: nat)
    requires Tiles(pieces, low, high) && low <= high && p.from == high + 1 && p.from <= p.to
    ensures Tiles(pieces + [p], low, p.to)
  {
    assert (pieces + [p])[..|pieces|] == pieces;
  }

  /** Every sequence between the seed and the mark is in exactly one stretch, whatever the order and
      the repeats in which events arrived. */
  lemma {:induction false} PiecesTile(seed: nat, arrivals: seq<Arrival>, r: RuntimeId)
    ensures seed <= Mark(seed, arrivals, r) && Tiles(Pieces(seed, arrivals, r), seed, Mark(seed, arrivals, r))
  {
    if arrivals != [] {
      var before, a := arrivals[..|arrivals| - 1], arrivals[|arrivals| - 1];
      PiecesTile(seed, before, r);
      var mark, pieces := Mark(seed, before, r), Pieces(seed, before, r);
      if a.runtimeId == r && a.sequence > mark {
        var last := Delivered(a.sequence, a.sequence);
        if a.sequence > mark + 1 {
          var skip := PiecesOf(mark, a)[0];
          TilesSnoc(pieces, skip, seed, mark);
          TilesSnoc(pieces + [skip], last, seed, a.sequence - 1);
          assert pieces + PiecesOf(mark, a) == pieces + [skip] + [last];
        } else {
          TilesSnoc(pieces, last, seed, mark);
          assert pieces + PiecesOf(mark, a) == pieces + [last];
        }
      } else {
        assert Pieces(seed, arrivals, r) == pieces;
      }
    }
  }

  predicate In(p: Piece, k: nat) {
    p.from <= k <= p.to
  }

  lemma {:induction false} TileOf(pieces: seq<Piece>, low: nat, high: nat, k: nat) returns (i: nat)
    requires Tiles(pieces, low, high) && low < k <= high
    ensures i < |pieces| && In(pieces[i], k)
    ensures forall j | 0 <= j < |pieces| && In(pieces[j], k) :: j == i
  {
    var n := |pieces| - 1;
    if In(pieces[n], k) {
      i := n;
      TilesBelow(pieces[..n], low, pieces[n].from - 1);
    } else {
      i := TileOf(pieces[..n], low, pieces[n].from - 1, k);
    }
  }

  lemma {:induction false} TilesBelow(pieces: seq<Piece>, low: nat, high: nat)
    requires Tiles(pieces, low, high)
    ensures forall j | 0 <= j < |pieces| :: pieces[j].to <= high
  {
    if pieces != [] { TilesBelow(pieces[..|pieces| - 1], low, pieces[|pieces| - 1].from - 1); }
  }

  function SizeOf(p: Piece): int {
    p.to - p.from + 1
  }

  function TotalOf(pieces: seq<Piece>): int {
    if pieces == [] then 0 else TotalOf(pieces[..|pieces| - 1]) + SizeOf(pieces[|pieces| - 1])
  }

  lemma {:induction false} TilesAddUp(pieces: seq<Piece>, low: nat, high: nat)
    requires Tiles(pieces, low, high)
    ensures TotalOf(pieces) == high - low
  {
    if pieces != [] { TilesAddUp(pieces[..|pieces| - 1], low, pieces[|pieces| - 1].from - 1); }
  }

  // ---------------------------------------------------------------------------------------------
  // What is reported is what is missing
  // ---------------------------------------------------------------------------------------------

  function GapsIn(pieces: seq<Piece>): seq<LossSpan>
    requires forall p | p in pieces :: p.from <= p.to
  {
    if pieces == [] then []
    else
      var p := pieces[|pieces| - 1];
      GapsIn(pieces[..|pieces| - 1]) + if p.Gap? then [GapSpan(p.from, p.to)] else []
  }

  lemma {:induction false} PiecesAreOrdered(seed: nat, arrivals: seq<Arrival>, r: RuntimeId)
    ensures forall p | p in Pieces(seed, arrivals, r) :: p.from <= p.to
  {
    if arrivals != [] { PiecesAreOrdered(seed, arrivals[..|arrivals| - 1], r); }
  }

  lemma {:induction false} GapsConcat(a: seq<Piece>, b: seq<Piece>)
    requires (forall p | p in a :: p.from <= p.to) && (forall p | p in b :: p.from <= p.to)
    ensures (forall p | p in a + b :: p.from <= p.to) && GapsIn(a + b) == GapsIn(a) + GapsIn(b)
  {
    if b == [] {
      assert a + b == a;
    } else {
      assert (a + b)[..|a + b| - 1] == a + b[..|b| - 1];
      GapsConcat(a, b[..|b| - 1]);
    }
  }

  lemma {:induction false} LastIsMark(last: LastSequences, arrivals: seq<Arrival>, r: RuntimeId)
    requires r in last
    ensures LastOf(LastAfter(last, arrivals), r) == Some(Mark(last[r], arrivals, r))
  {
    if arrivals != [] { LastIsMark(last, arrivals[..|arrivals| - 1], r); }
  }

  lemma {:induction false} OneGap(mark: nat, a: Arrival)
    ensures forall p | p in PiecesOf(mark, a) :: p.from <= p.to
    ensures var span := SpanOf(Some(mark), a);
            GapsIn(PiecesOf(mark, a)) == if span.Some? && span.value.kind == SequenceGap then [span.value] else []
  {
    var pieces := PiecesOf(mark, a);
    if |pieces| == 2 {
      assert pieces[..1] == [pieces[0]] && [pieces[0]][..0] == [];
      assert GapsIn([pieces[0]]) == if pieces[0].Gap? then [GapSpan(pieces[0].from, pieces[0].to)] else [];
      assert GapsIn(pieces) == GapsIn([pieces[0]]);
    } else if |pieces| == 1 {
      assert pieces[..0] == [];
    }
  }

  /** The gap spans reported for a runtime are exactly its gap stretches: each sequence from the seed to
      the mark raised the mark, is in exactly one reported gap, or was skipped just before a marker. */
  lemma {:induction false} ReportsTheGaps(last: LastSequences, arrivals: seq<Arrival>, r: RuntimeId)
    requires r in last
    ensures forall p | p in Pieces(last[r], arrivals, r) :: p.from <= p.to
    ensures Reported(last, arrivals, r) == GapsIn(Pieces(last[r], arrivals, r))
  {
    PiecesAreOrdered(last[r], arrivals, r);
    if arrivals != [] {
      var before, a := arrivals[..|arrivals| - 1], arrivals[|arrivals| - 1];
      ReportsTheGaps(last, before, r);
      if a.runtimeId == r {
        LastIsMark(last, before, r);
        var mark := Mark(last[r], before, r);
        OneGap(mark, a);
        GapsConcat(Pieces(last[r], before, r), PiecesOf(mark, a));
      } else {
        assert Pieces(last[r], arrivals, r) == Pieces(last[r], before, r);
      }
    }
  }

  /** A raising stretch is an event that arrived, and a skipped one lies just before a marker that did. */
  lemma {:induction false} PiecesArrived(seed: nat, arrivals: seq<Arrival>, r: RuntimeId, p: Piece)
    requires p in Pieces(seed, arrivals, r)
    ensures p.Delivered? ==> p.from == p.to && exists a :: a in arrivals && a.runtimeId == r && a.sequence == p.from
    ensures p.Skipped? ==> exists a :: a in arrivals && a.runtimeId == r && a.sequence == p.to + 1 && !a.marker.NoMarker?
  {
    var before, a := arrivals[..|arrivals| - 1], arrivals[|arrivals| - 1];
    assert arrivals == before + [a];
    if p in Pieces(seed, before, r) { PiecesArrived(seed, before, r, p); }
  }

  /** Gap counts, raising events and marker skips add up to the distance from the seed to the mark, and
      each sequence between them is in exactly one stretch. */
  lemma {:induction false} GapAccounting(last: LastSequences, arrivals: seq<Arrival>, r: RuntimeId, k: nat) returns (i: nat)
    requires r in last && last[r] < k <= Mark(last[r], arrivals, r)
    ensures var pieces := Pieces(last[r], arrivals, r);
            && i < |pieces| && In(pieces[i], k) && (forall j | 0 <= j < |pieces| && In(pieces[j], k) :: j == i)
            && TotalOf(pieces) == Mark(last[r], arrivals, r) - last[r]
            && (pieces[i].Gap? ==> GapSpan(pieces[i].from, pieces[i].to) in Reported(last, arrivals, r))
  {
    var pieces := Pieces(last[r], arrivals, r);
    PiecesTile(last[r], arrivals, r);
    TilesAddUp(pieces, last[r], Mark(last[r], arrivals, r));
    i := TileOf(pieces, last[r], Mark(last[r], arrivals, r), k);
    ReportsTheGaps(last, arrivals, r);
    GapIsReported(pieces, i);
  }

  lemma {:induction false} GapIsReported(pieces: seq<Piece>, i: nat)
    requires i < |pieces| && forall p | p in pieces :: p.from <= p.to
    ensures pieces[i].Gap? ==> GapSpan(pieces[i].from, pieces[i].to) in GapsIn(pieces)
  {
    if i < |pieces| - 1 { GapIsReported(pieces[..|pieces| - 1], i); }
  }
}
