/** The text by which a loss span is known among those of its runtime in a run
    (packages/telemetry/src/sink.ts), and that it tells the spans apart. */
module SpanPlaces {
  import opened Wrappers

  datatype LossKind = DroppedEvent | SequenceGap | WatchOverflow | EarlyClose
  datatype LossSpan = LossSpan(kind: LossKind, fromSequence: Option<nat>, toSequence: Option<nat>, droppedCount: Option<nat>,
                               atSequence: Option<nat>)

  const DIGITS := "0123456789"

  function Decimal(n: nat): (text: string)
    ensures text != "" && forall c | c in text :: c in DIGITS
  {
    if n < 10 then [DIGITS[n]] else Decimal(n / 10) + [DIGITS[n % 10]]
  }

  function SequenceText(sequence: Option<nat>): string {
    if sequence.None? then "x" else Decimal(sequence.value)
  }

  function PlaceText(span: LossSpan): string {
    match span.kind
    case SequenceGap => "gap_" + SequenceText(span.fromSequence) + "_" + SequenceText(span.toSequence)
    case DroppedEvent => "drop_" + SequenceText(span.atSequence)
    case WatchOverflow => "watch_" + SequenceText(span.atSequence)
    case EarlyClose => "early_close"
  }

  /** Numbers are in decimal, without leading zeros. */
  lemma {:induction false} DecimalDigits(tens: nat, digit: nat)
    requires digit < 10
    ensures Decimal(digit) == ["0123456789"[digit]]
    ensures tens > 0 ==> Decimal(10 * tens + digit) == Decimal(tens) + ["0123456789"[digit]]
  {
    assert (10 * tens + digit) / 10 == tens && (10 * tens + digit) % 10 == digit;
  }

  /** The texts themselves. */
  lemma {:induction false} PlaceTexts(from: nat, to: nat, count: Option<nat>, at: nat)
    ensures PlaceText(LossSpan(SequenceGap, Some(from), Some(to), count, None)) == "gap_" + Decimal(from) + "_" + Decimal(to)
    ensures PlaceText(LossSpan(DroppedEvent, None, None, count, Some(at))) == "drop_" + Decimal(at)
    ensures PlaceText(LossSpan(WatchOverflow, None, None, count, Some(at))) == "watch_" + Decimal(at)
    ensures PlaceText(LossSpan(EarlyClose, None, Some(to), count, None)) == "early_close"
  {
  }

  /** Two spans of one place: a gap's two ends, a marker's sequence, or the one early close there is. */
  predicate SamePlace(a: LossSpan, b: LossSpan) {
    && a.kind == b.kind
    && match a.kind
       case SequenceGap => a.fromSequence == b.fromSequence && a.toSequence == b.toSequence
       case EarlyClose => true
       case _ => a.atSequence == b.atSequence
  }

  lemma {:induction false} DecimalTellsApart(m: nat, n: nat)
    ensures Decimal(m) == Decimal(n) ==> m == n
  {
    if Decimal(m) == Decimal(n) {
      var text := Decimal(m);
      assert text[|text| - 1] == DIGITS[m % 10] == DIGITS[n % 10];
      LastDigits(m % 10, n % 10);
      if m >= 10 && n >= 10 {
        assert text[..|text| - 1] == Decimal(m / 10) == Decimal(n / 10);
        DecimalTellsApart(m / 10, n / 10);
      }
    }
  }

  lemma {:induction false} LastDigits(i: nat, j: nat)
    requires i < 10 && j < 10 && DIGITS[i] == DIGITS[j]
    ensures i == j
  {
  }

  lemma {:induction false} SequenceTellsApart(a: Option<nat>, b: Option<nat>)
    ensures SequenceText(a) == SequenceText(b) ==> a == b
    ensures forall c | c in SequenceText(a) :: c != '_'
  {
    if a.Some? && b.Some? {
      DecimalTellsApart(a.value, b.value);
    } else if a.Some? {
      assert Decimal(a.value)[0] in Decimal(a.value);
    } else if b.Some? {
      assert Decimal(b.value)[0] in Decimal(b.value);
    }
  }

  /** The first part of a text joined by an underscore, when it has none of its own, is its own. */
  lemma {:induction false} SplitsAtUnderscore(a: string, b: string, c: string, d: string)
    requires a + "_" + b == c + "_" + d && (forall x | x in a :: x != '_') && (forall x | x in c :: x != '_')
    ensures a == c && b == d
  {
    var text := a + "_" + b;
    assert text[|a|] == '_' && (c + "_" + d)[|c|] == '_';
    forall i | 0 <= i < |a| ensures text[i] == a[i] && a[i] != '_' { assert a[i] in a; }
    forall i | 0 <= i < |c| ensures text[i] == c[i] && c[i] != '_' { assert c[i] in c; }
    assert |a| == |c|;
    assert text[..|a|] == a && text[|a| + 1..] == b;
    assert text[..|c|] == c && text[|c| + 1..] == d;
  }

  lemma {:induction false} GapsTellApart(a: LossSpan, b: LossSpan)
    requires a.kind == b.kind == SequenceGap && PlaceText(a) == PlaceText(b)
    ensures a.fromSequence == b.fromSequence && a.toSequence == b.toSequence
  {
    var first, last := SequenceText(a.fromSequence), SequenceText(a.toSequence);
    var other, end := SequenceText(b.fromSequence), SequenceText(b.toSequence);
    SequenceTellsApart(a.fromSequence, b.fromSequence);
    SequenceTellsApart(b.fromSequence, a.fromSequence);
    SequenceTellsApart(a.toSequence, b.toSequence);
    assert PlaceText(a)[4..] == first + "_" + last && PlaceText(b)[4..] == other + "_" + end;
    SplitsAtUnderscore(first, last, other, end);
  }

  lemma {:induction false} MarkersTellApart(a: LossSpan, b: LossSpan)
    requires a.kind == b.kind && (a.kind == DroppedEvent || a.kind == WatchOverflow) && PlaceText(a) == PlaceText(b)
    ensures a.atSequence == b.atSequence
  {
    var n := if a.kind == DroppedEvent then 5 else 6;
    assert PlaceText(a)[n..] == SequenceText(a.atSequence) && PlaceText(b)[n..] == SequenceText(b.atSequence);
    SequenceTellsApart(a.atSequence, b.atSequence);
  }

  /** Among the spans of one runtime in a run, the joined text is the same exactly for those of one
      place. */
  lemma {:induction false} PlacesTellApart(a: LossSpan, b: LossSpan)
    ensures PlaceText(a) == PlaceText(b) <==> SamePlace(a, b)
  {
    if PlaceText(a) == PlaceText(b) {
      assert PlaceText(a)[0] == PlaceText(b)[0];
      if a.kind == SequenceGap {
        GapsTellApart(a, b);
      } else if a.kind != EarlyClose {
        MarkersTellApart(a, b);
      }
    }
  }
}
