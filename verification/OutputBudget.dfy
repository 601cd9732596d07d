/** The output one ingest connection stores of its runs, bounded
    (packages/telemetry/src/output-budget.ts). */
module OutputBudget {
  import opened Wrappers
  import opened RecordEvents
  import opened SpanPlaces
  import opened Projection

  function SizeOf(event: Event): nat {
    if event.content.Some? then |event.content.value.bytes| else 0
  }

  /** An event without its content: its row stays, and its scrollback names no content. */
  function WithoutContent(event: Event): Event {
    event.(content := None,
           scrollback := if event.scrollback.None? then None else Some(Blank(event.scrollback.value)))
  }

  predicate Fits(stored: nat, event: Event, maxBytes: int) {
    stored + SizeOf(event) <= maxBytes
  }

  predicate Dropped(stored: nat, event: Event, maxBytes: int) {
    maxBytes > 0 && event.content.Some? && !Fits(stored, event, maxBytes)
  }

  /** The bytes stored once a connection that had stored `stored` took a batch. */
  function StoredAfter(stored: nat, batch: seq<Event>, maxBytes: int): nat {
    if batch == [] || maxBytes <= 0 then stored
    else
      var before, e := StoredAfter(stored, batch[..|batch| - 1], maxBytes), batch[|batch| - 1];
      if Dropped(before, e, maxBytes) then before else before + SizeOf(e)
  }

  function Budgeted(stored: nat, batch: seq<Event>, maxBytes: int): (kept: seq<Event>)
    ensures |kept| == |batch|
  {
    if batch == [] then []
    else
      var before, e := batch[..|batch| - 1], batch[|batch| - 1];
      Budgeted(stored, before, maxBytes)
      + [if Dropped(StoredAfter(stored, before, maxBytes), e, maxBytes) then WithoutContent(e) else e]
  }

  /** The sequence of the first event of the batch whose content is dropped. */
  function FirstDropped(stored: nat, batch: seq<Event>, maxBytes: int): Option<nat> {
    if batch == [] then None
    else
      var before, e := batch[..|batch| - 1], batch[|batch| - 1];
      var first := FirstDropped(stored, before, maxBytes);
      if first.Some? then first
      else if Dropped(StoredAfter(stored, before, maxBytes), e, maxBytes) then Some(e.facts.sequence) else None
  }

  function BudgetSpan(sequence: nat): LossSpan {
    LossSpan(DroppedEvent, Some(sequence), None, None, Some(sequence))
  }

  class OutputBudgetState {
    var storedBytes: nat
    var reported: bool

    constructor ()
      ensures storedBytes == 0 && !reported
    {
      storedBytes, reported := 0, false;
    }

    /** Applies the budget to one batch, in order. The first time the connection drops content, and
        only then, it reports where. */
    method ApplyOutputBudget(batch: seq<Event>, maxBytes: int) returns (kept: seq<Event>, lossSpan: Option<LossSpan>)
      modifies this
      ensures kept == Budgeted(old(storedBytes), batch, maxBytes)
      ensures storedBytes == StoredAfter(old(storedBytes), batch, maxBytes)
      ensures var first := FirstDropped(old(storedBytes), batch, maxBytes);
              && reported == (old(reported) || first.Some?)
              && lossSpan == if old(reported) || first.None? then None else Some(BudgetSpan(first.value))
      ensures lossSpan.Some? ==>
                var first := FirstDropped(old(storedBytes), batch, maxBytes);
                && !old(reported) && first.Some?
                && lossSpan.value == LossSpan(DroppedEvent, Some(first.value), None, None, Some(first.value))
    {
      if maxBytes <= 0 {
        BudgetOff(storedBytes, batch, maxBytes);
        return batch, None;
      }
      kept, lossSpan := [], None;
      for i := 0 to |batch|
        invariant kept == Budgeted(old(storedBytes), batch[..i], maxBytes)
        invariant storedBytes == StoredAfter(old(storedBytes), batch[..i], maxBytes)
        invariant var first := FirstDropped(old(storedBytes), batch[..i], maxBytes);
                  && reported == (old(reported) || first.Some?)
                  && lossSpan == if old(reported) || first.None? then None else Some(BudgetSpan(first.value))
      {
        var event := batch[i];
        assert batch[..i + 1][..i] == batch[..i];
        if event.content.None? {
          kept := kept + [event];
        } else if storedBytes + |event.content.value.bytes| <= maxBytes {
          storedBytes := storedBytes + |event.content.value.bytes|;
          kept := kept + [event];
        } else {
          if !reported {
            reported := true;
            lossSpan := Some(BudgetSpan(event.facts.sequence));
          }
          kept := kept + [WithoutContent(event)];
        }
      }
      assert batch[..|batch|] == batch;
    }
  }

  lemma {:induction false} BudgetOff(stored: nat, batch: seq<Event>, maxBytes: int)
    requires maxBytes <= 0
    ensures Budgeted(stored, batch, maxBytes) == batch && FirstDropped(stored, batch, maxBytes) == None
  {
    if batch != [] { BudgetOff(stored, batch[..|batch| - 1], maxBytes); }
  }

  function TotalSize(batch: seq<Event>): nat {
    if batch == [] then 0 else TotalSize(batch[..|batch| - 1]) + SizeOf(batch[|batch| - 1])
  }

  /** The count is of exactly the content kept, and never passes the budget. */
  lemma {:induction false} StoresWithinBudget(stored: nat, batch: seq<Event>, maxBytes: int)
    requires maxBytes > 0 && stored <= maxBytes
    ensures StoredAfter(stored, batch, maxBytes) == stored + TotalSize(Budgeted(stored, batch, maxBytes)) <= maxBytes
  {
    if batch != [] {
      StoresWithinBudget(stored, batch[..|batch| - 1], maxBytes);
      var kept := Budgeted(stored, batch, maxBytes);
      assert kept[..|kept| - 1] == Budgeted(stored, batch[..|batch| - 1], maxBytes);
    }
  }

  /** The budget keeps every event, in place, with all a redelivery compares; it takes content from
      exactly those whose bytes do not fit on top of what was stored before them. */
  lemma {:induction false} KeepsEveryEvent(stored: nat, batch: seq<Event>, maxBytes: int, i: nat)
    requires i < |batch|
    ensures var kept := Budgeted(stored, batch, maxBytes)[i];
            && kept.eventId == batch[i].eventId && kept.facts == batch[i].facts && kept.attributedRunId == batch[i].attributedRunId
            && kept == if Dropped(StoredAfter(stored, batch[..i], maxBytes), batch[i], maxBytes) then WithoutContent(batch[i])
                       else batch[i]
    ensures var kept, before := Budgeted(stored, batch, maxBytes)[i], StoredAfter(stored, batch[..i], maxBytes);
            if maxBytes > 0 && batch[i].content.Some? && before + |batch[i].content.value.bytes| > maxBytes then
              && kept == batch[i].(content := None, scrollback := kept.scrollback)
              && (kept.scrollback.Some? <==> batch[i].scrollback.Some?)
              && (kept.scrollback.Some? ==>
                    kept.scrollback.value == batch[i].scrollback.value.(contentAlgo := None, contentHash := None))
            else kept == batch[i]
  {
    if i < |batch| - 1 {
      KeepsEveryEvent(stored, batch[..|batch| - 1], maxBytes, i);
      assert batch[..|batch| - 1][..i] == batch[..i];
    }
  }

  /** The count starts at what the connection had stored, and grows by the bytes of each content kept. */
  lemma {:induction false} CountsBytesKept(stored: nat, batch: seq<Event>, maxBytes: int, i: nat)
    requires i < |batch| && maxBytes > 0
    ensures StoredAfter(stored, batch[..0], maxBytes) == stored
    ensures var kept := Budgeted(stored, batch, maxBytes)[i];
            StoredAfter(stored, batch[..i + 1], maxBytes)
            == StoredAfter(stored, batch[..i], maxBytes) + if kept.content.Some? then |kept.content.value.bytes| else 0
  {
    assert batch[..i + 1][..i] == batch[..i];
    KeepsEveryEvent(stored, batch, maxBytes, i);
  }

  /** The span a batch reports is of the first event whose content is taken; without one, every event is
      kept whole. */
  lemma {:induction false} ReportsTheFirst(stored: nat, batch: seq<Event>, maxBytes: int)
    ensures FirstDropped(stored, batch, maxBytes).None? ==> Budgeted(stored, batch, maxBytes) == batch
    ensures FirstDropped(stored, batch, maxBytes).Some? ==>
              exists i :: 0 <= i < |batch| && batch[i].facts.sequence == FirstDropped(stored, batch, maxBytes).value
                          && batch[i].content.Some? && Budgeted(stored, batch, maxBytes)[i].content.None?
                          && Budgeted(stored, batch, maxBytes)[..i] == batch[..i]
  {
    if batch != [] {
      var before, n := batch[..|batch| - 1], |batch| - 1;
      ReportsTheFirst(stored, before, maxBytes);
      var first := FirstDropped(stored, before, maxBytes);
      if first.Some? {
        var i :| 0 <= i < n && before[i].facts.sequence == first.value && before[i].content.Some?
                 && Budgeted(stored, before, maxBytes)[i].content.None? && Budgeted(stored, before, maxBytes)[..i] == before[..i];
        assert Budgeted(stored, batch, maxBytes)[..i] == batch[..i] && batch[i] == before[i];
      } else if Dropped(StoredAfter(stored, before, maxBytes), batch[n], maxBytes) {
        assert Budgeted(stored, batch, maxBytes)[..n] == batch[..n];
      }
    }
  }

  /** What a normalized event becomes is what the projections take as ingested. */
  lemma {:induction false} BudgetedIsIngestable(env: Envelope)
    ensures Ingestable(Normalize(env)) && Ingestable(WithoutContent(Normalize(env)))
  {
    RowRoundTrip(env, "");
  }

  /** How the stream is cut into batches does not matter. */
  lemma {:induction false} BatchingDoesNotMatter(stored: nat, a: seq<Event>, b: seq<Event>, maxBytes: int)
    ensures Budgeted(stored, a + b, maxBytes)
            == Budgeted(stored, a, maxBytes) + Budgeted(StoredAfter(stored, a, maxBytes), b, maxBytes)
    ensures StoredAfter(stored, a + b, maxBytes) == StoredAfter(StoredAfter(stored, a, maxBytes), b, maxBytes)
  {
    if b == [] {
      assert a + b == a;
    } else {
      assert (a + b)[..|a + b| - 1] == a + b[..|b| - 1];
      BatchingDoesNotMatter(stored, a, b[..|b| - 1], maxBytes);
    }
  }

  function Output(sequence: nat, bytes: seq<bv8>): Event {
    Normalize(Envelope("evt", 1, sequence, None, None, None, None, 1, 0, 0, 0, 0,
                       RawIo(1, 0, |bytes|, Some(Content("sha256", "h", bytes)), None, None)))
  }

  /** Content after the first dropped chunk is not always dropped: a smaller chunk that still fits is
      stored. */
  lemma {:induction false} SmallerChunkStillStored()
    ensures var batch := [Output(1, [1, 2]), Output(2, [3, 4]), Output(3, [5])];
            var kept := Budgeted(0, batch, 3);
            kept == [batch[0], WithoutContent(batch[1]), batch[2]] && batch[2].content.Some?
  {
    var batch := [Output(1, [1, 2]), Output(2, [3, 4]), Output(3, [5])];
    assert batch[..0] == [] && batch[..1] == [batch[0]] && batch[..2] == [batch[0], batch[1]];
    KeepsEveryEvent(0, batch, 3, 0);
    KeepsEveryEvent(0, batch, 3, 1);
    KeepsEveryEvent(0, batch, 3, 2);
    assert batch[..1][..0] == [] && batch[..2][..1] == batch[..1];
    assert StoredAfter(0, batch[..1], 3) == 2;
    assert StoredAfter(0, batch[..2], 3) == 2;
  }
}
