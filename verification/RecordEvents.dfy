/** The events of a run's record, the rows that store them, and the way back
    (packages/telemetry/src/normalize.ts, packages/telemetry/src/redelivery.ts). */
module RecordEvents {
  import opened Wrappers

  type EventId = string
  type RunId = string
  /** A runtime, by its rank in the order the database sorts runtime ids. */
  type RuntimeId = nat

  datatype PayloadCase =
    | RuntimeStateChanged | RuntimeHeartbeat | ProcessStarted | ProcessExited | IoChunk | TelemetryDropped
    | FileChange | FileWatchOverflow | FileSnapshotCompleted | FileDiffAvailable | NetworkRequest
    | NetworkSourceObserved | Unknown

  /** How many arguments a process had and how long each was, in UTF-8 bytes. */
  datatype Described = Described(argCount: nat, argLengths: seq<nat>)
  datatype Transform = Transform(redacted: bool, truncated: bool, coalesced: bool, originalByteCount: Option<nat>)
  datatype Io = Io(stream: int, streamOffset: nat, byteCount: nat, contentAlgo: Option<string>,
                   contentHash: Option<string>, transform: Option<Transform>)

  /** A stored payload: the parts read here, and the rest as one opaque text. */
  datatype Payload = Payload(args: Option<seq<string>>, described: Option<Described>, io: Option<Io>, rest: string)

  datatype Content = Content(algo: string, hash: string, bytes: seq<bv8>)
  datatype Scrollback = Scrollback(processId: Option<string>, sessionId: Option<string>, stream: int, streamOffset: nat,
                                   byteCount: nat, contentAlgo: Option<string>, contentHash: Option<string>,
                                   redacted: bool, truncated: bool, coalesced: bool, originalByteCount: Option<nat>)

  /** What two copies of one event are compared on. */
  datatype Facts = Facts(runtimeId: RuntimeId, sequence: nat, executionId: Option<RunId>, sessionId: Option<string>,
                         processId: Option<string>, requestId: Option<string>, schemaVersion: int, observedAt: int,
                         monotonicTimestamp: int, captureMethod: int, confidence: int, payloadCase: PayloadCase,
                         payload: Payload)

  datatype Event = Event(eventId: EventId, facts: Facts, content: Option<Content>, scrollback: Option<Scrollback>,
                         attributedRunId: Option<RunId>)

  /** A row of the log: the event's facts under a run. */
  datatype Stored = Stored(eventId: EventId, runId: RunId, facts: Facts)

  // ---------------------------------------------------------------------------------------------
  // Arguments are never stored
  // ---------------------------------------------------------------------------------------------

  function Utf8Width(c: char): nat {
    if c as int < 0x80 then 1 else if c as int < 0x800 then 2 else if c as int < 0x1_0000 then 3 else 4
  }

  function Utf8Length(s: string): nat {
    if s == "" then 0 else Utf8Width(s[0]) + Utf8Length(s[1..])
  }

  /** The length of a text is what its characters take in UTF-8, one to four bytes each. */
  lemma {:induction false} Utf8LengthAdds(s: string, t: string, c: char)
    ensures Utf8Length(s + t) == Utf8Length(s) + Utf8Length(t)
    ensures Utf8Length([c]) == if c as int <= 0x7F then 1 else if c as int <= 0x7FF then 2 else if c as int <= 0xFFFF then 3 else 4
  {
    assert [c][1..] == "";
    if s != "" {
      assert (s + t)[1..] == s[1..] + t;
      Utf8LengthAdds(s[1..], t, c);
    } else {
      assert s + t == t;
    }
  }

  function DescribeArguments(args: seq<string>): Described {
    Described(|args|, seq(|args|, i requires 0 <= i < |args| => Utf8Length(args[i])))
  }

  function WithholdArgs(payload: Payload): Payload {
    if payload.args.None? || payload.args.value == [] then payload
    else payload.(args := Some([]), described := Some(DescribeArguments(payload.args.value)))
  }

  predicate Withheld(payload: Payload) {
    payload.args.None? || payload.args.value == []
  }

  // ---------------------------------------------------------------------------------------------
  // From the wire
  // ---------------------------------------------------------------------------------------------

  datatype Raw =
    | RawStarted(args: seq<string>, argCount: Option<nat>, argLengths: seq<nat>, rest: string)
    | RawIo(stream: int, streamOffset: nat, byteCount: nat, content: Option<Content>, artifact: Option<(string, string)>,
            transform: Option<Transform>)
    | RawOther(payloadCase: PayloadCase, rest: string)

  datatype Envelope = Envelope(eventId: EventId, runtimeId: RuntimeId, sequence: nat, executionId: Option<RunId>,
                               sessionId: Option<string>, processId: Option<string>, requestId: Option<string>,
                               schemaVersion: int, observedAt: int, monotonicTimestamp: int, captureMethod: int,
                               confidence: int, raw: Raw)

  function CaseOf(raw: Raw): PayloadCase {
    match raw
    case RawStarted(_, _, _, _) => ProcessStarted
    case RawIo(_, _, _, _, _, _) => IoChunk
    case RawOther(payloadCase, _) => payloadCase
  }

  function BuildPayload(raw: Raw): Payload {
    match raw
    case RawIo(stream, streamOffset, byteCount, content, artifact, transform) =>
      var algo := if content.Some? then Some("sha256") else if artifact.Some? then Some(artifact.value.0) else None;
      var hash := if content.Some? then Some(content.value.hash) else if artifact.Some? then Some(artifact.value.1) else None;
      Payload(None, None, Some(Io(stream, streamOffset, byteCount, algo, hash, transform)), "")
    case RawStarted(args, argCount, argLengths, rest) =>
      var described := if argCount.Some? && argCount.value > 0 then Some(Described(argCount.value, argLengths)) else None;
      WithholdArgs(Payload(Some(args), described, None, rest))
    case RawOther(_, rest) => Payload(None, None, None, rest)
  }

  function DeriveScrollback(processId: Option<string>, sessionId: Option<string>, payloadCase: PayloadCase,
                            payload: Payload): Option<Scrollback> {
    if payloadCase != IoChunk then None
    else
      var io := if payload.io.Some? then payload.io.value else Io(0, 0, 0, None, None, None);
      var t := if io.transform.Some? then io.transform.value else Transform(false, false, false, None);
      Some(Scrollback(processId, sessionId, io.stream, io.streamOffset, io.byteCount, io.contentAlgo, io.contentHash,
                      t.redacted, t.truncated, t.coalesced, t.originalByteCount))
  }

  function ScrollbackOf(facts: Facts): Option<Scrollback> {
    DeriveScrollback(facts.processId, facts.sessionId, facts.payloadCase, facts.payload)
  }

  function Normalize(env: Envelope): Event {
    var payloadCase, payload := CaseOf(env.raw), BuildPayload(env.raw);
    Event(env.eventId,
          Facts(env.runtimeId, env.sequence, env.executionId, env.sessionId, env.processId, env.requestId,
                env.schemaVersion, env.observedAt, env.monotonicTimestamp, env.captureMethod, env.confidence,
                payloadCase, payload),
          if env.raw.RawIo? then env.raw.content else None,
          DeriveScrollback(env.processId, env.sessionId, payloadCase, payload),
          None)
  }

  /** Every column of a normalized event is the envelope's own. */
  lemma {:induction false} NormalizedColumns(env: Envelope)
    ensures var event := Normalize(env);
            && event.eventId == env.eventId && event.attributedRunId == None
            && event.facts.runtimeId == env.runtimeId && event.facts.sequence == env.sequence
            && event.facts.executionId == env.executionId && event.facts.sessionId == env.sessionId
            && event.facts.processId == env.processId && event.facts.requestId == env.requestId
            && event.facts.schemaVersion == env.schemaVersion && event.facts.observedAt == env.observedAt
            && event.facts.monotonicTimestamp == env.monotonicTimestamp && event.facts.captureMethod == env.captureMethod
            && event.facts.confidence == env.confidence
  {
  }

  /** An output chunk keeps its bytes beside the event, and what names them in its payload and its
      scrollback alike: their hash, or the artifact already stored. */
  lemma {:induction false} ChunkColumns(env: Envelope)
    requires env.raw.RawIo?
    ensures var event, raw := Normalize(env), env.raw;
            var algo := if raw.content.Some? then Some("sha256") else if raw.artifact.Some? then Some(raw.artifact.value.0) else None;
            var hash := if raw.content.Some? then Some(raw.content.value.hash)
                        else if raw.artifact.Some? then Some(raw.artifact.value.1) else None;
            && event.facts.payloadCase == IoChunk && event.content == raw.content
            && event.facts.payload == Payload(None, None, Some(Io(raw.stream, raw.streamOffset, raw.byteCount, algo, hash, raw.transform)), "")
            && event.scrollback.Some?
            && event.scrollback.value
               == Scrollback(env.processId, env.sessionId, raw.stream, raw.streamOffset, raw.byteCount, algo, hash,
                             raw.transform.Some? && raw.transform.value.redacted,
                             raw.transform.Some? && raw.transform.value.truncated,
                             raw.transform.Some? && raw.transform.value.coalesced,
                             if raw.transform.Some? then raw.transform.value.originalByteCount else None)
  {
  }

  /** A process's start says how many arguments it had and how long each was, by itself when it had the
      text, else as the daemon said; no other event but an output chunk has content or a scrollback. */
  lemma {:induction false} OtherColumns(env: Envelope)
    requires !env.raw.RawIo?
    ensures Normalize(env).content == None && (Normalize(env).scrollback.Some? ==> env.raw == RawOther(IoChunk, env.raw.rest))
    ensures env.raw.RawOther? ==>
              Normalize(env).facts.payloadCase == env.raw.payloadCase
              && Normalize(env).facts.payload == Payload(None, None, None, env.raw.rest)
    ensures env.raw.RawStarted? ==>
              var payload := Normalize(env).facts.payload;
              && Normalize(env).facts.payloadCase == ProcessStarted && payload.args == Some([]) && payload.io == None
              && payload.rest == env.raw.rest
              && if env.raw.args != [] then
                   && payload.described.Some? && payload.described.value.argCount == |env.raw.args| == |payload.described.value.argLengths|
                   && forall i | 0 <= i < |env.raw.args| :: payload.described.value.argLengths[i] == Utf8Length(env.raw.args[i])
                 else if env.raw.argCount.Some? && env.raw.argCount.value > 0 then
                   payload.described == Some(Described(env.raw.argCount.value, env.raw.argLengths))
                 else payload.described == None
  {
  }

  // ---------------------------------------------------------------------------------------------
  // To the log and back
  // ---------------------------------------------------------------------------------------------

  function EventRow(event: Event, runId: RunId): Stored {
    Stored(event.eventId, runId, event.facts)
  }

  function RowToNormalized(row: Stored): Event {
    var facts := if row.facts.payloadCase == ProcessStarted then row.facts.(payload := WithholdArgs(row.facts.payload))
                 else row.facts;
    Event(row.eventId, facts, None, ScrollbackOf(facts), None)
  }

  /** An event whose stored facts read back as they are. */
  predicate Recordable(event: Event) {
    event.facts.payloadCase == ProcessStarted ==> Withheld(event.facts.payload)
  }

  /** Withholding is idempotent: a payload already withheld, here or by the daemon, is left alone. */
  lemma {:induction false} WithholdingIsIdempotent(payload: Payload)
    ensures Withheld(WithholdArgs(payload)) && WithholdArgs(WithholdArgs(payload)) == WithholdArgs(payload)
    ensures WithholdArgs(payload) == payload <==> Withheld(payload)
  {
    if !Withheld(payload) { assert WithholdArgs(payload).args != payload.args; }
  }

  /** A normalized event reads back from its row as itself, but for its bytes; and of a process's
      arguments it keeps how many there were and how long, none of their text: two processes whose
      arguments are as many and as long are recorded alike. */
  lemma {:induction false} RowRoundTrip(env: Envelope, runId: RunId)
    ensures var event := Normalize(env);
            Recordable(event) && RowToNormalized(EventRow(event, runId)) == event.(content := None)
    ensures env.raw.RawStarted? && env.raw.args != [] ==>
              forall other: seq<string> | DescribeArguments(other) == DescribeArguments(env.raw.args) ::
                Normalize(env.(raw := env.raw.(args := other))) == Normalize(env)
  {
    if env.raw.RawStarted? && env.raw.args != [] {
      forall other: seq<string> | DescribeArguments(other) == DescribeArguments(env.raw.args)
        ensures BuildPayload(env.raw.(args := other)) == BuildPayload(env.raw)
      {
        assert |other| == |env.raw.args|;
      }
    }
  }

  lemma {:induction false} RecordableRoundTrip(event: Event, runId: RunId)
    requires Recordable(event)
    ensures RowToNormalized(EventRow(event, runId)).facts == event.facts
  {
  }

  // ---------------------------------------------------------------------------------------------
  // Comparing copies
  // ---------------------------------------------------------------------------------------------

  datatype Field =
    | FRunId | FEventId | FRuntimeId | FSequence | FExecutionId | FSessionId | FProcessId | FRequestId | FSchemaVersion
    | FObservedAt | FMonotonicTimestamp | FCaptureMethod | FConfidence | FPayloadCase | FPayload

  function Differs(unequal: bool, field: Field): seq<Field> {
    if unequal then [field] else []
  }

  function PlaceDifferences(a: Facts, b: Facts): seq<Field> {
    Differs(a.runtimeId != b.runtimeId, FRuntimeId) + Differs(a.sequence != b.sequence, FSequence)
    + Differs(a.executionId != b.executionId, FExecutionId) + Differs(a.sessionId != b.sessionId, FSessionId)
    + Differs(a.processId != b.processId, FProcessId) + Differs(a.requestId != b.requestId, FRequestId)
  }

  function ContentDifferences(a: Facts, b: Facts): seq<Field> {
    Differs(a.schemaVersion != b.schemaVersion, FSchemaVersion) + Differs(a.observedAt != b.observedAt, FObservedAt)
    + Differs(a.monotonicTimestamp != b.monotonicTimestamp, FMonotonicTimestamp)
    + Differs(a.captureMethod != b.captureMethod, FCaptureMethod) + Differs(a.confidence != b.confidence, FConfidence)
    + Differs(a.payloadCase != b.payloadCase, FPayloadCase) + Differs(a.payload != b.payload, FPayload)
  }

  function EventDifferences(kept: Event, event: Event): seq<Field> {
    PlaceDifferences(kept.facts, event.facts) + ContentDifferences(kept.facts, event.facts)
  }

  /** Nothing differs exactly between copies of the same facts. */
  lemma {:induction false} NoDifferencesMeansSame(kept: Event, event: Event)
    ensures EventDifferences(kept, event) == [] <==> kept.facts == event.facts
  {
    var a, b := kept.facts, event.facts;
    if EventDifferences(kept, event) == [] {
      assert |EventDifferences(kept, event)| == 0;
    }
  }

  lemma {:induction false} PlaceByColumn(a: Facts, b: Facts, f: Field)
    ensures f in PlaceDifferences(a, b)
            <==> match f
                 case FRuntimeId => a.runtimeId != b.runtimeId
                 case FSequence => a.sequence != b.sequence
                 case FExecutionId => a.executionId != b.executionId
                 case FSessionId => a.sessionId != b.sessionId
                 case FProcessId => a.processId != b.processId
                 case FRequestId => a.requestId != b.requestId
                 case _ => false
  {
  }

  lemma {:induction false} ContentByColumn(a: Facts, b: Facts, f: Field)
    ensures f in ContentDifferences(a, b)
            <==> match f
                 case FSchemaVersion => a.schemaVersion != b.schemaVersion
                 case FObservedAt => a.observedAt != b.observedAt
                 case FMonotonicTimestamp => a.monotonicTimestamp != b.monotonicTimestamp
                 case FCaptureMethod => a.captureMethod != b.captureMethod
                 case FConfidence => a.confidence != b.confidence
                 case FPayloadCase => a.payloadCase != b.payloadCase
                 case FPayload => a.payload != b.payload
                 case _ => false
  {
  }

  /** A difference is named by the column the copies differ in. */
  lemma {:induction false} DifferencesByColumn(kept: Event, event: Event, f: Field)
    ensures var a, b := kept.facts, event.facts;
            f in EventDifferences(kept, event)
            <==> match f
                 case FRunId => false
                 case FEventId => false
                 case FRuntimeId => a.runtimeId != b.runtimeId
                 case FSequence => a.sequence != b.sequence
                 case FExecutionId => a.executionId != b.executionId
                 case FSessionId => a.sessionId != b.sessionId
                 case FProcessId => a.processId != b.processId
                 case FRequestId => a.requestId != b.requestId
                 case FSchemaVersion => a.schemaVersion != b.schemaVersion
                 case FObservedAt => a.observedAt != b.observedAt
                 case FMonotonicTimestamp => a.monotonicTimestamp != b.monotonicTimestamp
                 case FCaptureMethod => a.captureMethod != b.captureMethod
                 case FConfidence => a.confidence != b.confidence
                 case FPayloadCase => a.payloadCase != b.payloadCase
                 case FPayload => a.payload != b.payload
  {
    hide PlaceDifferences, ContentDifferences;
    PlaceByColumn(kept.facts, event.facts, f);
    ContentByColumn(kept.facts, event.facts, f);
  }

  /** Whether the stored row of an event is in a run that holds it. */
  predicate PlacedRightly(stored: Stored, event: Event, runId: RunId) {
    event.facts.executionId.None? || Some(stored.runId) == event.facts.executionId || stored.runId == runId
  }

  function RedeliveryDifferences(stored: Stored, event: Event, runId: RunId): seq<Field> {
    var differences := EventDifferences(RowToNormalized(stored), event);
    if PlacedRightly(stored, event, runId) then differences else [FRunId] + differences
  }

  /** A stored row that is this event, in a run that holds it. */
  predicate Holds(stored: Stored, event: Event, runId: RunId) {
    stored.eventId == event.eventId && RowToNormalized(stored).facts == event.facts && PlacedRightly(stored, event, runId)
  }

  lemma {:induction false} HoldsMeansNoDifferences(stored: Stored, event: Event, runId: RunId)
    requires stored.eventId == event.eventId
    ensures RedeliveryDifferences(stored, event, runId) == [] <==> Holds(stored, event, runId)
  {
    NoDifferencesMeansSame(RowToNormalized(stored), event);
  }
}
