/** How Core orders the capture answers it receives from one executor, and which answers that say
    "not saved" stay on record (packages/db/src/capture-evidence-order.ts). */
module CaptureEvidence {
  import opened Wrappers

  /** Where in its own history an executor made an answer. */
  datatype Origin = Origin(epoch: int, launch: string, bootId: string, bootGeneration: int, observation: int,
                           headN: Option<int>)

  datatype Order = Before | Same | After | Incomparable

  /** A status's `origin` as its JSON holds it: every field may be missing or of another type. */
  datatype StoredOrigin =
    | NoOrigin
    | StoredOrigin(epoch: Option<int>, launch: Option<string>, bootId: Option<string>,
                   bootGeneration: Option<int>, observation: Option<int>, headN: Option<int>)

  /** A status answer: what the ordering reads of it, and the rest of its JSON. */
  datatype Status = Status(complete: bool, hasIncompleteReason: bool, origin: StoredOrigin, rest: string)

  /** What a store holds as the latest status: nothing, a value that is no record, or a status. */
  datatype Stored = Absent | NotARecord | Record(status: Status)

  /** An answer on record that says the work is not saved, and when it was recorded, if known. */
  datatype Observation = Observation(status: Status, recordedAt: Option<int>)

  function OriginFromStored(stored: StoredOrigin): Option<Origin> {
    match stored
    case NoOrigin => None
    case StoredOrigin(Some(epoch), Some(launch), Some(bootId), Some(generation), Some(observation), headN) =>
      if launch == "" || bootId == "" then None
      else Some(Origin(epoch, launch, bootId, generation, observation, headN))
    case _ => None
  }

  function OriginOf(status: Status): Option<Origin> {
    OriginFromStored(status.origin)
  }

  function StoredOriginOf(stored: Stored): Option<Origin> {
    if stored.Record? then OriginOf(stored.status) else None
  }

  predicate Complete(status: Status) {
    status.complete && !status.hasIncompleteReason
  }

  predicate StoredComplete(stored: Stored) {
    stored.Record? && Complete(stored.status)
  }

  function OrderNumbers(a: int, b: int): Order {
    if a < b then Before else if a > b then After else Same
  }

  function Compare(a: Option<Origin>, b: Option<Origin>): Order {
    if a.None? || b.None? || a.value.epoch != b.value.epoch || a.value.launch != b.value.launch then
      Incomparable
    else if a.value.bootId == b.value.bootId then
      var byObservation := OrderNumbers(a.value.observation, b.value.observation);
      if byObservation == Same && a.value.headN.Some? && b.value.headN.Some? && a.value.headN != b.value.headN then
        Incomparable
      else
        byObservation
    else if a.value.bootGeneration > 0 && b.value.bootGeneration > 0
            && a.value.bootGeneration != b.value.bootGeneration then
      OrderNumbers(a.value.bootGeneration, b.value.bootGeneration)
    else
      Incomparable
  }

  /** Whether a status just received replaces the one on record. */
  predicate StatusSupersedes(stored: Stored, incoming: Status, causallyAfter: bool) {
    if stored.Absent? then
      true
    else
      var order := Compare(OriginOf(incoming), StoredOriginOf(stored));
      if order == After || order == Same then true
      else if order == Before && !causallyAfter then false
      else if order == Incomparable && causallyAfter then true
      else !Complete(incoming) || StoredComplete(stored)
  }

  /** Whether the request of an answer was sent after another answer was recorded, as far as known. */
  predicate AskedAfter(askedAt: Option<int>, recordedAt: Option<int>) {
    askedAt.Some? && (recordedAt.None? || askedAt.value > recordedAt.value)
  }

  predicate AnswerCovers(answer: Status, askedAt: Option<int>, recorded: Status, recordedAt: Option<int>) {
    var order := Compare(OriginOf(answer), OriginOf(recorded));
    order == After || order == Same || (order == Incomparable && AskedAfter(askedAt, recordedAt))
  }

  /** Whether a known answer already follows an incoming one that was not asked for after it. */
  predicate FollowedBy(incoming: Status, askedAt: Option<int>, known: Observation) {
    var order := Compare(OriginOf(incoming), OriginOf(known.status));
    order == Same || (order == Before && !AskedAfter(askedAt, known.recordedAt))
  }

  function Known(unsaved: seq<Observation>, stored: Stored, storedAt: Option<int>): seq<Observation> {
    (if stored.Record? then [Observation(stored.status, storedAt)] else []) + unsaved
  }

  predicate Stale(unsaved: seq<Observation>, stored: Stored, storedAt: Option<int>, incoming: Status,
                  askedAt: Option<int>)
  {
    exists k :: k in Known(unsaved, stored, storedAt) && FollowedBy(incoming, askedAt, k)
  }

  /** The members an incoming answer does not cover, in their order. */
  function Uncovered(unsaved: seq<Observation>, incoming: Status, askedAt: Option<int>): (kept: seq<Observation>)
    ensures forall m :: m in kept <==>
                        m in unsaved && !AnswerCovers(incoming, askedAt, m.status, m.recordedAt)
  {
    if unsaved == [] then []
    else
      var rest := Uncovered(unsaved[1..], incoming, askedAt);
      if AnswerCovers(incoming, askedAt, unsaved[0].status, unsaved[0].recordedAt) then rest
      else [unsaved[0]] + rest
  }

  /** The unsaved answers on record once `incoming` is recorded. */
  function NextUnsaved(unsaved: seq<Observation>, stored: Stored, storedAt: Option<int>, incoming: Status,
                       askedAt: Option<int>, recordedAt: int): seq<Observation>
  {
    if Stale(unsaved, stored, storedAt, incoming, askedAt) then unsaved
    else
      var kept := Uncovered(unsaved, incoming, askedAt);
      if Complete(incoming) then kept else kept + [Observation(incoming, Some(recordedAt))]
  }

  // ---------------------------------------------------------------------------------------------
  // The order itself
  // ---------------------------------------------------------------------------------------------

  function Dual(order: Order): Order {
    match order
    case Before => After
    case After => Before
    case other => other
  }

  /** The premise about two positions: one boot of one executor has one generation. */
  predicate OneGeneration(a: Origin, b: Origin) {
    a.epoch == b.epoch && a.launch == b.launch && a.bootId == b.bootId ==> a.bootGeneration == b.bootGeneration
  }

  /** The order is the executor's history, on its numbers: within a boot its observations, between boots
      of known generations their generations; and nothing orders two positions exactly when one is
      missing, the executors differ, one observation names two heads, or the generations do not tell. */
  lemma {:induction false} ComparesByHistory(a: Origin, b: Origin)
    ensures a.epoch == b.epoch && a.launch == b.launch && a.bootId == b.bootId ==>
              && (Compare(Some(a), Some(b)) == Before <==> a.observation < b.observation)
              && (Compare(Some(a), Some(b)) == After <==> b.observation < a.observation)
    ensures a.epoch == b.epoch && a.launch == b.launch && a.bootId != b.bootId ==>
              && (Compare(Some(a), Some(b)) == Before <==> 0 < a.bootGeneration < b.bootGeneration)
              && (Compare(Some(a), Some(b)) == After <==> 0 < b.bootGeneration < a.bootGeneration)
    ensures Compare(Some(a), Some(b)) == Incomparable <==>
            || a.epoch != b.epoch || a.launch != b.launch
            || (a.bootId == b.bootId && a.observation == b.observation && a.headN.Some? && b.headN.Some?
                && a.headN.value != b.headN.value)
            || (a.bootId != b.bootId && (a.bootGeneration <= 0 || b.bootGeneration <= 0 || a.bootGeneration == b.bootGeneration))
    ensures Compare(None, Some(b)) == Compare(Some(a), None) == Compare(None, None) == Incomparable
  {
  }

  lemma CompareIsDual(a: Option<Origin>, b: Option<Origin>)
    ensures Compare(b, a) == Dual(Compare(a, b))
  {
  }

  /** "Before" is transitive and composes with "same" on either side, when one boot has one
      generation. */
  lemma CompareIsTransitive(a: Origin, b: Origin, c: Origin)
    requires OneGeneration(a, b) && OneGeneration(b, c) && OneGeneration(a, c)
    requires Compare(Some(a), Some(b)) in {Before, Same} && Compare(Some(b), Some(c)) in {Before, Same}
    requires Compare(Some(a), Some(b)) == Before || Compare(Some(b), Some(c)) == Before
    ensures Compare(Some(a), Some(c)) == Before
  {
  }

  /** Two "same" steps compose exactly when the outer answers do not name two different heads: an
      answer that names no head in the middle hides the contradiction. */
  lemma SameComposes(a: Origin, b: Origin, c: Origin)
    requires Compare(Some(a), Some(b)) == Same && Compare(Some(b), Some(c)) == Same
    ensures Compare(Some(a), Some(c)) == Same <==> (a.headN.Some? && c.headN.Some? ==> a.headN == c.headN)
  {
  }

  /** Without one generation per boot the order is not transitive: boot "p" answers under
      generations 1 and 9, and boot "q" under 5 lies after the one and before the other. */
  lemma TwoGenerationsBreakTransitivity()
    ensures exists a: Origin, b: Origin, c: Origin ::
              && Compare(Some(a), Some(b)) == Before && Compare(Some(b), Some(c)) == Before
              && Compare(Some(a), Some(c)) == After
  {
    var a := Origin(1, "launch", "p", 1, 7, None);
    var b := Origin(1, "launch", "q", 5, 1, None);
    var c := Origin(1, "launch", "p", 9, 3, None);
    assert Compare(Some(a), Some(b)) == Before && Compare(Some(b), Some(c)) == Before;
    assert Compare(Some(a), Some(c)) == After;
  }

  // ---------------------------------------------------------------------------------------------
  // Failing closed
  // ---------------------------------------------------------------------------------------------

  /** A complete answer replaces an incomplete one exactly when its position, or else causality, puts it
      at or after it. And an incomplete answer gives way to a complete one only when its position puts
      it before and causality does not say otherwise: unordered, the incomplete one always wins. */
  lemma FailsClosed(complete: Status, incomplete: Status, causallyAfter: bool)
    requires complete.complete && !complete.hasIncompleteReason
    requires !incomplete.complete || incomplete.hasIncompleteReason
    ensures StatusSupersedes(Record(incomplete), complete, causallyAfter)
            <==> var order := Compare(OriginOf(complete), OriginOf(incomplete));
                 order in {After, Same} || (order == Incomparable && causallyAfter)
    ensures !StatusSupersedes(Record(complete), incomplete, causallyAfter)
            <==> Compare(OriginOf(incomplete), OriginOf(complete)) == Before && !causallyAfter
  {
  }

  /** A status whose position is all there, for one executor. */
  predicate At(status: Status, epoch: int, launch: string, bootId: string, generation: int, observation: int) {
    && launch != "" && bootId != "" && status.origin.StoredOrigin?
    && status.origin.epoch == Some(epoch) && status.origin.launch == Some(launch) && status.origin.bootId == Some(bootId)
    && status.origin.bootGeneration == Some(generation) && status.origin.observation == Some(observation)
  }

  /** Two answers of one executor, on their JSON: the one later within the boot, or of the later boot,
      replaces and covers the other whatever the clock says; the earlier one never covers it, follows it
      unless asked for after it was recorded, and replaces it only then, and failing closed. */
  lemma {:induction false} HistoryDecides(early: Status, late: Status, epoch: int, launch: string, p: string, g: int, m: int,
                                          q: string, h: int, n: int, askedAt: Option<int>, recordedAt: Option<int>)
    requires At(early, epoch, launch, p, g, m) && At(late, epoch, launch, q, h, n)
    requires if p == q then m < n else 0 < g < h
    ensures forall causallyAfter :: StatusSupersedes(Record(early), late, causallyAfter)
    ensures !StatusSupersedes(Record(late), early, false)
    ensures StatusSupersedes(Record(late), early, true)
            <==> (!early.complete || early.hasIncompleteReason || (late.complete && !late.hasIncompleteReason))
    ensures AnswerCovers(late, askedAt, early, recordedAt) && !AnswerCovers(early, askedAt, late, recordedAt)
    ensures !FollowedBy(late, askedAt, Observation(early, recordedAt))
    ensures FollowedBy(early, askedAt, Observation(late, recordedAt))
            <==> askedAt.None? || (recordedAt.Some? && askedAt.value <= recordedAt.value)
  {
    ComparesByHistory(OriginOf(early).value, OriginOf(late).value);
    CompareIsDual(OriginOf(early), OriginOf(late));
  }

  /** Two answers no position orders, one having none or both being of boots no generation tells apart:
      one covers the other exactly when it was asked for after the other was recorded, neither is
      stale, and a complete one replaces an incomplete one only by the clock. */
  lemma {:induction false} ClockDecides(one: Status, two: Status, epoch: int, launch: string, p: string, g: int, m: int,
                                        q: string, h: int, n: int, askedAt: Option<int>, recordedAt: Option<int>)
    requires || one.origin == NoOrigin || two.origin == NoOrigin
             || (&& At(one, epoch, launch, p, g, m) && At(two, epoch, launch, q, h, n)
                 && p != q && (g <= 0 || h <= 0 || g == h))
    ensures AnswerCovers(two, askedAt, one, recordedAt)
            <==> askedAt.Some? && (recordedAt.Some? ==> recordedAt.value < askedAt.value)
    ensures !FollowedBy(two, askedAt, Observation(one, recordedAt))
    ensures StatusSupersedes(Record(one), two, true)
    ensures StatusSupersedes(Record(one), two, false)
            <==> (!two.complete || two.hasIncompleteReason || (one.complete && !one.hasIncompleteReason))
  {
  }

  /** Whichever of two unordered answers, one complete and one not, is recorded last, the record does not
      read saved. */
  lemma UnorderedNeverReadsSaved(complete: Status, incomplete: Status)
    requires Complete(complete) && !Complete(incomplete)
    requires Compare(OriginOf(complete), OriginOf(incomplete)) == Incomparable
    ensures !StatusSupersedes(Record(incomplete), complete, false) && StatusSupersedes(Record(complete), incomplete, false)
  {
    CompareIsDual(OriginOf(complete), OriginOf(incomplete));
  }
}

