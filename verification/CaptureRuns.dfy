/** Whole runs of recorded capture answers: nothing that said "not saved" is lost, the unsaved
    members are an antichain, and the record does not depend on the order of delivery. */
module CaptureRuns {
  import opened Wrappers
  import opened CaptureEvidence

  /** One answer being recorded: when its request was sent, if known, and when it is recorded. */
  datatype Event = Event(status: Status, askedAt: Option<int>, recordedAt: int)

  /** An event together with the latest status the recording read. */
  datatype Step = Step(event: Event, stored: Stored, storedAt: Option<int>)

  function Observed(e: Event): Observation {
    Observation(e.status, Some(e.recordedAt))
  }

  function UnsavedAfter(steps: seq<Step>): seq<Observation> {
    if steps == [] then []
    else
      var last := steps[|steps| - 1];
      NextUnsaved(UnsavedAfter(steps[..|steps| - 1]), last.stored, last.storedAt,
                  last.event.status, last.event.askedAt, last.event.recordedAt)
  }

  /** Every latest status a recording read was absent or an earlier answer of the run. */
  ghost predicate ReadsEarlierAnswers(steps: seq<Step>) {
    forall i | 0 <= i < |steps| && !steps[i].stored.Absent? ::
      exists j :: 0 <= j < i && steps[i].stored == Record(steps[j].event.status)
  }

  /** Answer `later` of the run covers its answer `earlier`. */
  ghost predicate Covers(steps: seq<Step>, later: nat, earlier: nat)
    requires later < |steps| && earlier < |steps|
  {
    AnswerCovers(steps[later].event.status, steps[later].event.askedAt,
                 steps[earlier].event.status, Some(steps[earlier].event.recordedAt))
  }

  /** A chain of answers of the run, each covered by the next. */
  ghost predicate Chain(steps: seq<Step>, path: seq<nat>) {
    && |path| > 0
    && (forall k | 0 <= k < |path| :: path[k] < |steps|)
    && forall k | 0 <= k < |path| - 1 :: Covers(steps, path[k + 1], path[k])
  }

  ghost predicate Settles(steps: seq<Step>, unsaved: seq<Observation>, i: nat)
    requires i < |steps|
  {
    Complete(steps[i].event.status) || Observed(steps[i].event) in unsaved
  }

  /** Answer `i` is accounted for: a chain of covering answers leads from it to a current member
      or to a complete answer. */
  ghost predicate AccountedFor(steps: seq<Step>, unsaved: seq<Observation>, i: nat) {
    exists path :: Chain(steps, path) && path[0] == i && Settles(steps, unsaved, path[|path| - 1])
  }

  // ---------------------------------------------------------------------------------------------
  // No "not saved" answer is lost
  // ---------------------------------------------------------------------------------------------

  /** A member on record after a run is one of the run's incomplete answers. */
  lemma {:induction false} MembersAreAnswers(steps: seq<Step>, m: Observation)
    requires m in UnsavedAfter(steps)
    ensures exists j :: 0 <= j < |steps| && m == Observed(steps[j].event) && !Complete(m.status)
  {
    var n := |steps| - 1;
    var before := UnsavedAfter(steps[..n]);
    if m in before {
      MembersAreAnswers(steps[..n], m);
      var j :| 0 <= j < n && m == Observed(steps[..n][j].event) && !Complete(m.status);
      assert m == Observed(steps[j].event);
    } else {
      assert m == Observed(steps[n].event);
    }
  }

  /** A chain of a shorter run that ended settled goes on, by at most one step, in the longer one. */
  lemma {:induction false} StaysAccountedFor(steps: seq<Step>, i: nat)
    requires |steps| > 0 && i < |steps| - 1
    requires AccountedFor(steps[..|steps| - 1], UnsavedAfter(steps[..|steps| - 1]), i)
    ensures AccountedFor(steps, UnsavedAfter(steps), i)
  {
    var n := |steps| - 1;
    var before := UnsavedAfter(steps[..n]);
    var path: seq<nat> :|
      Chain(steps[..n], path) && path[0] == i && Settles(steps[..n], before, path[|path| - 1]);
    assert Chain(steps, path) by {
      forall k | 0 <= k < |path| - 1 ensures Covers(steps, path[k + 1], path[k]) {
        assert Covers(steps[..n], path[k + 1], path[k]);
      }
    }
    var j := path[|path| - 1];
    if !Settles(steps, UnsavedAfter(steps), j) {
      assert Covers(steps, n, j);
      var longer := path + [n];
      assert Chain(steps, longer) by {
        forall k | 0 <= k < |longer| - 1 ensures Covers(steps, longer[k + 1], longer[k]) {
          if k < |path| - 1 { assert Covers(steps, path[k + 1], path[k]); }
        }
      }
      assert Settles(steps, UnsavedAfter(steps), longer[|longer| - 1]) by {
        if !Complete(steps[n].event.status) {
          assert Observed(steps[n].event) == UnsavedAfter(steps)[|UnsavedAfter(steps)| - 1];
        }
      }
    }
  }

  /** A chain goes on from an answer that its first answer covers. */
  lemma {:induction false} ChainGrows(steps: seq<Step>, unsaved: seq<Observation>, n: nat, j: nat)
    requires n < |steps| && j < |steps| && Covers(steps, j, n) && AccountedFor(steps, unsaved, j)
    ensures AccountedFor(steps, unsaved, n)
  {
    var tail: seq<nat> :| Chain(steps, tail) && tail[0] == j && Settles(steps, unsaved, tail[|tail| - 1]);
    var path := [n] + tail;
    assert Chain(steps, path) by {
      forall k | 0 <= k < |path| - 1 ensures Covers(steps, path[k + 1], path[k]) {
        if k > 0 { assert Covers(steps, tail[k], tail[k - 1]); }
      }
    }
    assert path[|path| - 1] == tail[|tail| - 1];
  }

  lemma {:induction false} SettledIsAccountedFor(steps: seq<Step>, unsaved: seq<Observation>, n: nat)
    requires n < |steps| && Settles(steps, unsaved, n)
    ensures AccountedFor(steps, unsaved, n)
  {
    assert Chain(steps, [n]) && [n][0] == n;
  }

  /** A known answer that makes the newest one stale is an earlier answer of the run, and covers it. */
  lemma {:induction false} StaleIsCovered(steps: seq<Step>) returns (j: nat)
    requires |steps| > 0 && ReadsEarlierAnswers(steps)
    requires var last := steps[|steps| - 1];
             Stale(UnsavedAfter(steps[..|steps| - 1]), last.stored, last.storedAt, last.event.status, last.event.askedAt)
    ensures j < |steps| - 1 && Covers(steps, j, |steps| - 1)
  {
    var n := |steps| - 1;
    var before, last := UnsavedAfter(steps[..n]), steps[n];
    var known :| known in Known(before, last.stored, last.storedAt)
                 && FollowedBy(last.event.status, last.event.askedAt, known);
    if known in before {
      MembersAreAnswers(steps[..n], known);
      j :| 0 <= j < n && known == Observed(steps[..n][j].event);
    } else {
      j :| 0 <= j < n && last.stored == Record(steps[j].event.status);
    }
    CompareIsDual(OriginOf(last.event.status), OriginOf(steps[j].event.status));
  }

  /** The answer recorded last is accounted for: it joined, or a known answer already follows it. */
  lemma {:induction false} NewestIsAccountedFor(steps: seq<Step>)
    requires |steps| > 0 && ReadsEarlierAnswers(steps)
    requires !Complete(steps[|steps| - 1].event.status)
    requires forall i | 0 <= i < |steps| - 1 && !Complete(steps[i].event.status) ::
               AccountedFor(steps, UnsavedAfter(steps), i)
    ensures AccountedFor(steps, UnsavedAfter(steps), |steps| - 1)
  {
    var n := |steps| - 1;
    var last, after := steps[n], UnsavedAfter(steps);
    if Stale(UnsavedAfter(steps[..n]), last.stored, last.storedAt, last.event.status, last.event.askedAt) {
      var j := StaleIsCovered(steps);
      if Complete(steps[j].event.status) { SettledIsAccountedFor(steps, after, j); }
      ChainGrows(steps, after, n, j);
    } else {
      assert Observed(last.event) == after[|after| - 1];
      SettledIsAccountedFor(steps, after, n);
    }
  }

  lemma {:induction false} PrefixReadsEarlierAnswers(steps: seq<Step>)
    requires |steps| > 0 && ReadsEarlierAnswers(steps)
    ensures ReadsEarlierAnswers(steps[..|steps| - 1])
  {
    var pre := steps[..|steps| - 1];
    forall k | 0 <= k < |pre| && !pre[k].stored.Absent?
      ensures exists j :: 0 <= j < k && pre[k].stored == Record(pre[j].event.status)
    {
      var j :| 0 <= j < k && steps[k].stored == Record(steps[j].event.status);
      assert pre[k].stored == Record(pre[j].event.status);
    }
  }

  /** Over any run of recorded answers, every answer that said "not saved" is still a member or is
      linked by a chain of covering answers to a current member or to a complete answer. */
  lemma {:induction false} NothingUnsavedIsLost(steps: seq<Step>, i: nat)
    requires ReadsEarlierAnswers(steps) && i < |steps| && !Complete(steps[i].event.status)
    ensures AccountedFor(steps, UnsavedAfter(steps), i)
    decreases |steps|, i
  {
    var n := |steps| - 1;
    PrefixReadsEarlierAnswers(steps);
    if i < n {
      NothingUnsavedIsLost(steps[..n], i);
      StaysAccountedFor(steps, i);
    } else {
      forall k: nat | k < n && !Complete(steps[k].event.status)
        ensures AccountedFor(steps, UnsavedAfter(steps), k)
      {
        NothingUnsavedIsLost(steps[..n], k);
        StaysAccountedFor(steps, k);
      }
      NewestIsAccountedFor(steps);
    }
  }

  /** An empty unsaved set means every "not saved" answer was answered for by a complete one. */
  lemma {:induction false} EmptyMeansAnsweredFor(steps: seq<Step>, i: nat)
    requires ReadsEarlierAnswers(steps) && i < |steps| && !Complete(steps[i].event.status)
    requires UnsavedAfter(steps) == []
    ensures exists path :: Chain(steps, path) && path[0] == i
                           && Complete(steps[path[|path| - 1]].event.status)
  {
    NothingUnsavedIsLost(steps, i);
  }

  // ---------------------------------------------------------------------------------------------
  // The members are an antichain
  // ---------------------------------------------------------------------------------------------

  /** No position orders two answers, or the order contradicts causality: the later one is
      positioned before the earlier one yet was asked for after that was recorded. */
  predicate IncomparableOrContradictory(later: Event, earlier: Event) {
    var order := Compare(OriginOf(later.status), OriginOf(earlier.status));
    order == Incomparable || (order == Before && AskedAfter(later.askedAt, Some(earlier.recordedAt)))
  }

  /** `tags` are indices of answers of the run. */
  ghost predicate InRun(steps: seq<Step>, tags: seq<nat>) {
    forall a | 0 <= a < |tags| :: tags[a] < |steps|
  }

  /** The members of `tags`, answers of the run by index, that an answer does not cover. */
  ghost function UncoveredTags(steps: seq<Step>, tags: seq<nat>, e: Event): (kept: seq<nat>)
    requires InRun(steps, tags)
    ensures InRun(steps, kept)
    ensures forall k :: k in kept <==>
                        k in tags && k < |steps| && !AnswerCovers(e.status, e.askedAt, steps[k].event.status, Some(steps[k].event.recordedAt))
  {
    if tags == [] then []
    else
      var rest := UncoveredTags(steps, tags[1..], e);
      if AnswerCovers(e.status, e.askedAt, steps[tags[0]].event.status, Some(steps[tags[0]].event.recordedAt)) then rest
      else [tags[0]] + rest
  }

  ghost predicate Increasing(tags: seq<nat>) {
    forall a, b | 0 <= a < b < |tags| :: tags[a] < tags[b]
  }

  ghost function ObservedAt(steps: seq<Step>, tags: seq<nat>): (observed: seq<Observation>)
    requires InRun(steps, tags)
    ensures |observed| == |tags|
    ensures forall a | 0 <= a < |tags| :: observed[a] == Observed(steps[tags[a]].event)
  {
    if tags == [] then [] else [Observed(steps[tags[0]].event)] + ObservedAt(steps, tags[1..])
  }

  lemma {:induction false} UncoveredIsTagged(steps: seq<Step>, tags: seq<nat>, e: Event)
    requires InRun(steps, tags)
    ensures Uncovered(ObservedAt(steps, tags), e.status, e.askedAt) == ObservedAt(steps, UncoveredTags(steps, tags, e))
  {
    if tags != [] {
      UncoveredIsTagged(steps, tags[1..], e);
      assert ObservedAt(steps, tags)[1..] == ObservedAt(steps, tags[1..]);
      var rest := UncoveredTags(steps, tags[1..], e);
      assert ([tags[0]] + rest)[1..] == rest;
    }
  }

  lemma {:induction false} UncoveredIsIncreasing(steps: seq<Step>, tags: seq<nat>, e: Event)
    requires InRun(steps, tags) && Increasing(tags)
    ensures Increasing(UncoveredTags(steps, tags, e))
  {
    if tags != [] {
      var rest := UncoveredTags(steps, tags[1..], e);
      UncoveredIsIncreasing(steps, tags[1..], e);
      forall b | 0 <= b < |rest| ensures tags[0] < rest[b] {
        assert rest[b] in rest;
        var c :| 0 <= c < |tags| - 1 && tags[1..][c] == rest[b];
        assert tags[c + 1] == rest[b];
      }
    }
  }

  ghost predicate NewestIsStale(steps: seq<Step>)
    requires |steps| > 0
  {
    var last := steps[|steps| - 1];
    Stale(UnsavedAfter(steps[..|steps| - 1]), last.stored, last.storedAt, last.event.status, last.event.askedAt)
  }

  /** The answers the members are, by index, in the order they joined. */
  ghost function MemberTags(steps: seq<Step>): (tags: seq<nat>)
    ensures InRun(steps, tags)
  {
    if steps == [] then []
    else
      var n := |steps| - 1;
      var tags, e := MemberTags(steps[..n]), steps[n].event;
      if NewestIsStale(steps) then tags
      else if Complete(e.status) then UncoveredTags(steps, tags, e)
      else UncoveredTags(steps, tags, e) + [n]
  }

  lemma {:induction false} TaggedJoin(steps: seq<Step>, kept: seq<nat>)
    requires |steps| > 0 && InRun(steps[..|steps| - 1], kept) && Increasing(kept)
    ensures InRun(steps, kept + [|steps| - 1]) && Increasing(kept + [|steps| - 1])
    ensures ObservedAt(steps, kept + [|steps| - 1]) == ObservedAt(steps, kept) + [Observed(steps[|steps| - 1].event)]
  {
  }

  lemma {:induction false} MembersAreTagged(steps: seq<Step>)
    ensures UnsavedAfter(steps) == ObservedAt(steps, MemberTags(steps))
    ensures Increasing(MemberTags(steps))
  {
    if steps != [] {
      var n := |steps| - 1;
      var tags, last := MemberTags(steps[..n]), steps[n];
      var before := UnsavedAfter(steps[..n]);
      MembersAreTagged(steps[..n]);
      assert before == ObservedAt(steps, tags);
      if !NewestIsStale(steps) {
        UncoveredIsTagged(steps, tags, last.event);
        UncoveredIsIncreasing(steps, tags, last.event);
        var kept := UncoveredTags(steps, tags, last.event);
        assert InRun(steps[..n], kept) by {
          forall b | 0 <= b < |kept| ensures kept[b] < n {
            assert kept[b] in kept;
            assert kept[b] in tags;
          }
        }
        TaggedJoin(steps, kept);
      }
    }
  }

  /** A member an answer does not cover, and against which it is not stale, does not order it. */
  lemma {:induction false} JoinsAntichain(e: Event, member: Event)
    requires !FollowedBy(e.status, e.askedAt, Observed(member))
    requires !AnswerCovers(e.status, e.askedAt, member.status, Some(member.recordedAt))
    ensures IncomparableOrContradictory(e, member)
  {
  }

  /** The newest answer, fresh, against a member that stays. */
  lemma {:induction false} NewestIsUnordered(steps: seq<Step>, tags: seq<nat>, i: nat)
    requires |steps| > 0 && InRun(steps[..|steps| - 1], tags)
    requires UnsavedAfter(steps[..|steps| - 1]) == ObservedAt(steps[..|steps| - 1], tags) && !NewestIsStale(steps)
    requires InRun(steps, tags) && i in UncoveredTags(steps, tags, steps[|steps| - 1].event)
    ensures i < |steps| - 1 && IncomparableOrContradictory(steps[|steps| - 1].event, steps[i].event)
  {
    var n := |steps| - 1;
    var before, last := ObservedAt(steps[..n], tags), steps[n];
    var a :| 0 <= a < |tags| && tags[a] == i;
    assert before[a] == Observed(steps[i].event);
    assert before[a] in Known(before, last.stored, last.storedAt);
    JoinsAntichain(last.event, steps[i].event);
  }

  lemma {:induction false} OlderMember(steps: seq<Step>, k: nat)
    requires k in MemberTags(steps) && k < |steps| - 1
    ensures k in MemberTags(steps[..|steps| - 1])
  {
  }

  lemma {:induction false} NewestMember(steps: seq<Step>, i: nat)
    requires |steps| > 0 && |steps| - 1 in MemberTags(steps) && i in MemberTags(steps) && i < |steps| - 1
    ensures IncomparableOrContradictory(steps[|steps| - 1].event, steps[i].event)
  {
    var n := |steps| - 1;
    var tags := MemberTags(steps[..n]);
    MembersAreTagged(steps[..n]);
    assert n !in tags && !NewestIsStale(steps);
    assert i in UncoveredTags(steps, tags, steps[n].event);
    NewestIsUnordered(steps, tags, i);
  }

  /** Along every run any two members are incomparable, apart from contradictory pairs. (That the
      members on record are the tagged answers, oldest first, is `MembersAreTagged`.) */
  lemma {:induction false} MembersAreAnAntichain(steps: seq<Step>, i: nat, j: nat)
    requires i in MemberTags(steps) && j in MemberTags(steps) && i < j < |steps|
    ensures IncomparableOrContradictory(steps[j].event, steps[i].event)
  {
    if j < |steps| - 1 {
      OlderMember(steps, i);
      OlderMember(steps, j);
      MembersAreAnAntichain(steps[..|steps| - 1], i, j);
    } else {
      NewestMember(steps, i);
    }
  }

  // ---------------------------------------------------------------------------------------------
  // The record the store keeps
  // ---------------------------------------------------------------------------------------------

  /** The latest status with when it was recorded, and the unsaved answers. */
  datatype Evidence = Evidence(last: Option<Observation>, unsaved: seq<Observation>)

  const NOTHING := Evidence(None, [])

  function LastStored(evidence: Evidence): Stored {
    if evidence.last.None? then Absent else Record(evidence.last.value.status)
  }

  function LastRecordedAt(evidence: Evidence): Option<int> {
    if evidence.last.None? then None else evidence.last.value.recordedAt
  }

  /** Whether the recording store takes the request as sent after the latest status was recorded:
      also when no instant is recorded. */
  predicate CausallyAfter(evidence: Evidence, askedAt: Option<int>) {
    LastRecordedAt(evidence).None? || AskedAfter(askedAt, LastRecordedAt(evidence))
  }

  function RecordStatus(evidence: Evidence, e: Event): Evidence {
    Evidence(
      if StatusSupersedes(LastStored(evidence), e.status, CausallyAfter(evidence, e.askedAt))
      then Some(Observed(e)) else evidence.last,
      NextUnsaved(evidence.unsaved, LastStored(evidence), LastRecordedAt(evidence), e.status, e.askedAt, e.recordedAt))
  }

  function RecordAll(events: seq<Event>): Evidence {
    if events == [] then NOTHING
    else RecordStatus(RecordAll(events[..|events| - 1]), events[|events| - 1])
  }

  /** Recording an answer with no position: it becomes the latest status when none is on record, when it
      was asked for after that one was recorded or no instant is known, or failing closed. */
  lemma {:induction false} UnplacedIsRecorded(evidence: Evidence, e: Event)
    requires e.status.origin == NoOrigin
    ensures RecordStatus(evidence, e).last
            == if evidence.last.None? then Some(Observation(e.status, Some(e.recordedAt)))
               else
                 var was := evidence.last.value;
                 if || was.recordedAt.None?
                    || (e.askedAt.Some? && was.recordedAt.value < e.askedAt.value)
                    || !e.status.complete || e.status.hasIncompleteReason
                    || (was.status.complete && !was.status.hasIncompleteReason)
                 then Some(Observation(e.status, Some(e.recordedAt))) else evidence.last
  {
  }

  /** The store's own run, as steps that each read the latest status `statusSupersedes` left. */
  function StepsOf(events: seq<Event>): seq<Step> {
    seq(|events|, i requires 0 <= i < |events| =>
      var evidence := RecordAll(events[..i]);
      Step(events[i], LastStored(evidence), LastRecordedAt(evidence)))
  }

  lemma {:induction false} LatestIsAnAnswer(events: seq<Event>) returns (j: nat)
    requires events != []
    ensures j < |events| && RecordAll(events).last == Some(Observed(events[j]))
  {
    j := |events| - 1;
    if j == 0 {
      assert RecordAll(events[..0]) == NOTHING;
    } else if RecordAll(events).last != Some(Observed(events[j])) {
      j := LatestIsAnAnswer(events[..|events| - 1]);
    }
  }

  /** Recording through the store is a run in the sense above: its unsaved answers are those of the
      run, and the latest status it read was always absent or an earlier answer. */
  lemma {:induction false} RecordingIsARun(events: seq<Event>)
    ensures RecordAll(events).unsaved == UnsavedAfter(StepsOf(events))
    ensures ReadsEarlierAnswers(StepsOf(events))
  {
    var steps := StepsOf(events);
    if events != [] {
      var n := |events| - 1;
      RecordingIsARun(events[..n]);
      assert forall i | 0 <= i < n :: events[..n][..i] == events[..i];
      assert steps[..n] == StepsOf(events[..n]);
    }
    forall i | 0 <= i < |steps| && !steps[i].stored.Absent?
      ensures exists j :: 0 <= j < i && steps[i].stored == Record(steps[j].event.status)
    {
      assert events[..i] != [];
      var j := LatestIsAnAnswer(events[..i]);
      assert steps[j].event == events[..i][j];
    }
  }

  /** The promise for the store: with nothing unsaved on record, every "not saved" answer it ever
      took was answered for, through covering answers, by a complete one. */
  lemma {:induction false} StoreLosesNothing(events: seq<Event>, i: nat)
    requires i < |events| && !Complete(events[i].status)
    ensures AccountedFor(StepsOf(events), RecordAll(events).unsaved, i)
    ensures RecordAll(events).unsaved == [] ==>
              exists path :: Chain(StepsOf(events), path) && path[0] == i
                             && Complete(events[path[|path| - 1]].status)
  {
    RecordingIsARun(events);
    var steps := StepsOf(events);
    NothingUnsavedIsLost(steps, i);
    if RecordAll(events).unsaved == [] {
      EmptyMeansAnsweredFor(steps, i);
      var path :| Chain(steps, path) && path[0] == i && Complete(steps[path[|path| - 1]].event.status);
      assert Complete(events[path[|path| - 1]].status);
    }
  }

  // ---------------------------------------------------------------------------------------------
  // Confluence: any delivery order, any repeats
  // ---------------------------------------------------------------------------------------------

  /** Two answers of one executor whose boots all have distinct positive generations, with one
      answer to a position, and no answer asked for after another was recorded yet positioned
      before it. */
  predicate OfOneExecutor(e: Event, f: Event) {
    var a, b := OriginOf(e.status), OriginOf(f.status);
    && a.Some? && b.Some? && a.value.bootGeneration > 0 && b.value.bootGeneration > 0
    && a.value.epoch == b.value.epoch && a.value.launch == b.value.launch
    && (a.value.bootId == b.value.bootId <==> a.value.bootGeneration == b.value.bootGeneration)
    && (a.value.bootId == b.value.bootId && a.value.observation == b.value.observation ==> e.status == f.status)
    && (e.askedAt.Some? && e.askedAt.value > f.recordedAt ==>
          || b.value.bootGeneration < a.value.bootGeneration
          || (b.value.bootGeneration == a.value.bootGeneration && b.value.observation <= a.value.observation))
  }

  ghost predicate OneExecutor(events: seq<Event>) {
    forall e, f | e in events && f in events :: OfOneExecutor(e, f)
  }

  /** `e` is positioned at or before `f`. */
  predicate AtOrBefore(e: Status, f: Status) {
    Compare(OriginOf(e), OriginOf(f)) in {Before, Same}
  }

  lemma {:induction false} PositionsAreTotal(e: Event, f: Event)
    requires OfOneExecutor(e, f)
    ensures Compare(OriginOf(e.status), OriginOf(f.status)) != Incomparable
    ensures Compare(OriginOf(e.status), OriginOf(f.status)) == Same ==> e.status == f.status
    ensures AtOrBefore(e.status, f.status) || Compare(OriginOf(e.status), OriginOf(f.status)) == After
    ensures Compare(OriginOf(e.status), OriginOf(f.status)) == After ==> AtOrBefore(f.status, e.status)
    ensures AskedAfter(e.askedAt, Some(f.recordedAt)) ==> Compare(OriginOf(e.status), OriginOf(f.status)) != Before
    ensures var a, b := OriginOf(e.status).value, OriginOf(f.status).value;
            AtOrBefore(e.status, f.status)
            <==> || a.bootGeneration < b.bootGeneration
                 || (a.bootGeneration == b.bootGeneration && a.observation <= b.observation)
  {
  }

  lemma {:induction false} AtOrBeforeIsTransitive(e: Event, f: Event, g: Event)
    requires OfOneExecutor(e, f) && OfOneExecutor(f, g) && OfOneExecutor(e, g)
    requires AtOrBefore(e.status, f.status) && AtOrBefore(f.status, g.status)
    ensures AtOrBefore(e.status, g.status)
  {
    PositionsAreTotal(e, f);
    PositionsAreTotal(f, g);
    if e.status != f.status && f.status != g.status {
      CompareIsTransitive(OriginOf(e.status).value, OriginOf(f.status).value, OriginOf(g.status).value);
    }
  }

  /** `top` is the highest-positioned of `events`. */
  ghost predicate Highest(events: seq<Event>, top: Event) {
    top in events && forall e | e in events :: AtOrBefore(e.status, top.status)
  }

  lemma {:induction false} HighestIsUnique(events: seq<Event>, s: Event, t: Event)
    requires OneExecutor(events) && Highest(events, s) && Highest(events, t)
    ensures s.status == t.status
  {
    assert OfOneExecutor(s, t) && OfOneExecutor(t, s);
    PositionsAreTotal(s, t);
    CompareIsDual(OriginOf(s.status), OriginOf(t.status));
  }

  /** The record of an executor whose highest answer is `top`: it is the latest status, and alone in
      the unsaved set when incomplete. */
  ghost predicate Holds(evidence: Evidence, events: seq<Event>, top: Event) {
    && evidence.last == Some(Observed(top))
    && if Complete(top.status) then evidence.unsaved == []
       else exists m :: m in events && m.status == top.status && evidence.unsaved == [Observed(m)]
  }

  /** One recording against a record that holds the highest answer so far. */
  lemma {:induction false} RecordStep(before: Evidence, events: seq<Event>, top: Event, e: Event)
    requires OneExecutor(events) && e in events && top in events && Holds(before, events, top)
    ensures match Compare(OriginOf(e.status), OriginOf(top.status))
            case Before => RecordStatus(before, e) == before
            case Same => e.status == top.status && Holds(RecordStatus(before, e), events, e)
            case After => Holds(RecordStatus(before, e), events, e)
            case Incomparable => false
  {
    var known := Known(before.unsaved, LastStored(before), LastRecordedAt(before));
    assert known[0] == Observed(top) && known[0] in known;
    assert OfOneExecutor(e, top);
    PositionsAreTotal(e, top);
    var order := Compare(OriginOf(e.status), OriginOf(top.status));
    if order == After {
      assert forall k | k in known :: k.status == top.status;
      assert forall k | k in known :: !FollowedBy(e.status, e.askedAt, k);
      var kept := Uncovered(before.unsaved, e.status, e.askedAt);
      if before.unsaved != [] { assert before.unsaved[1..] == []; }
      assert Uncovered([], e.status, e.askedAt) == [] && kept == [];
    } else {
      assert FollowedBy(e.status, e.askedAt, known[0]);
    }
  }

  lemma {:induction false} HighestGrows(events: seq<Event>, low: Event, top: Event)
    requires OneExecutor(events) && events != [] && top in events
    requires Highest(events[..|events| - 1], low) && AtOrBefore(low.status, top.status)
    requires AtOrBefore(events[|events| - 1].status, top.status)
    ensures Highest(events, top)
  {
    forall f | f in events ensures AtOrBefore(f.status, top.status) {
      if f != events[|events| - 1] {
        assert f in events[..|events| - 1];
        assert low in events && OfOneExecutor(f, low) && OfOneExecutor(low, top) && OfOneExecutor(f, top);
        AtOrBeforeIsTransitive(f, low, top);
      }
    }
  }

  lemma {:induction false} RecordHoldsHighest(events: seq<Event>) returns (top: Event)
    requires OneExecutor(events) && events != []
    ensures Highest(events, top) && Holds(RecordAll(events), events, top)
  {
    var n := |events| - 1;
    var e := events[n];
    assert e in events && OfOneExecutor(e, e);
    if n == 0 {
      top := e;
      assert RecordAll(events[..n]) == NOTHING;
      assert Uncovered([], e.status, e.askedAt) == [];
      PositionsAreTotal(e, e);
    } else {
      top := RecordHoldsHighest(events[..n]);
      assert OfOneExecutor(e, top) && OfOneExecutor(top, e);
      PositionsAreTotal(e, top);
      RecordStep(RecordAll(events[..n]), events, top, e);
      var oldTop := top;
      if Compare(OriginOf(e.status), OriginOf(top.status)) != Before { top := e; }
      HighestGrows(events, oldTop, top);
    }
  }

  /** After any delivery the record holds the highest-positioned answer: as the latest status, and
      alone in the unsaved set if it is incomplete, which is empty otherwise. No answer delivered is of
      a later boot, or made later in its boot. */
  lemma {:induction false} RecordHoldsTheHighest(events: seq<Event>) returns (top: Event)
    requires OneExecutor(events) && events != []
    ensures Highest(events, top) && Holds(RecordAll(events), events, top)
    ensures forall e | e in events ::
              var a, b := OriginOf(e.status).value, OriginOf(top.status).value;
              || a.bootGeneration < b.bootGeneration
              || (a.bootGeneration == b.bootGeneration && a.observation <= b.observation)
  {
    top := RecordHoldsHighest(events);
    forall e | e in events
      ensures var a, b := OriginOf(e.status).value, OriginOf(top.status).value;
              || a.bootGeneration < b.bootGeneration
              || (a.bootGeneration == b.bootGeneration && a.observation <= b.observation)
    {
      assert OfOneExecutor(e, top);
      PositionsAreTotal(e, top);
    }
  }

  ghost predicate HasAnswer(events: seq<Event>, status: Status) {
    exists e :: e in events && e.status == status
  }

  /** Two deliveries of the same answers, in any order and with any repeats, end in the same
      record: the same latest status and the same unsaved statuses. */
  lemma {:induction false} DeliveryOrderDoesNotMatter(one: seq<Event>, two: seq<Event>)
    requires OneExecutor(one) && OneExecutor(two) && one != [] && two != []
    requires forall e | e in one :: HasAnswer(two, e.status)
    requires forall f | f in two :: HasAnswer(one, f.status)
    ensures RecordAll(one).last.Some? && RecordAll(two).last.Some?
    ensures RecordAll(one).last.value.status == RecordAll(two).last.value.status
    ensures |RecordAll(one).unsaved| == |RecordAll(two).unsaved| <= 1
    ensures forall k | 0 <= k < |RecordAll(one).unsaved| ::
              RecordAll(one).unsaved[k].status == RecordAll(two).unsaved[k].status
  {
    var s := RecordHoldsHighest(one);
    var t := RecordHoldsHighest(two);
    assert HasAnswer(one, t.status);
    var u :| u in one && u.status == t.status;
    assert Highest(one, u) by {
      forall e | e in one ensures AtOrBefore(e.status, u.status) {
        assert HasAnswer(two, e.status);
        var f :| f in two && f.status == e.status;
        assert AtOrBefore(f.status, t.status);
      }
    }
    HighestIsUnique(one, s, u);
  }
}
