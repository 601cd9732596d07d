/** What the script leaves in the files, wherever it stops: the login at each path, beside the one the
    answer reports there. */
module HomeFiles {
  import opened Wrappers
  import opened Placements
  import opened HomeScript
  import opened HomeProtocol
  import opened HomeSafety
  import opened HomeSettle

  // ---------------------------------------------------------------------------------------------
  // Effects landing one after another
  // ---------------------------------------------------------------------------------------------

  ghost predicate Touches(effects: seq<Effect>, p: Path) {
    exists e :: e in effects && e.path == p
  }

  /** Where the effects at a path agree, the path ends as they leave it. */
  lemma {:induction false} LandingAt(files: Files, effects: seq<Effect>, e: Effect)
    requires forall x | x in effects && x.path == e.path :: x == e
    ensures FileAt(Landing(files, effects), e.path)
            == if Touches(effects, e.path) then Left(FileAt(files, e.path), e) else FileAt(files, e.path)
  {
    if effects != [] {
      var before, last := effects[..|effects| - 1], effects[|effects| - 1];
      assert effects == before + [last];
      assert Touches(effects, e.path) <==> Touches(before, e.path) || last.path == e.path;
      LandingAt(files, before, e);
    }
  }

  /** Where none lands, it stays as it is. */
  lemma {:induction false} LandingElsewhere(files: Files, effects: seq<Effect>, p: Path)
    requires forall e | e in effects :: e.path != p
    ensures FileAt(Landing(files, effects), p) == FileAt(files, p)
  {
    LandingAt(files, effects, Drop(p));
  }

  /** Running steps, each of which does what its effect says, is the landing of their effects. */
  lemma {:induction false} RunIsLanding(files: Files, steps: seq<ScriptStep>, kept: set<Provider>)
    requires forall i | 0 <= i < |steps| :: DoesItsEffect(Landing(files, EffectsOf(steps[..i], kept)), steps[i], kept)
    ensures RunSteps(files, steps, kept) == Landing(files, EffectsOf(steps, kept))
  {
    if steps != [] {
      var n := |steps| - 1;
      forall i | 0 <= i < n ensures DoesItsEffect(Landing(files, EffectsOf(steps[..n][..i], kept)), steps[..n][i], kept) {
        assert steps[..n][..i] == steps[..i];
      }
      RunIsLanding(files, steps[..n], kept);
      assert EffectsOf(steps, kept)[..n] == EffectsOf(steps[..n], kept);
    }
  }

  predicate DoesItsEffect(files: Files, s: ScriptStep, kept: set<Provider>) {
    RunStep(files, s, kept) == Lands(files, EffectOf(s, kept))
  }

  /** Harmless effects keep a home sound, however many land. */
  lemma {:induction false} LandingSound(rows: seq<Row>, files: Files, doubt: set<Effect>, effects: seq<Effect>)
    requires Sound(rows, files, doubt) && forall e | e in effects :: Harmless(rows, e)
    ensures Sound(rows, Landing(files, effects), doubt)
  {
    if effects != [] {
      var before, last := effects[..|effects| - 1], effects[|effects| - 1];
      assert effects == before + [last];
      LandingSound(rows, files, doubt, before);
      assert Harmless(rows, last);
    }
  }

  lemma {:induction false} EffectsAre(steps: seq<ScriptStep>, kept: set<Provider>, e: Effect)
    ensures e in EffectsOf(steps, kept) <==> exists s :: s in steps && e == EffectOf(s, kept)
  {
    if s :| s in steps && e == EffectOf(s, kept) {
      var i :| 0 <= i < |steps| && steps[i] == s;
      assert EffectsOf(steps, kept)[i] == e;
    }
    if e in EffectsOf(steps, kept) {
      var i :| 0 <= i < |steps| && EffectsOf(steps, kept)[i] == e;
      assert steps[i] in steps;
    }
  }

  // ---------------------------------------------------------------------------------------------
  // The steps of one put do not meet
  // ---------------------------------------------------------------------------------------------

  lemma {:induction false} RestDoesNotMeet(base: seq<Row>, put: Put, kept: set<Provider>, s: ScriptStep, t: ScriptStep)
    requires PutOk(base, put) && WellKept(base) && IsRest(put, s) && IsRest(put, t)
    requires EffectOf(s, kept).path == EffectOf(t, kept).path
    ensures EffectOf(s, kept) == EffectOf(t, kept)
  {
    if s.WriteLogin? && t.WriteLogin? {
      WritesDoNotMeet(base, put, s.write, t.write);
    } else if s.WriteLogin? {
      WriteIsNotDropped(base, put, s.write);
    } else if t.WriteLogin? {
      WriteIsNotDropped(base, put, t.write);
    }
  }

  /** A kept key is in its file, or was taken away by the person; nothing else is written there. */
  lemma {:induction false} KeptKeyFile(h: Home, k: KeptKey)
    requires RunningOk(h) && k in h.phase.put.keptKeys
    ensures Shows(FileAt(h.files, KeyFile(k.id)), Wanted(k.selection))
    ensures forall w | w in h.phase.put.writes :: w.path != KeyFile(k.id)
    ensures forall j | j in h.phase.put.keptKeys && j.id == k.id :: Wanted(j.selection) == Wanted(k.selection)
  {
    var base, put := h.phase.base, h.phase.put;
    var b :| b in base && b.id == k.id && b.state == Ready && IsKeyRow(b) && ContentOf(b) == Wanted(k.selection);
    assert Stands(base, b) && b.path == KeyFile(k.id);
    forall w | w in put.writes ensures w.path != KeyFile(k.id) {
      assert WriteOk(base, put, w);
    }
  }

  // ---------------------------------------------------------------------------------------------
  // The files after the first steps
  // ---------------------------------------------------------------------------------------------

  ghost predicate Firsts(put: Put, steps: seq<ScriptStep>) {
    forall s | s in steps :: IsFirst(put, s)
  }

  ghost predicate Rests(put: Put, steps: seq<ScriptStep>) {
    forall s | s in steps :: IsRest(put, s)
  }

  predicate WrittenBy(steps: seq<ScriptStep>, w: HomeWrite) {
    WriteLogin(w) in steps
  }

  lemma {:induction false} FirstEffect(h: Home, steps: seq<ScriptStep>, kept: set<Provider>, e: Effect) returns (s: ScriptStep)
    requires h.phase.Running? && Firsts(h.phase.put, steps) && e in EffectsOf(steps, kept)
    ensures s in steps && IsFirst(h.phase.put, s) && e == EffectOf(s, kept)
  {
    EffectsAre(steps, kept, e);
    s :| s in steps && e == EffectOf(s, kept);
  }

  /** After some of the first steps, the file of a login they wrote holds it. */
  lemma {:induction false} FirstWritten(h: Home, steps: seq<ScriptStep>, kept: set<Provider>, w: HomeWrite)
    requires RunningOk(h) && Firsts(h.phase.put, steps) && WrittenBy(steps, w)
    ensures FileAt(Landing(h.files, EffectsOf(steps, kept)), w.path) == Some(There(Wanted(w.selection)))
  {
    var effects, e := EffectsOf(steps, kept), Store(w.path, Wanted(w.selection));
    assert IsFirst(h.phase.put, WriteLogin(w));
    forall x | x in effects && x.path == w.path ensures x == e {
      var s := FirstEffect(h, steps, kept, x);
      if s.WriteLogin? { WritesDoNotMeet(h.phase.base, h.phase.put, s.write, w); } else { KeptKeyFile(h, s.kept); }
    }
    EffectsAre(steps, kept, EffectOf(WriteLogin(w), kept));
    LandingAt(h.files, effects, e);
  }

  /** A kept key's file stays as it is, or the key is there again. */
  lemma {:induction false} FirstRestored(h: Home, steps: seq<ScriptStep>, kept: set<Provider>, k: KeptKey)
    requires RunningOk(h) && Firsts(h.phase.put, steps) && k in h.phase.put.keptKeys
    ensures var f := FileAt(Landing(h.files, EffectsOf(steps, kept)), KeyFile(k.id));
            f == Some(There(Wanted(k.selection))) || (RestoreKey(k) !in steps && f == FileAt(h.files, KeyFile(k.id)))
  {
    var effects, e := EffectsOf(steps, kept), Store(KeyFile(k.id), Wanted(k.selection));
    KeptKeyFile(h, k);
    forall x | x in effects && x.path == e.path ensures x == e {
      var s := FirstEffect(h, steps, kept, x);
    }
    EffectsAre(steps, kept, e);
    assert RestoreKey(k) in steps ==> EffectOf(RestoreKey(k), kept) in effects;
    LandingAt(h.files, effects, e);
  }

  ghost predicate OrRestored(put: Put, was: Option<File>, p: Path, f: Option<File>) {
    f == was || (was == Some(Lost) && RestoredAs(put, p, f))
  }

  /** Any other path is as it was, unless it is a kept key's. */
  lemma {:induction false} FirstUnwritten(h: Home, steps: seq<ScriptStep>, kept: set<Provider>, p: Path)
    requires RunningOk(h) && Firsts(h.phase.put, steps)
    requires forall w | WrittenBy(steps, w) :: w.path != p
    ensures OrRestored(h.phase.put, FileAt(h.files, p), p, FileAt(Landing(h.files, EffectsOf(steps, kept)), p))
  {
    if k :| k in h.phase.put.keptKeys && p == KeyFile(k.id) {
      KeptKeyFile(h, k);
      FirstRestored(h, steps, kept, k);
    } else {
      forall e | e in EffectsOf(steps, kept) ensures e.path != p {
        var s := FirstEffect(h, steps, kept, e);
        assert s.WriteLogin? ==> WrittenBy(steps, s.write);
      }
      LandingElsewhere(h.files, EffectsOf(steps, kept), p);
    }
  }

  /** The first steps do what their effects say: a kept key is only ever missing or right. */
  lemma {:induction false} FirstRuns(h: Home, steps: seq<ScriptStep>, kept: set<Provider>)
    requires RunningOk(h) && Firsts(h.phase.put, steps)
    ensures RunSteps(h.files, steps, kept) == Landing(h.files, EffectsOf(steps, kept))
  {
    forall i | 0 <= i < |steps| ensures DoesItsEffect(Landing(h.files, EffectsOf(steps[..i], kept)), steps[i], kept) {
      assert steps[i] in steps && IsFirst(h.phase.put, steps[i]);
      if steps[i].RestoreKey? {
        KeptKeyFile(h, steps[i].kept);
        FirstRestored(h, steps[..i], kept, steps[i].kept);
        RestoresRight(Landing(h.files, EffectsOf(steps[..i], kept)), steps[i].kept, kept);
      }
    }
    RunIsLanding(h.files, steps, kept);
  }

  lemma {:induction false} RestoresRight(files: Files, k: KeptKey, kept: set<Provider>)
    requires Shows(FileAt(files, KeyFile(k.id)), Wanted(k.selection))
    ensures DoesItsEffect(files, RestoreKey(k), kept)
  {
    assert Held(files, KeyFile(k.id)).Some? ==> files[KeyFile(k.id) := There(Wanted(k.selection))] == files;
  }

  /** All the first steps leave the files as a refusal at a merged login reports them. */
  lemma {:induction false} FirstAsReported(h: Home, kept: set<Provider>, p: Path)
    requires RunningOk(h)
    ensures ReportedAs(h.files, h.phase.put, Refused(NotMerged(h.phase.put.writes)), p,
                       FileAt(Landing(h.files, EffectsOf(FirstSteps(h.phase.put), kept)), p))
  {
    var put, steps := h.phase.put, FirstSteps(h.phase.put);
    var at := LandedAt(put.writes, NotMerged(put.writes), p);
    if at.Some? {
      NotMergedExactly(put.writes, at.value);
      FirstWritten(h, steps, kept, at.value);
    } else {
      forall w | WrittenBy(steps, w) ensures w.path != p {
        assert IsFirst(put, WriteLogin(w));
        NotMergedExactly(put.writes, w);
      }
      FirstUnwritten(h, steps, kept, p);
    }
  }

  lemma {:induction false} NotMergedExactly(writes: seq<HomeWrite>, w: HomeWrite)
    requires w in writes
    ensures w.selection.provider in NotMerged(writes) <==> !IsMerged(w.selection.provider)
  {
  }

  // ---------------------------------------------------------------------------------------------
  // The files after the rest
  // ---------------------------------------------------------------------------------------------

  /** A later step leaves its path as it says. */
  lemma {:induction false} RestWritten(h: Home, files: Files, steps: seq<ScriptStep>, kept: set<Provider>, s: ScriptStep)
    requires RunningOk(h) && Rests(h.phase.put, steps) && s in steps
    ensures var e := EffectOf(s, kept); FileAt(Landing(files, EffectsOf(steps, kept)), e.path) == Left(FileAt(files, e.path), e)
  {
    var effects, last := EffectsOf(steps, kept), EffectOf(s, kept);
    forall e | e in effects && e.path == last.path ensures e == last {
      EffectsAre(steps, kept, e);
      var t :| t in steps && e == EffectOf(t, kept);
      RestDoesNotMeet(h.phase.base, h.phase.put, kept, s, t);
    }
    EffectsAre(steps, kept, last);
    LandingAt(files, effects, last);
  }

  ghost predicate NoneAt(steps: seq<ScriptStep>, kept: set<Provider>, p: Path) {
    forall s | s in steps :: EffectOf(s, kept).path != p
  }

  lemma {:induction false} RestUnwritten(files: Files, steps: seq<ScriptStep>, kept: set<Provider>, p: Path)
    requires NoneAt(steps, kept, p)
    ensures FileAt(Landing(files, EffectsOf(steps, kept)), p) == FileAt(files, p)
  {
    forall e | e in EffectsOf(steps, kept) ensures e.path != p { EffectsAre(steps, kept, e); }
    LandingElsewhere(files, EffectsOf(steps, kept), p);
  }

  /** What one step leaves of a path where no Core login was to be kept. */
  lemma {:induction false} KeptStaysAway(h: Home, files: Files, steps: seq<ScriptStep>, kept: set<Provider>, w: HomeWrite)
    requires RunningOk(h) && Rests(h.phase.put, steps) && IsRest(h.phase.put, WriteLogin(w)) && w.selection.provider in kept
    requires Held(files, w.path).None?
    ensures Held(Landing(files, EffectsOf(steps, kept)), w.path).None?
  {
    if WriteLogin(w) in steps {
      RestWritten(h, files, steps, kept, WriteLogin(w));
    } else {
      forall s | s in steps ensures EffectOf(s, kept).path == w.path ==> EffectOf(s, kept) == Drop(w.path) {
        if EffectOf(s, kept).path == w.path { RestDoesNotMeet(h.phase.base, h.phase.put, kept, WriteLogin(w), s); }
      }
      forall e | e in EffectsOf(steps, kept) && e.path == w.path ensures e == Drop(w.path) { EffectsAre(steps, kept, e); }
      LandingAt(files, EffectsOf(steps, kept), Drop(w.path));
    }
  }

  /** The later steps do what their effects say: a login is kept only where Core's is not. */
  lemma {:induction false} RestRuns(h: Home, files: Files, steps: seq<ScriptStep>, kept: set<Provider>)
    requires RunningOk(h) && Rests(h.phase.put, steps) && KeptOk(files, h.phase.put, kept)
    ensures RunSteps(files, steps, kept) == Landing(files, EffectsOf(steps, kept))
  {
    forall i | 0 <= i < |steps| ensures DoesItsEffect(Landing(files, EffectsOf(steps[..i], kept)), steps[i], kept) {
      assert steps[i] in steps && IsRest(h.phase.put, steps[i]);
      if steps[i].WriteLogin? && steps[i].write.selection.provider in kept {
        KeptStaysAway(h, files, steps[..i], kept, steps[i].write);
      }
    }
    RunIsLanding(files, steps, kept);
  }

  /** The first steps write no merged login. */
  lemma {:induction false} FirstKeepsKept(h: Home, kept: set<Provider>)
    requires RunningOk(h) && KeptOk(h.files, h.phase.put, kept)
    ensures KeptOk(Landing(h.files, EffectsOf(FirstSteps(h.phase.put), kept)), h.phase.put, kept)
  {
    var put, steps := h.phase.put, FirstSteps(h.phase.put);
    forall w | w in put.writes && IsMerged(w.selection.provider) && w.selection.provider in kept
      ensures Held(Landing(h.files, EffectsOf(steps, kept)), w.path).None?
    {
      assert Held(h.files, w.path).None?;
      forall v | WrittenBy(steps, v) ensures v.path != w.path {
        assert IsFirst(put, WriteLogin(v));
        if v.path == w.path { WritesDoNotMeet(h.phase.base, put, v, w); }
      }
      FirstUnwritten(h, steps, kept, w.path);
      forall k | k in put.keptKeys ensures w.path != KeyFile(k.id) { KeptKeyFile(h, k); }
    }
  }

  lemma {:induction false} StepsAreLandings(h: Home, n: nat, kept: set<Provider>)
    requires RunningOk(h) && KeptOk(h.files, h.phase.put, kept) && n <= |RestSteps(h.phase.put)|
    ensures AfterSteps(h.files, h.phase.put, n, kept)
            == Landing(Landing(h.files, EffectsOf(FirstSteps(h.phase.put), kept)), EffectsOf(RestSteps(h.phase.put)[..n], kept))
  {
    var put := h.phase.put;
    FirstRuns(h, FirstSteps(put), kept);
    FirstKeepsKept(h, kept);
    RestRuns(h, Landing(h.files, EffectsOf(FirstSteps(put), kept)), RestSteps(put)[..n], kept);
  }

  // ---------------------------------------------------------------------------------------------
  // What a finished script's answer reports
  // ---------------------------------------------------------------------------------------------

  lemma {:induction false} FinishedStep(h: Home, kept: set<Provider>, s: ScriptStep, was: Option<File>)
    requires RunningOk(h) && IsRest(h.phase.put, s)
    ensures ReportedAs(h.files, h.phase.put, DoneOf(h.phase.put, kept), EffectOf(s, kept).path, Left(was, EffectOf(s, kept)))
  {
    var base, put := h.phase.base, h.phase.put;
    if s.WriteLogin? {
      var w := s.write;
      WriteIsNotDropped(base, put, w);
      var at := LandedAt(put.writes, DoneOf(put, kept).written, w.path);
      if at.Some? { WritesDoNotMeet(base, put, w, at.value); }
      assert w.selection.provider in DoneOf(put, kept).written <==> w.selection.provider !in kept;
    }
  }

  /** Where no later step is, a finished script reports what its first steps did. */
  lemma {:induction false} FinishedElsewhere(h: Home, kept: set<Provider>, p: Path, f: Option<File>)
    requires RunningOk(h) && (forall q | q in kept :: IsMerged(q)) && NoneAt(RestSteps(h.phase.put), kept, p)
    requires ReportedAs(h.files, h.phase.put, Refused(NotMerged(h.phase.put.writes)), p, f)
    ensures ReportedAs(h.files, h.phase.put, DoneOf(h.phase.put, kept), p, f)
  {
    var put := h.phase.put;
    NothingLaterAt(put, kept, p);
    var at, done := LandedAt(put.writes, NotMerged(put.writes), p), LandedAt(put.writes, DoneOf(put, kept).written, p);
    if at.Some? && done.Some? { WritesDoNotMeet(h.phase.base, put, at.value, done.value); }
    assert forall w | w in put.writes && w.path == p ::
        w.selection.provider in NotMerged(put.writes) && w.selection.provider in DoneOf(put, kept).written;
  }

  lemma {:induction false} NothingLaterAt(put: Put, kept: set<Provider>, p: Path)
    requires NoneAt(RestSteps(put), kept, p)
    ensures !DropsPath(put, p) && forall w | w in put.writes && w.path == p :: !IsMerged(w.selection.provider)
  {
    match p {
      case LoginFile(provider) => assert RemoveLogin(provider) in RestSteps(put) <==> provider in put.removes;
      case KeyFile(id) => assert RemoveKey(id) in RestSteps(put) <==> id in put.removedKeys;
    }
    forall w | w in put.writes && IsMerged(w.selection.provider) ensures w.path != p {
      assert WriteLogin(w) in RestSteps(put);
    }
  }

  /** A finished script leaves the files as its answer reports them. */
  lemma {:induction false} FinishedAsReported(h: Home, kept: set<Provider>)
    requires RunningOk(h) && (forall p | p in kept :: IsMerged(p)) && KeptOk(h.files, h.phase.put, kept)
    ensures Reported(h.files, h.phase.put, DoneOf(h.phase.put, kept), AfterSteps(h.files, h.phase.put, |RestSteps(h.phase.put)|, kept))
  {
    var put, steps := h.phase.put, RestSteps(h.phase.put);
    var files := Landing(h.files, EffectsOf(FirstSteps(put), kept));
    assert steps[..|steps|] == steps;
    StepsAreLandings(h, |steps|, kept);
    forall p ensures ReportedAs(h.files, put, DoneOf(put, kept), p, FileAt(Landing(files, EffectsOf(steps, kept)), p)) {
      if s :| s in steps && EffectOf(s, kept).path == p {
        FinishedStep(h, kept, s, FileAt(files, p));
        RestWritten(h, files, steps, kept, s);
      } else {
        FirstAsReported(h, kept, p);
        FinishedElsewhere(h, kept, p, FileAt(files, p));
        RestUnwritten(files, steps, kept, p);
      }
    }
  }

  lemma {:induction false} NothingLaterAtKey(h: Home, steps: seq<ScriptStep>, kept: set<Provider>, k: KeptKey)
    requires RunningOk(h) && Rests(h.phase.put, steps) && k in h.phase.put.keptKeys && k.id !in h.phase.put.removedKeys
    ensures NoneAt(steps, kept, KeyFile(k.id))
  {
    KeptKeyFile(h, k);
    forall s | s in steps ensures EffectOf(s, kept).path != KeyFile(k.id) { assert IsRest(h.phase.put, s); }
  }

  /** However far a script came with its later steps, each kept key it does not remove is in its file. */
  lemma {:induction false} KeptKeysAreRestored(h: Home, n: nat, kept: set<Provider>, k: KeptKey)
    requires RunningOk(h) && KeptOk(h.files, h.phase.put, kept) && n <= |RestSteps(h.phase.put)|
    requires k in h.phase.put.keptKeys && k.id !in h.phase.put.removedKeys
    ensures Held(AfterSteps(h.files, h.phase.put, n, kept), KeyFile(k.id)) == Some(Wanted(k.selection))
  {
    var put, rest := h.phase.put, RestSteps(h.phase.put)[..n];
    StepsAreLandings(h, n, kept);
    FirstRestored(h, FirstSteps(put), kept, k);
    assert RestoreKey(k) in FirstSteps(put);
    NothingLaterAtKey(h, rest, kept, k);
    RestUnwritten(Landing(h.files, EffectsOf(FirstSteps(put), kept)), rest, kept, KeyFile(k.id));
  }

  // ---------------------------------------------------------------------------------------------
  // What a refusal reports, and what it does not
  // ---------------------------------------------------------------------------------------------

  ghost predicate UnreportedAt(put: Put, stop: Stop, p: Path) {
    exists e :: Unreported(put, stop, e) && e.path == p
  }

  /** Where an effect goes unreported, a refused script leaves its path as that effect does. */
  lemma {:induction false} StoppedUnreported(h: Home, stop: Stop, e: Effect)
    requires RunningOk(h) && StopOk(h.files, h.phase.put, stop) && Unreported(h.phase.put, stop, e)
    ensures FileAt(AfterStop(h.files, h.phase.put, stop), e.path) == Left(FileAt(h.files, e.path), e)
  {
    var s :| s in StepsBefore(h.phase.put, stop) && UnreportedStep(s, stop) && e == EffectOf(s, KeptBy(stop));
    match stop
    case AtKey(n, made) => KeyUnreported(h, stop, s);
    case AtMerged(n, kept, code) => MergedUnreported(h, stop, s);
  }

  lemma {:induction false} KeyUnreported(h: Home, stop: Stop, s: ScriptStep)
    requires RunningOk(h) && StopOk(h.files, h.phase.put, stop) && stop.AtKey? && s in FirstSteps(h.phase.put)[..stop.n]
    requires UnreportedStep(s, stop)
    ensures FileAt(AfterStop(h.files, h.phase.put, stop), s.write.path) == Some(There(Wanted(s.write.selection)))
  {
    var steps := FirstSteps(h.phase.put)[..stop.n];
    FirstRuns(h, steps, {});
    FirstWritten(h, steps, {}, s.write);
  }

  lemma {:induction false} MergedUnreported(h: Home, stop: Stop, s: ScriptStep)
    requires RunningOk(h) && StopOk(h.files, h.phase.put, stop) && stop.AtMerged? && s in RestSteps(h.phase.put)[..stop.n]
    ensures var e := EffectOf(s, stop.kept);
            FileAt(AfterStop(h.files, h.phase.put, stop), e.path) == Left(FileAt(h.files, e.path), e)
  {
    var put, e, rest := h.phase.put, EffectOf(s, stop.kept), RestSteps(h.phase.put)[..stop.n];
    var files := Landing(h.files, EffectsOf(FirstSteps(put), stop.kept));
    StepsAreLandings(h, stop.n, stop.kept);
    RestWritten(h, files, rest, stop.kept, s);
    if e.Drop? { FirstLeaves(h, stop, s); }
  }

  /** The first steps leave alone what a refused script removed, a removed key coming last of all. */
  lemma {:induction false} FirstLeaves(h: Home, stop: Stop, s: ScriptStep)
    requires RunningOk(h) && StopOk(h.files, h.phase.put, stop) && stop.AtMerged? && s in RestSteps(h.phase.put)[..stop.n]
    ensures var p := EffectOf(s, stop.kept).path;
            FileAt(Landing(h.files, EffectsOf(FirstSteps(h.phase.put), stop.kept)), p) == FileAt(h.files, p)
  {
    var put, p := h.phase.put, EffectOf(s, stop.kept).path;
    NoKeyRemovedBefore(put, stop, s);
    assert IsRest(put, s);
    forall w | WrittenBy(FirstSteps(put), w) ensures w.path != p {
      assert IsFirst(put, WriteLogin(w));
      WriteIsNotDropped(h.phase.base, put, w);
      if s.WriteLogin? && w.path == p { WritesDoNotMeet(h.phase.base, put, s.write, w); }
    }
    FirstUnwritten(h, FirstSteps(put), stop.kept, p);
    forall k | k in put.keptKeys ensures p != KeyFile(k.id) { KeptKeyFile(h, k); }
  }

  /** A merged login is refused before any key is removed. */
  lemma {:induction false} NoKeyRemovedBefore(put: Put, stop: Stop, s: ScriptStep)
    requires stop.AtMerged? && stop.n < |RestSteps(put)| && MergedMayRefuse(RestSteps(put)[stop.n], stop.code)
    requires s in RestSteps(put)[..stop.n]
    ensures !s.RemoveKey?
  {
    var merges, removes, keys := WriteSteps(put.writes, Merged), RemoveLoginSteps(put.removes), RemoveKeySteps(put.removedKeys);
    assert RestSteps(put) == merges + removes + keys;
    var i :| 0 <= i < stop.n && RestSteps(put)[..stop.n][i] == s;
    if stop.n >= |merges| + |removes| {
      assert RestSteps(put)[stop.n] == keys[stop.n - |merges| - |removes|];
      assert RestSteps(put)[stop.n] in keys;
    } else {
      assert i < |merges| ==> s == merges[i] && s in merges;
      assert i >= |merges| ==> s == removes[i - |merges|] && s in removes;
    }
  }

  /** Everywhere else it leaves the files as the refusal reports them. */
  lemma {:induction false} StoppedReported(h: Home, stop: Stop, p: Path)
    requires RunningOk(h) && StopOk(h.files, h.phase.put, stop) && !UnreportedAt(h.phase.put, stop, p)
    ensures ReportedAs(h.files, h.phase.put, RefusalOf(h.phase.put, stop), p, FileAt(AfterStop(h.files, h.phase.put, stop), p))
  {
    match stop
    case Early(_) => NothingReported(h.files, h.phase.put, stop, p, FileAt(h.files, p));
    case AtKey(n, made) => StoppedAtKey(h, stop, p);
    case AtMerged(n, kept, code) => StoppedAtMerged(h, stop, p);
  }

  lemma {:induction false} StoppedAtMerged(h: Home, stop: Stop, p: Path)
    requires RunningOk(h) && StopOk(h.files, h.phase.put, stop) && stop.AtMerged? && !UnreportedAt(h.phase.put, stop, p)
    ensures ReportedAs(h.files, h.phase.put, RefusalOf(h.phase.put, stop), p, FileAt(AfterStop(h.files, h.phase.put, stop), p))
  {
    var put, rest := h.phase.put, RestSteps(h.phase.put)[..stop.n];
    StepsAreLandings(h, stop.n, stop.kept);
    NothingDoneAt(put, stop, p);
    FirstAsReported(h, stop.kept, p);
    RestUnwritten(Landing(h.files, EffectsOf(FirstSteps(put), stop.kept)), rest, stop.kept, p);
    MergedReports(h.files, put, stop);
  }

  lemma {:induction false} MergedReports(files: Files, put: Put, stop: Stop)
    requires StopOk(files, put, stop) && stop.AtMerged?
    ensures RefusalOf(put, stop) == Refused(NotMerged(put.writes))
  {
  }

  /** A refusal that is not about a merged login reports no write. */
  lemma {:induction false} NothingReported(files: Files, put: Put, stop: Stop, p: Path, f: Option<File>)
    requires StopOk(files, put, stop) && !stop.AtMerged? && OrRestored(put, FileAt(files, p), p, f)
    ensures RefusalOf(put, stop) == Refused({})
    ensures ReportedAs(files, put, RefusalOf(put, stop), p, f)
  {
  }

  lemma {:induction false} NothingDoneAt(put: Put, stop: Stop, p: Path)
    requires stop.AtMerged? && stop.n <= |RestSteps(put)| && !UnreportedAt(put, stop, p)
    ensures NoneAt(RestSteps(put)[..stop.n], stop.kept, p)
  {
    forall s | s in RestSteps(put)[..stop.n] ensures EffectOf(s, stop.kept).path != p {
      assert UnreportedStep(s, stop) && Unreported(put, stop, EffectOf(s, stop.kept));
    }
  }

  lemma {:induction false} StoppedAtKey(h: Home, stop: Stop, p: Path)
    requires RunningOk(h) && StopOk(h.files, h.phase.put, stop) && stop.AtKey? && !UnreportedAt(h.phase.put, stop, p)
    ensures ReportedAs(h.files, h.phase.put, RefusalOf(h.phase.put, stop), p, FileAt(AfterStop(h.files, h.phase.put, stop), p))
  {
    var put, steps := h.phase.put, FirstSteps(h.phase.put)[..stop.n];
    FirstRuns(h, steps, {});
    if p !in stop.made {
      forall w | WrittenBy(steps, w) ensures w.path != p {
        if w.path == p { assert UnreportedStep(WriteLogin(w), stop) && Unreported(put, stop, EffectOf(WriteLogin(w), {})); }
      }
      FirstUnwritten(h, steps, {}, p);
    }
    NothingReported(h.files, put, stop, p, FileAt(AfterStop(h.files, put, stop), p));
  }

  // ---------------------------------------------------------------------------------------------
  // A put answered but never settled
  // ---------------------------------------------------------------------------------------------

  lemma {:induction false} StepIsEffect(base: seq<Row>, put: Put, s: ScriptStep, kept: set<Provider>)
    requires PutOk(base, put) && (IsFirst(put, s) || IsRest(put, s))
    ensures IsEffect(put, EffectOf(s, kept))
  {
  }

  lemma {:induction false} StepsHarmless(h: Home, steps: seq<ScriptStep>, kept: set<Provider>)
    requires RunningOk(h) && forall s | s in steps :: IsFirst(h.phase.put, s) || IsRest(h.phase.put, s)
    ensures forall e | e in EffectsOf(steps, kept) :: Harmless(h.rows, e)
  {
    var base, put := h.phase.base, h.phase.put;
    forall e | e in EffectsOf(steps, kept) ensures Harmless(h.rows, e) {
      EffectsAre(steps, kept, e);
      var s :| s in steps && e == EffectOf(s, kept);
      StepIsEffect(base, put, s, kept);
      OwnEffectHarmless(base, put, h.phase.archived, h.rows, e);
    }
  }

  lemma {:induction false} RunningSound(h: Home)
    requires RunningOk(h)
    ensures Sound(h.rows, h.files, h.doubt)
  {
    RunningKept(h);
    RunningMatches(h);
    forall e | e in h.doubt ensures Harmless(h.rows, e) {
      assert Harmless(h.phase.base, e);
      OldDoubtHarmless(h.phase.base, h.phase.put, h.phase.archived, h.rows, e);
    }
  }

  lemma {:induction false} StepsSound(h: Home, n: nat, kept: set<Provider>)
    requires RunningOk(h) && KeptOk(h.files, h.phase.put, kept) && n <= |RestSteps(h.phase.put)|
    ensures Sound(h.rows, AfterSteps(h.files, h.phase.put, n, kept), h.doubt)
  {
    var first, rest := FirstSteps(h.phase.put), RestSteps(h.phase.put)[..n];
    RunningSound(h);
    StepsAreLandings(h, n, kept);
    StepsHarmless(h, first, kept);
    LandingSound(h.rows, h.files, h.doubt, EffectsOf(first, kept));
    StepsHarmless(h, rest, kept);
    LandingSound(h.rows, Landing(h.files, EffectsOf(first, kept)), h.doubt, EffectsOf(rest, kept));
  }

  /** A put whose script finished, and whose settlement is lost, leaves a sound home. */
  lemma {:induction false} UnsettledSound(h: Home, kept: set<Provider>)
    requires RunningOk(h) && KeptOk(h.files, h.phase.put, kept)
    ensures Sound(h.rows, AfterSteps(h.files, h.phase.put, |RestSteps(h.phase.put)|, kept), {})
  {
    StepsSound(h, |RestSteps(h.phase.put)|, kept);
  }

  /** So does one refused anywhere in its script, with whatever it had done by then. */
  lemma {:induction false} UnsettledRefusalSound(h: Home, stop: Stop)
    requires RunningOk(h) && StopOk(h.files, h.phase.put, stop)
    ensures Sound(h.rows, AfterStop(h.files, h.phase.put, stop), DoubtAfter(h.doubt, stop))
  {
    match stop
    case Early(_) => RunningSound(h);
    case AtKey(n, made) => KeyRefusalSound(h, FirstSteps(h.phase.put)[..n], made);
    case AtMerged(n, kept, _) => StepsSound(h, n, kept);
  }

  lemma {:induction false} KeyRefusalSound(h: Home, steps: seq<ScriptStep>, made: set<Path>)
    requires RunningOk(h) && Firsts(h.phase.put, steps)
    ensures Sound(h.rows, TakenBack(h.files, RunSteps(h.files, steps, {}), made), h.doubt)
  {
    RunningSound(h);
    FirstRuns(h, steps, {});
    StepsHarmless(h, steps, {});
    LandingSound(h.rows, h.files, h.doubt, EffectsOf(steps, {}));
    TakenBackSound(h.rows, h.files, Landing(h.files, EffectsOf(steps, {})), h.doubt, made);
  }

  /** Files taken back are as they were before. */
  lemma {:induction false} TakenBackSound(rows: seq<Row>, files: Files, after: Files, doubt: set<Effect>, made: set<Path>)
    requires Sound(rows, files, doubt) && Sound(rows, after, doubt)
    ensures Sound(rows, TakenBack(files, after, made), doubt)
  {
    forall p ensures FileAt(TakenBack(files, after, made), p) == if p in made then FileAt(files, p) else FileAt(after, p) {}
    forall p | Held(TakenBack(files, after, made), p).Some? ensures RowAt(rows, p) {
      assert Held(files, p).Some? || Held(after, p).Some?;
    }
  }
}
