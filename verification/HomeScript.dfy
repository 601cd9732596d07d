/** The script one put runs in a home, step by step, and what its exit codes tell the protocol
    (packages/workspaces/src/runtime/home-credentials.ts). The script writes whole files, then Claude
    keys, then merges logins into the files of others, then removes; it can be refused on the way. */
module HomeScript {
  import opened Wrappers
  import opened Placements

  /** A Core login: whose, and at which revision. */
  datatype Content = Content(accountId: AccountId, revision: int)

  /** A file Core wrote a login into: with the login there; or lost, the person having taken the login
      away, and Core having written no other since. */
  datatype File = There(content: Content) | Lost
  type Files = map<Path, File>

  /** One change a script makes to one file. */
  datatype Effect = Store(path: Path, content: Content) | Drop(path: Path)

  function ContentOf(r: Row): Content {
    Content(r.accountId, r.revision)
  }

  function Wanted(s: Selection): Content {
    Content(s.accountId, s.revision)
  }

  function FileAt(files: Files, p: Path): Option<File> {
    if p in files then Some(files[p]) else None
  }

  /** The Core login at a path, if it is there. */
  function Held(files: Files, p: Path): Option<Content> {
    if p in files && files[p].There? then Some(files[p].content) else None
  }

  predicate IsThere(f: Option<File>) {
    f.Some? && f.value.There?
  }

  /** A file that holds a login, but for the person having taken it away. */
  predicate Shows(f: Option<File>, content: Content) {
    f == Some(There(content)) || f == Some(Lost)
  }

  /** Removing what is lost changes nothing. */
  function Lands(files: Files, e: Effect): Files {
    match e
    case Store(p, content) => files[p := There(content)]
    case Drop(p) => if p in files && files[p].There? then files - {p} else files
  }

  /** A file once an effect landed on it. */
  function Left(f: Option<File>, e: Effect): Option<File> {
    match e
    case Store(_, content) => Some(There(content))
    case Drop(_) => if IsThere(f) then None else f
  }

  /** The files once the effects have landed, one after another. */
  function Landing(files: Files, effects: seq<Effect>): Files {
    if effects == [] then files else Lands(Landing(files, effects[..|effects| - 1]), effects[|effects| - 1])
  }

  // ---------------------------------------------------------------------------------------------
  // The steps, in order
  // ---------------------------------------------------------------------------------------------

  /** A login that is a whole file of its own, one that is a Claude key, or one merged into a file. */
  datatype Kind = WholeFile | ClaudeKey | Merged

  predicate IsMerged(provider: Provider) {
    provider == Pi || provider == Opencode
  }

  function KindOf(s: Selection): Kind {
    if IsKey(s.provider, s.login) then ClaudeKey else if IsMerged(s.provider) then Merged else WholeFile
  }

  datatype ScriptStep = WriteLogin(write: HomeWrite) | RestoreKey(kept: KeptKey) | RemoveLogin(provider: Provider)
                      | RemoveKey(id: Id)

  function WriteSteps(writes: seq<HomeWrite>, kind: Kind): (steps: seq<ScriptStep>)
    ensures forall s :: s in steps <==> s.WriteLogin? && s.write in writes && KindOf(s.write.selection) == kind
  {
    if writes == [] then []
    else (if KindOf(writes[0].selection) == kind then [WriteLogin(writes[0])] else []) + WriteSteps(writes[1..], kind)
  }

  function RestoreSteps(keptKeys: seq<KeptKey>): (steps: seq<ScriptStep>)
    ensures forall s :: s in steps <==> s.RestoreKey? && s.kept in keptKeys
  {
    if keptKeys == [] then [] else [RestoreKey(keptKeys[0])] + RestoreSteps(keptKeys[1..])
  }

  function RemoveLoginSteps(removes: seq<Provider>): (steps: seq<ScriptStep>)
    ensures forall s :: s in steps <==> s.RemoveLogin? && s.provider in removes
  {
    if removes == [] then [] else [RemoveLogin(removes[0])] + RemoveLoginSteps(removes[1..])
  }

  function RemoveKeySteps(ids: seq<Id>): (steps: seq<ScriptStep>)
    ensures forall s :: s in steps <==> s.RemoveKey? && s.id in ids
  {
    if ids == [] then [] else [RemoveKey(ids[0])] + RemoveKeySteps(ids[1..])
  }

  predicate IsFirst(put: Put, s: ScriptStep) {
    match s
    case WriteLogin(w) => w in put.writes && !IsMerged(w.selection.provider)
    case RestoreKey(k) => k in put.keptKeys
    case _ => false
  }

  predicate IsRest(put: Put, s: ScriptStep) {
    match s
    case WriteLogin(w) => w in put.writes && IsMerged(w.selection.provider)
    case RestoreKey(_) => false
    case RemoveLogin(provider) => provider in put.removes
    case RemoveKey(id) => id in put.removedKeys
  }

  /** What the script does before it merges anything. */
  function FirstSteps(put: Put): (steps: seq<ScriptStep>)
    ensures forall s :: s in steps <==> IsFirst(put, s)
  {
    WriteSteps(put.writes, WholeFile) + WriteSteps(put.writes, ClaudeKey) + RestoreSteps(put.keptKeys)
  }

  /** What it does then. */
  function RestSteps(put: Put): (steps: seq<ScriptStep>)
    ensures forall s :: s in steps <==> IsRest(put, s)
  {
    WriteSteps(put.writes, Merged) + RemoveLoginSteps(put.removes) + RemoveKeySteps(put.removedKeys)
  }

  /** A step's place in the script: whole files, Claude keys, kept keys, then merges, logins removed, keys
      removed. */
  function StageOf(s: ScriptStep): nat {
    match s
    case WriteLogin(w) => if IsMerged(w.selection.provider) then 3 else if IsKey(w.selection.provider, w.selection.login) then 1 else 0
    case RestoreKey(_) => 2
    case RemoveLogin(_) => 4
    case RemoveKey(_) => 5
  }

  lemma {:induction false} OneStage(put: Put)
    ensures forall s | s in WriteSteps(put.writes, WholeFile) :: StageOf(s) == 0
    ensures forall s | s in WriteSteps(put.writes, ClaudeKey) :: StageOf(s) == 1
    ensures forall s | s in RestoreSteps(put.keptKeys) :: StageOf(s) == 2
    ensures forall s | s in WriteSteps(put.writes, Merged) :: StageOf(s) == 3
    ensures forall s | s in RemoveLoginSteps(put.removes) :: StageOf(s) == 4
    ensures forall s | s in RemoveKeySteps(put.removedKeys) :: StageOf(s) == 5
  {
  }

  /** The script goes through its stages in order: every file it may make is written before any login it
      merges, and everything written before anything is removed. */
  lemma {:induction false} StagesInOrder(put: Put, i: nat, j: nat)
    requires i < j < |FirstSteps(put) + RestSteps(put)|
    ensures var steps := FirstSteps(put) + RestSteps(put); StageOf(steps[i]) <= StageOf(steps[j])
  {
    hide FirstSteps, RestSteps, WriteSteps, RestoreSteps, RemoveLoginSteps, RemoveKeySteps, StageOf;
    OneStage(put);
    InOneRow(put);
    var a, b, c := WriteSteps(put.writes, WholeFile), WriteSteps(put.writes, ClaudeKey), RestoreSteps(put.keptKeys);
    var d, e, f := WriteSteps(put.writes, Merged), RemoveLoginSteps(put.removes), RemoveKeySteps(put.removedKeys);
    StageAt(a, b, c, d, e, f, i);
    StageAt(a, b, c, d, e, f, j);
  }

  lemma {:induction false} InOneRow(put: Put)
    ensures FirstSteps(put) + RestSteps(put)
            == WriteSteps(put.writes, WholeFile)
               + (WriteSteps(put.writes, ClaudeKey)
                  + (RestoreSteps(put.keptKeys)
                     + (WriteSteps(put.writes, Merged) + (RemoveLoginSteps(put.removes) + RemoveKeySteps(put.removedKeys)))))
  {
    hide WriteSteps, RestoreSteps, RemoveLoginSteps, RemoveKeySteps;
    Regroup(WriteSteps(put.writes, WholeFile), WriteSteps(put.writes, ClaudeKey), RestoreSteps(put.keptKeys),
            WriteSteps(put.writes, Merged), RemoveLoginSteps(put.removes), RemoveKeySteps(put.removedKeys));
  }

  lemma {:induction false} Regroup<T>(a: seq<T>, b: seq<T>, c: seq<T>, d: seq<T>, e: seq<T>, f: seq<T>)
    ensures (a + b + c) + (d + e + f) == a + (b + (c + (d + (e + f))))
  {
  }

  ghost function StageAtIndex(a: nat, b: nat, c: nat, d: nat, e: nat, i: nat): nat {
    if i < a then 0 else if i < a + b then 1 else if i < a + b + c then 2 else if i < a + b + c + d then 3
    else if i < a + b + c + d + e then 4 else 5
  }

  lemma {:induction false} StageAt(a: seq<ScriptStep>, b: seq<ScriptStep>, c: seq<ScriptStep>, d: seq<ScriptStep>,
                                   e: seq<ScriptStep>, f: seq<ScriptStep>, i: nat)
    requires i < |a| + |b| + |c| + |d| + |e| + |f|
    requires (forall s | s in a :: StageOf(s) == 0) && (forall s | s in b :: StageOf(s) == 1) && (forall s | s in c :: StageOf(s) == 2)
    requires (forall s | s in d :: StageOf(s) == 3) && (forall s | s in e :: StageOf(s) == 4) && (forall s | s in f :: StageOf(s) == 5)
    ensures StageOf((a + (b + (c + (d + (e + f)))))[i]) == StageAtIndex(|a|, |b|, |c|, |d|, |e|, i)
  {
  }

  /** What a step does to its file. After a merge that keeps the person's own login there is no Core login
      there, as there was none before. */
  function EffectOf(s: ScriptStep, kept: set<Provider>): Effect {
    match s
    case WriteLogin(w) =>
      if IsMerged(w.selection.provider) && w.selection.provider in kept then Drop(w.path)
      else Store(w.path, Wanted(w.selection))
    case RestoreKey(k) => Store(KeyFile(k.id), Wanted(k.selection))
    case RemoveLogin(provider) => Drop(LoginFile(provider))
    case RemoveKey(id) => Drop(KeyFile(id))
  }

  function EffectsOf(steps: seq<ScriptStep>, kept: set<Provider>): seq<Effect> {
    seq(|steps|, i requires 0 <= i < |steps| => EffectOf(steps[i], kept))
  }

  /** One step. A merge leaves the person's own login alone, and a kept key is written only where its file
      is missing. */
  function RunStep(files: Files, s: ScriptStep, kept: set<Provider>): Files {
    match s
    case WriteLogin(w) =>
      if IsMerged(w.selection.provider) && w.selection.provider in kept then files
      else Lands(files, Store(w.path, Wanted(w.selection)))
    case RestoreKey(k) =>
      if Held(files, KeyFile(k.id)).Some? then files else Lands(files, Store(KeyFile(k.id), Wanted(k.selection)))
    case RemoveLogin(provider) => Lands(files, Drop(LoginFile(provider)))
    case RemoveKey(id) => Lands(files, Drop(KeyFile(id)))
  }

  /** What a step leaves at each path: a login it writes where it goes, unless the person's own is there; a
      kept key where its file is missing; no Core login where it removes one; and nothing else changed. */
  lemma {:induction false} StepAt(files: Files, s: ScriptStep, kept: set<Provider>, p: Path)
    ensures FileAt(RunStep(files, s, kept), p)
            == match s
               case WriteLogin(w) =>
                 if p == w.path && !(w.selection.provider in {Pi, Opencode} && w.selection.provider in kept)
                 then Some(There(Content(w.selection.accountId, w.selection.revision))) else FileAt(files, p)
               case RestoreKey(k) =>
                 if p == KeyFile(k.id) && (p !in files || files[p] == Lost)
                 then Some(There(Content(k.selection.accountId, k.selection.revision))) else FileAt(files, p)
               case RemoveLogin(provider) => if p == LoginFile(provider) && p in files && files[p].There? then None else FileAt(files, p)
               case RemoveKey(id) => if p == KeyFile(id) && p in files && files[p].There? then None else FileAt(files, p)
  {
  }

  function RunSteps(files: Files, steps: seq<ScriptStep>, kept: set<Provider>): Files {
    if steps == [] then files
    else RunStep(RunSteps(files, steps[..|steps| - 1], kept), steps[|steps| - 1], kept)
  }

  /** The files after the first steps, and the first `n` of the rest. */
  function AfterSteps(files: Files, put: Put, n: nat, kept: set<Provider>): Files
    requires n <= |RestSteps(put)|
  {
    RunSteps(RunSteps(files, FirstSteps(put), kept), RestSteps(put)[..n], kept)
  }

  /** A merge finds the person's own login only where Core's is not. */
  ghost predicate KeptOk(files: Files, put: Put, kept: set<Provider>) {
    forall w | w in put.writes && IsMerged(w.selection.provider) && w.selection.provider in kept :: Held(files, w.path).None?
  }

  // ---------------------------------------------------------------------------------------------
  // Refusals
  // ---------------------------------------------------------------------------------------------

  const LINK_ON_THE_WAY := 73
  const PI_LOGIN_UNUSABLE := 82
  const OPENCODE_LOGIN_UNUSABLE := 83
  const PI_LOGIN_OUTSIDE := 84
  const OPENCODE_LOGIN_OUTSIDE := 85
  const CLAUDE_LOGIN_UNUSABLE := 86
  const CODEX_LOGIN_UNUSABLE := 87
  const GITHUB_LOGIN_UNUSABLE := 88
  const CLAUDE_KEY_UNUSABLE := 89

  function UnusableExit(provider: Provider): int {
    if provider == Pi then PI_LOGIN_UNUSABLE else OPENCODE_LOGIN_UNUSABLE
  }

  function OutsideExit(provider: Provider): int {
    if provider == Pi then PI_LOGIN_OUTSIDE else OPENCODE_LOGIN_OUTSIDE
  }

  /** The provider whose login file a refusal is about. */
  function HomeLoginOfRefusal(code: int): Option<Provider> {
    if code == PI_LOGIN_UNUSABLE || code == PI_LOGIN_OUTSIDE then Some(Pi)
    else if code == OPENCODE_LOGIN_UNUSABLE || code == OPENCODE_LOGIN_OUTSIDE then Some(Opencode)
    else if code == CLAUDE_LOGIN_UNUSABLE || code == CLAUDE_KEY_UNUSABLE then Some(Claude)
    else if code == CODEX_LOGIN_UNUSABLE then Some(Codex)
    else if code == GITHUB_LOGIN_UNUSABLE then Some(Github)
    else None
  }

  /** The codes a script is refused by, and the login file each is about: 73 to 81 are about none. */
  lemma {:induction false} RefusalsByCode(code: int)
    ensures HomeLoginOfRefusal(code)
            == if code == 82 || code == 84 then Some(Pi)
               else if code == 83 || code == 85 then Some(Opencode)
               else if code == 86 || code == 89 then Some(Claude)
               else if code == 87 then Some(Codex)
               else if code == 88 then Some(Github)
               else None
    ensures LINK_ON_THE_WAY == 73 && CLAUDE_KEY_UNUSABLE == 89
    ensures UnusableExit(Pi) == 82 && OutsideExit(Pi) == 84 && UnusableExit(Opencode) == 83 && OutsideExit(Opencode) == 85
  {
  }

  predicate MergedRefused(code: int) {
    var refused := HomeLoginOfRefusal(code);
    refused.Some? && IsMerged(refused.value)
  }

  function NotMerged(writes: seq<HomeWrite>): set<Provider> {
    set w | w in writes && !IsMerged(w.selection.provider) :: w.selection.provider
  }

  /** The writes a refusal is taken to have let through: all but the merged ones when a merged login
      was refused, none otherwise. */
  function LandedBeforeRefusal(writes: seq<HomeWrite>, code: int): set<Provider> {
    if MergedRefused(code) then NotMerged(writes) else {}
  }

  /** Which those are, in numbers: refused with 82 to 85, every login but those of pi and opencode. */
  lemma {:induction false} LandedByCode(writes: seq<HomeWrite>, code: int, p: Provider)
    ensures p in LandedBeforeRefusal(writes, code)
            <==> 82 <= code <= 85 && p != Pi && p != Opencode && exists w :: w in writes && w.selection.provider == p
  {
    RefusalsByCode(code);
  }

  /** Where a script was refused: before it wrote anything; at a key, after which the whole files it
      made are removed again; or at a merged login. */
  datatype Stop =
    | Early(code: int)
    | AtKey(n: nat, made: set<Path>)
    | AtMerged(n: nat, kept: set<Provider>, code: int)

  function CodeOf(stop: Stop): int {
    match stop
    case Early(code) => code
    case AtKey(_, _) => CLAUDE_KEY_UNUSABLE
    case AtMerged(_, _, code) => code
  }

  /** A key is refused where it is written, a kept one only where its file is missing. */
  predicate KeyMayRefuse(files: Files, s: ScriptStep) {
    match s
    case WriteLogin(w) => KindOf(w.selection) == ClaudeKey
    case RestoreKey(k) => Held(files, KeyFile(k.id)).None?
    case _ => false
  }

  predicate MergedMayRefuse(s: ScriptStep, code: int) {
    match s
    case WriteLogin(w) =>
      KindOf(w.selection) == Merged && (code == UnusableExit(w.selection.provider) || code == OutsideExit(w.selection.provider))
    case RemoveLogin(provider) => IsMerged(provider) && code == UnusableExit(provider)
    case _ => false
  }

  /** A file the script made: a whole file of the put that was not there before. */
  predicate MayBeMade(files: Files, put: Put, p: Path) {
    Held(files, p).None? && exists w :: w in put.writes && KindOf(w.selection) == WholeFile && w.path == p
  }

  ghost predicate StopOk(files: Files, put: Put, stop: Stop) {
    match stop
    case Early(code) => LINK_ON_THE_WAY <= code <= CLAUDE_KEY_UNUSABLE && !MergedRefused(code)
    case AtKey(n, made) =>
      n < |FirstSteps(put)| && KeyMayRefuse(files, FirstSteps(put)[n]) && forall p | p in made :: MayBeMade(files, put, p)
    case AtMerged(n, kept, code) =>
      n < |RestSteps(put)| && MergedMayRefuse(RestSteps(put)[n], code) && KeptOk(files, put, kept)
  }

  /** Where a script can be refused, and with which codes: before it writes anything, with one about no merged
      login; at a Claude key, a kept one only where its file is missing; at a login merged for pi or
      opencode, because its file is unusable or lies outside the home; or at one of theirs removed. */
  lemma {:induction false} RefusedWhere(files: Files, put: Put, n: nat, made: set<Path>, kept: set<Provider>, code: int)
    ensures StopOk(files, put, Early(code)) <==> 73 <= code <= 81 || 86 <= code <= 89
    ensures n < |FirstSteps(put)| ==>
              (StopOk(files, put, AtKey(n, {})) <==>
               match FirstSteps(put)[n]
               case WriteLogin(w) => w.selection.provider == Claude && w.selection.login.ApiKey?
               case RestoreKey(k) => KeyFile(k.id) !in files || files[KeyFile(k.id)] == Lost
               case _ => false)
    ensures n < |RestSteps(put)| && KeptOk(files, put, kept) ==>
              (StopOk(files, put, AtMerged(n, kept, code)) <==>
               match RestSteps(put)[n]
               case WriteLogin(w) =>
                 || (w.selection.provider == Pi && (code == 82 || code == 84))
                 || (w.selection.provider == Opencode && (code == 83 || code == 85))
               case RemoveLogin(provider) => (provider == Pi && code == 82) || (provider == Opencode && code == 83)
               case _ => false)
  {
    RefusalsByCode(code);
  }

  /** The files with those the script made taken back: at their paths they are as they were. */
  function TakenBack(files: Files, after: Files, made: set<Path>): Files {
    (after - made) + map p | p in made && p in files :: files[p]
  }

  /** The files a refused script leaves. */
  function AfterStop(files: Files, put: Put, stop: Stop): Files
    requires StopOk(files, put, stop)
  {
    match stop
    case Early(_) => files
    case AtKey(n, made) => TakenBack(files, RunSteps(files, FirstSteps(put)[..n], {}), made)
    case AtMerged(n, kept, _) => AfterSteps(files, put, n, kept)
  }

  /** What the protocol settles a refused put by. */
  function RefusalOf(put: Put, stop: Stop): Outcome {
    Refused(LandedBeforeRefusal(put.writes, CodeOf(stop)))
  }

  /** What it settles a finished one by: every write landed but those left to the person's own login. */
  function DoneOf(put: Put, kept: set<Provider>): Outcome {
    Done((set w | w in put.writes && w.selection.provider !in kept :: w.selection.provider), kept)
  }

  predicate UnreportedStep(s: ScriptStep, stop: Stop) {
    match stop
    case Early(_) => false
    case AtKey(_, made) => s.WriteLogin? && s.write.path !in made
    case AtMerged(_, _, _) => true
  }

  function StepsBefore(put: Put, stop: Stop): seq<ScriptStep> {
    match stop
    case Early(_) => []
    case AtKey(n, _) => if n <= |FirstSteps(put)| then FirstSteps(put)[..n] else []
    case AtMerged(n, _, _) => if n <= |RestSteps(put)| then RestSteps(put)[..n] else []
  }

  function KeptBy(stop: Stop): set<Provider> {
    if stop.AtMerged? then stop.kept else {}
  }

  /** An effect of a refused script that the refusal does not report: at a key, everything written and
      not taken back; at a merged login, every merge and removal before it. */
  ghost predicate Unreported(put: Put, stop: Stop, e: Effect) {
    exists s :: s in StepsBefore(put, stop) && UnreportedStep(s, stop) && e == EffectOf(s, KeptBy(stop))
  }

  // ---------------------------------------------------------------------------------------------
  // The files as an answer reports them
  // ---------------------------------------------------------------------------------------------

  /** A path whose file the put's script removes. */
  predicate DropsPath(put: Put, p: Path) {
    match p
    case LoginFile(provider) => provider in put.removes
    case KeyFile(id) => id in put.removedKeys
  }

  function LandedAt(writes: seq<HomeWrite>, written: set<Provider>, p: Path): (at: Option<HomeWrite>)
    ensures at.Some? ==> at.value in writes && at.value.path == p && at.value.selection.provider in written
    ensures at.None? ==> forall w | w in writes && w.path == p :: w.selection.provider !in written
  {
    if writes == [] then None
    else if writes[0].path == p && writes[0].selection.provider in written then Some(writes[0])
    else LandedAt(writes[1..], written, p)
  }

  predicate PersonalAt(writes: seq<HomeWrite>, kept: set<Provider>, p: Path) {
    exists w :: w in writes && w.path == p && w.selection.provider in kept
  }

  /** A kept key written again. */
  ghost predicate RestoredAs(put: Put, p: Path, f: Option<File>) {
    exists k :: k in put.keptKeys && p == KeyFile(k.id) && f == Some(There(Wanted(k.selection)))
  }

  /** A file as an answer reports it: a done script wrote what it says, left the person's own logins (no
      Core login there) and removed the rest; a refused one wrote what it says. Any other file is as it
      was, but that a kept key the person took away may be there again. */
  ghost predicate ReportedAs(files: Files, put: Put, outcome: Outcome, p: Path, f: Option<File>)
    requires !outcome.Unconfirmed?
  {
    if outcome.Done? && DropsPath(put, p) then !IsThere(f)
    else if LandedAt(put.writes, outcome.written, p).Some? then
      f == Some(There(Wanted(LandedAt(put.writes, outcome.written, p).value.selection)))
    else if outcome.Done? && PersonalAt(put.writes, outcome.kept, p) then !IsThere(f)
    else f == FileAt(files, p) || (FileAt(files, p) == Some(Lost) && RestoredAs(put, p, f))
  }

  ghost predicate Reported(files: Files, put: Put, outcome: Outcome, after: Files)
    requires !outcome.Unconfirmed?
  {
    forall p :: ReportedAs(files, put, outcome, p, FileAt(after, p))
  }

  /** An answered script accounts for each write, as landed or as left to the person's own login; a
      refused one need not. */
  ghost predicate OutcomeOk(put: Put, outcome: Outcome) {
    match outcome
    case Done(written, kept) => forall w | w in put.writes :: w.selection.provider in written <==> w.selection.provider !in kept
    case Refused(written) => true
    case Unconfirmed => false
  }
}
