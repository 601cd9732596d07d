# Verified models of the control plane's record-keeping protocols

This project models the parts of the repository that keep a record true while messages are lost,
repeated, reordered or late, and proves what they promise. It has four large parts and three smaller ones.

- **Capture evidence** (`CaptureEvidence`, `CaptureRuns`): the partial order on an executor's answers,
  the set of answers that say "not saved", and whole runs of recording them.
- **Credential placements** (`Placements`, `HomeScript`, `HomeProtocol`, `HomeBegin`, `HomeSafety`,
  `HomeSettle`, `HomeFiles`, `HomeRefusals`, `HomeMisreports`, `HomeRuns`, `HomePlan`, `HomeOutcomes`): the
  begin/settle write protocol of one home. The rows are the source's. Beside them the machine holds the
  files the executor really has, which the person may take away at any moment, and every write that may
  still land late. A put runs its script step by step, in the script's order, and can be refused with one of its exit codes at any step that can refuse;
  the protocol settles by what that exit code reports. The machine's steps are beginning a put, a crash or
  lost answer, a finished script, a refused one, either settled or not, a late effect, a login taken away,
  archiving, pruning, removing, releasing and emptying.
- **The execution record** (`RecordEvents`, `Tables`, `Redelivery`, `SpanPlaces`, `RecordSink`, `RecordStore`,
  `AppendVerdicts`, `Attribution`, `Convergence`, `Projection`, `ProjectionEquality`, `OutputBudget`,
  `StreamGaps`, `Reassembly`): an append-only log with two unique keys, its projections, two concurrent
  at-least-once writers, the rebuild of the projections, the output budget, gap detection and reassembly.
- **SSH admission** (`TokenBucket`, `AdmissionControl`): startup counters shared by tickets, a token bucket
  per source, and a sweep that forgets sources. The gateway keeps a history of what each operation was to
  the levels, and the bound is on any stretch of it. Lookups are counted in sixty-thousandths, so that refilling
  by the millisecond is exact.
- **An in-request exec run** (`ExecRun`), **run-record retention** (`Retention`) and **the boot
  compatibility check** (`BootContract`).

Objects the source changes in place are classes (`RecordStore.Store`, `Projection.Projections`,
`Attribution.AttributionCache`, `OutputBudget.OutputBudgetState`, `StreamGaps.GapDetection`,
`AdmissionControl.Admission` with its `SourceState` and `Ticket`, `Retention.Records`, `ExecRun.Execution`);
the source's loops are loops, each proved equal to a specification function; and the theorems are about
those functions and what every operation keeps. What each of those functions comes to is also stated in
the source's own columns, numbers and exit codes.

## Where the code and its documentation part

- **A projection is not always its rebuild** (`packages/telemetry/src/projector.ts:5-7` says it is). The
  timeline is unique by run and sequence, not by runtime, so a run whose daemon restarted can have two
  events at one sequence: ingest keeps the one committed first, a rebuild the one of the first runtime.
  `ProjectionEquality.TimelineAgrees` gives exactly when the two agree, `ScrollbackAgrees` the same for
  the scrollback, and `RestartedRunDiffers` and `RestartedScrollbackDiffers` inputs on which they do not.
- **A refused put does not always settle to what its script did.** The settlement takes a refusal at a
  merged login (pi, opencode) to mean that all other writes landed and nothing was removed, and any other
  refusal to mean that nothing landed (`packages/workspaces/src/worker/home-placements.ts:85-95`). But the
  script has then already merged and removed what comes before the refused login, and a key refused late
  leaves files overwritten (`packages/workspaces/src/runtime/home-credentials.ts:600-647`). A login can be
  left in a file with no row (`HomeMisreports.MergedLoginOrphaned`, `ScrubRefusedOrphans`), and a ready row
  can name a login no longer in its file (`MergedLoginMisreported`, `RemovedLoginRestored`,
  `OverwrittenLoginMisreported`, and `RestoreRefusedMisreports`, where the key refused is a kept one the
  person had taken away). `HomeRefusals.RefusalExactly` gives exactly when the settlement is sound,
  by where the script stopped and the rows it began on; `HomeMisreports.HoweverRefused` exactly which puts
  settle soundly wherever they are refused; and the runs of `HomeRuns` settle a refusal only when it is safe
  (`HomeProtocol.RefusalSafe`).
- **Archiving an account does not look at what a put has in flight**
  (`packages/db/src/repositories/connected-accounts.ts:690-695`). A ready row can then name a login that is
  no longer in its file: `HomeRuns.ArchivedMidPutMisreports`. `HomeSafety.ArchiveInFlight` gives exactly
  when archiving during a put is safe, `ArchiveWhenIdle` when it is over rows a crash left pending, and the
  runs of `HomeRuns` archive only then (`HomeProtocol.ArchiveSafe`, `LeftArchiveSafe`).
- **A failed append can name an event the log holds**: when its batch first gives the same id other facts
  (`AppendVerdicts.NamedThoughHeld`). `NamedExactlyWhenNotHeld` says when the names are exact.
- **Content after the first dropped chunk is not always dropped** (`packages/telemetry/src/output-budget.ts:3-6`):
  a later, smaller chunk that still fits is stored (`OutputBudget.SmallerChunkStillStored`).
- **"Not created" does not always mean the row was never written** (`packages/telemetry/src/exec-run.ts:390-394`):
  a create that lands and whose answer is lost reads as not created, and leaves its row queued
  (`ExecRun.CreatedButNotAnswered`). `ExecRun.Execution.Execute` says exactly when: then the row is there if
  and only if the create landed unanswered. No command was sent either way.
- **"Same position" does not compose** when an answer between two others names no head
  (`CaptureEvidence.SameComposes`); "before" does, given one generation per boot.

## Premises

- Capture: for transitivity, one boot has one generation; for `DeliveryOrderDoesNotMatter`, all boots have
  distinct positive generations, one position carries one answer, and an answer asked for after another was
  recorded is not positioned before it.
- Placements: one put's writes name distinct providers, none it also removes, with fresh ids. The put made
  of a plan meets this (`HomePlan.PlannedPutIsOk`). Beside Core's scripts, a file Core wrote a login into is
  changed by no one but the person, and only by taking the login away (removing it, or putting a login of
  their own there); `HomeRuns.EveryRunIsSafe` rests on this. A launch writes one login a provider, none of them a
  Claude key. The step a script is refused at changes no file itself; a merge keeps the person's own login only where
  Core's is not; and a script whose fencing token got through leaves no earlier write in
  doubt.
- Record: the events of one runtime have one id and one position each; a recorder is given its own run's
  events and the untagged ones; every lookup of an execution id gives the same answer. What happens when a
  lookup fails is `Convergence.CopyConflictsExactly`.
- Admission: the clock does not go back.
- Retention: `chunkRows` is positive.

## Model

| member | source | states |
|---|---|---|
| CaptureEvidence.ComparesByHistory | packages/db/src/capture-evidence-order.ts:72-102 | one position is before another exactly when made earlier in the same boot, or in a boot of lower generation when both are known; nothing orders two exactly when one is missing, the executors differ, one observation names two heads, or the generations do not tell |
| CaptureEvidence.CompareIsDual | packages/db/src/capture-evidence-order.ts:82-102 | swapping two positions swaps before and after |
| CaptureEvidence.CompareIsTransitive | packages/db/src/capture-evidence-order.ts:82-102 | "before", as `ComparesByHistory` gives it in numbers, is transitive and composes with "same" on either side, given one generation per boot |
| CaptureEvidence.SameComposes | packages/db/src/capture-evidence-order.ts:89-96 | two "same" steps compose exactly when the outer answers do not name two different heads |
| CaptureEvidence.TwoGenerationsBreakTransitivity | packages/db/src/capture-evidence-order.ts:89-101 | without one generation per boot the order has a cycle |
| CaptureEvidence.Uncovered | packages/db/src/capture-evidence-order.ts:230-238 | a member stays exactly when the incoming answer does not cover it |
| CaptureEvidence.FailsClosed | packages/db/src/capture-evidence-order.ts:112-150 | a complete answer replaces an incomplete one exactly when position or else causality puts it at or after it; an incomplete one gives way only to a complete one strictly after it and not asked for before it |
| CaptureEvidence.UnorderedNeverReadsSaved | packages/db/src/capture-evidence-order.ts:119-123 | of two unordered answers, one incomplete, the record does not read saved whichever comes last |
| CaptureEvidence.HistoryDecides | packages/db/src/capture-evidence-order.ts:46-185 | of two answers of one executor, by their stored fields: the one later in the boot or of the later boot replaces and covers the other whatever the clock says; the earlier never covers it, and replaces it only when asked for after it, failing closed |
| CaptureEvidence.ClockDecides | packages/db/src/capture-evidence-order.ts:105-185 | of two answers no position orders, one covers the other exactly when asked for after it was recorded, and a complete one replaces an incomplete one only then |
| CaptureRuns.NothingUnsavedIsLost | packages/db/src/capture-evidence-order.ts:187-242 | after any run, each "not saved" answer is a member or is linked by a chain of covering answers to a member or to a complete answer |
| CaptureRuns.EmptyMeansAnsweredFor | packages/db/src/capture-evidence-order.ts:187-200 | an empty set means each "not saved" answer was answered for by a complete one, through a chain of covering answers |
| CaptureRuns.MembersAreAnswers | packages/db/src/capture-evidence-order.ts:201-242 | a member is always one of the run's incomplete answers, as it was recorded |
| CaptureRuns.MembersAreTagged | packages/db/src/capture-evidence-order.ts:230-241 | the members are the answers at strictly increasing moments of the run: none is kept twice, and they stay in the order they joined |
| CaptureRuns.MembersAreAnAntichain | packages/db/src/capture-evidence-order.ts:187-200 | any two members are incomparable, apart from pairs whose position and causality contradict each other |
| CaptureRuns.RecordingIsARun | packages/db/src/repositories/workspace-capture-drains.ts:750-833 | recording answers through the store, latest status and unsaved set together, is a run in that sense |
| CaptureRuns.UnplacedIsRecorded | packages/db/src/repositories/workspace-capture-drains.ts:769-800 | an answer with no position becomes the latest status exactly when none is recorded, when it was asked for after that one or no instant is known, when it is incomplete, or when both are complete |
| CaptureRuns.StoreLosesNothing | packages/db/src/repositories/workspace-capture-drains.ts:793-812 | so the store loses no "not saved" answer either |
| CaptureRuns.RecordStep | packages/db/src/capture-evidence-order.ts:126-150 | recording one answer against a record that holds the highest keeps the higher of the two, in the status and in the unsaved set |
| CaptureRuns.RecordHoldsTheHighest | packages/db/src/capture-evidence-order.ts:126-242 | after any delivery the status is an answer than which none delivered is of a later boot or later in its boot, alone in the unsaved set if incomplete |
| CaptureRuns.DeliveryOrderDoesNotMatter | packages/db/src/capture-evidence-order.ts:126-242 | any two deliveries of the same answers, in any order and with any repeats, end in the same record |
| Placements.PlanPut | packages/db/src/credential-placements.ts:106-145 | the planning loops compute the plan the lemmas of `HomePlan` are about |
| Placements.BeginPut | packages/db/src/credential-placements.ts:162-240 | the begin loops, with their early answers, compute the start that `HomeBegin.BeginsExactly` says happens when, and `BeginShape` describes |
| Placements.SettlePut | packages/db/src/credential-placements.ts:251-314 | the settle passes over all rows compose to one function of each row, the rows of writes that did not land go, and the stale flag is the one `HomeSettle.StaleExactly` describes |
| Placements.SettleWrite | packages/db/src/credential-placements.ts:261-302 | the passes for one write come to one change of each row |
| Placements.SettleRetired | packages/db/src/credential-placements.ts:305-312 | the retired rows go when the put is done and come back, unless archived, when it is refused |
| HomeBegin.BeginWritesShape | packages/db/src/credential-placements.ts:192-231 | the rows begun are the base rows, those reused pending, and one pending row per new login, with one intent per write at that row's path |
| HomeBegin.BeginShape | packages/db/src/credential-placements.ts:162-240 | a begun put leaves exactly the reused rows pending, the removed ones removing, new rows pending, the rest as they were; it retires no row it writes |
| HomeBegin.BeginsExactly | packages/db/src/credential-placements.ts:175-208 | a put begins exactly when every login it writes or restores is its account's own still: present, active, at the selected revision, the owner's, of the source provider (Codex for pi and opencode); each restored key has a ready row of that login; and each reused row is ready and reused once |
| HomeSafety.SettleInDoubtSound | packages/db/src/credential-placements.ts:66-73 | settling what is in doubt keeps every promise about rows, files and late writes, and leaves nothing pending |
| HomeSafety.SettleInDoubtIsIdempotent | packages/db/src/credential-placements.ts:66-73 | settling twice is settling once |
| HomeSafety.PruneSound | packages/db/src/credential-placements.ts:318-326 | pruning keeps every promise |
| HomeSafety.ReleaseSound | packages/db/src/credential-placements.ts:316 | releasing keeps every promise |
| HomeSafety.BeginRuns | packages/workspaces/src/worker/home-placements.ts:132-157 | beginning a put over settled rows, or answering that accounts moved, keeps the invariant |
| HomeSafety.RunningMatches | packages/db/src/credential-placements.ts:162-240 | while a put runs, ready rows outside what it writes still name the login in their file and every Core file has a row |
| HomeSafety.LoseSound | packages/workspaces/src/runtime/home-credentials.ts:612-626 | the person taking any login away, whatever is running, leaves a sound home |
| HomeSafety.CrashSound | packages/workspaces/src/worker/home-placements.ts:210-215 | a lost answer or a crash leaves a sound home, whatever part of the script lands, whenever it lands |
| HomeSafety.LateSound | packages/workspaces/src/worker/home-placements.ts:52-73 | an effect of an unconfirmed script that lands late leaves a sound home |
| HomeSafety.ArchiveInFlight | packages/db/src/repositories/connected-accounts.ts:690-695 | archiving during a put, then losing its answer, is safe exactly when the account's pending row is not all that marks a path where another account's row is ready |
| HomeSafety.ArchiveWhenIdle | packages/db/src/repositories/connected-accounts.ts:690-695 | with no put running, archiving is safe exactly when each row it leaves standing anew names the login in its file and no write in doubt there is another |
| HomeSettle.ReadySettled | packages/db/src/credential-placements.ts:251-314 | a row ready after settlement either had its login written by this put or was ready before at a path the put left alone |
| HomeSettle.SettledMatches | packages/db/src/credential-placements.ts:251-314 | as an answer reports the files, the one at the path of each row ready after settlement holds that row's login, unless the person took it away |
| HomeSettle.SettleSound | packages/db/src/credential-placements.ts:251-314 | settling a put whose files are as its answer reports them leaves a sound home |
| HomeScript.StagesInOrder | packages/workspaces/src/runtime/home-credentials.ts:600-649 | the script writes whole files, then Claude keys, then restores kept keys, then merges, then removes logins, then keys |
| HomeScript.StepAt | packages/workspaces/src/runtime/home-credentials.ts:600-649 | what each step leaves at each path: a merge spares the person's own login, and a kept key is written only where its file is missing |
| HomeScript.RefusalsByCode | packages/workspaces/src/runtime/home-credentials.ts:217-264 | which login file each exit code is about, in numbers |
| HomeScript.RefusedWhere | packages/workspaces/src/runtime/home-credentials.ts:600-649 | at which steps, and with which codes, a script can be refused |
| HomeScript.LandedByCode | packages/workspaces/src/worker/home-placements.ts:85-95 | which logins a refusal is taken to have let through: refused with 82 to 85, all but those of pi and opencode, none otherwise |
| HomeFiles.FinishedAsReported | packages/workspaces/src/runtime/home-credentials.ts:600-649 | the steps of a finished script, run in order, leave every path as its answer reports it |
| HomeFiles.KeptKeysAreRestored | packages/workspaces/src/runtime/home-credentials.ts:612-626 | once a script has come to its merges, each kept key is in its file, whether or not the person had taken it away |
| HomeFiles.StoppedUnreported | packages/workspaces/src/runtime/home-credentials.ts:582-647 | where a refused script did something its exit code does not report, its steps leave the path as that did |
| HomeFiles.StoppedReported | packages/workspaces/src/worker/home-placements.ts:85-95 | everywhere else they leave the path as the exit code reports it |
| HomeFiles.UnsettledSound | packages/workspaces/src/worker/home-placements.ts:200-219 | a finished put whose settlement never happens leaves a sound home |
| HomeFiles.UnsettledRefusalSound | packages/workspaces/src/worker/home-placements.ts:200-219 | so does one refused at any step, whatever it had done by then |
| HomeRefusals.ReadyAgainExactly | packages/db/src/credential-placements.ts:261-312 | after a refusal, the rows ready at a path nothing is reported to have landed at are exactly those ready before whose account is not archived |
| HomeRefusals.RefusalExactly | packages/workspaces/src/worker/home-placements.ts:85-95 | settling a refusal leaves a sound home exactly when, for each merge, removal or overwritten file before the refused step that goes unreported, the rows ready again at its path name what it left there, or the person had taken away what it removed, and a login it left has a row |
| HomeRefusals.UnborneMisreports | packages/workspaces/src/worker/home-placements.ts:200-219 | otherwise a Core file has no row, or a ready row names a login not in its file |
| HomeMisreports.HoweverRefused | packages/workspaces/src/runtime/home-credentials.ts:612-648 | a put settles soundly wherever it is refused exactly when that holds of every effect before a key or merged login that may refuse |
| HomeMisreports.OneMergedIsSafe | packages/workspaces/src/runtime/home-credentials.ts:628-648 | such are the puts that write no key, find no kept one missing, and whose only merged login comes before all they remove |
| HomeMisreports.MergedLoginOrphaned | packages/workspaces/src/worker/home-placements.ts:85-95 | Pi's login merged and OpenCode's refused: Pi's stays in its file with no row |
| HomeMisreports.MergedLoginMisreported | packages/workspaces/src/worker/home-placements.ts:85-95 | the same over another account's ready Pi row, which stays ready over the new login |
| HomeMisreports.ScrubRefusedOrphans | packages/workspaces/src/runtime/home-credentials.ts:628-645 | Pi's login merged and OpenCode's removal refused: Pi's stays in its file with no row |
| HomeMisreports.RemovedLoginRestored | packages/workspaces/src/runtime/home-credentials.ts:638-645 | Claude's file removed and Pi's removal refused: Claude's row is ready again, its file gone |
| HomeMisreports.OverwrittenLoginMisreported | packages/workspaces/src/runtime/home-credentials.ts:583-626 | a key refused after a file that was there was overwritten: that file's old row is ready again |
| HomeMisreports.RestoreRefusedMisreports | packages/workspaces/src/runtime/home-credentials.ts:612-626 | the same when what is refused is restoring a kept key the person took away, by a put that writes no key and merges nothing |
| HomeSettle.StaleExactly | packages/db/src/credential-placements.ts:282-286 | a settled put is stale exactly when a login it wrote does not stand ready at its account's present revision in the rows it leaves |
| HomeRuns.RemovalIsExact | packages/db/src/credential-placements.ts:328-343 | the work removes exactly the files at which a row is being removed and none is ready |
| HomeRuns.ForgetsRemoving | packages/workspaces/src/worker/home-placements.ts:274-279 | what is forgotten once the work is done is exactly the rows being removed |
| HomeRuns.RemoveKeepsInv | packages/workspaces/src/worker/home-placements.ts:233-281 | a removal confirmed, unconfirmed or with nothing to run keeps the invariant |
| HomeRuns.LostAnswerMayLand | packages/workspaces/src/worker/home-placements.ts:210-215 | once an answer is lost, exactly the put's writes, restores and removals, and what was in doubt before, may still land, at any moment |
| HomeRuns.AnsweredDoubt | packages/workspaces/src/worker/home-placements.ts:52-73 | what an answer leaves in doubt: nothing once a script's fencing token got through, what there was when it was refused before, and more when a removal is unconfirmed |
| HomeRuns.StepKeepsInv | packages/db/src/credential-placements.ts:66-343 | every step of the protocol keeps its invariant, archiving and settling a refusal when they are safe |
| HomeRuns.StartIsSound | packages/db/src/credential-placements.ts:345-373 | the rows recorded for a launch match the files it wrote |
| HomeRuns.EveryRunIsSafe | packages/db/src/credential-placements.ts:66-373 | in every state of every run: unique ids, one ready row a path, each ready row whose path nothing is being written to names the login really in its file, unless the person took it away, and every Core login in a file has a row; along a run scripts finish, are refused at any step, are lost or land late, settled or not, the person takes logins away, and only archiving and settling a refusal are held to be safe |
| HomeRuns.LostWasTakenAway | packages/workspaces/src/runtime/home-credentials.ts:600-648 | a login missing from its file in a run was taken away by the person, and nothing was written there since |
| HomeRuns.RemovalSparesReady | packages/db/src/credential-placements.ts:328-343 | a confirmed removal leaves every ready row and its file |
| HomeRuns.ReleaseEmptiesHome | packages/db/src/credential-placements.ts:316-343 | releasing and then carrying out the removal work leaves no row and no Core login in any file |
| HomeRuns.ArchivedMidPutMisreports | packages/db/src/repositories/connected-accounts.ts:690-695 | an input on which archiving mid-put leaves a ready row naming a login not in its file |
| HomeRuns.ExampleRuns | packages/workspaces/src/worker/home-placements.ts:132-157 | the premises can be met: a sound home on which a put begins and runs |
| HomeOutcomes.RefusedUndoes | packages/db/src/credential-placements.ts:251-314 | a put refused before it wrote anything leaves exactly the rows it began on, unless an account was archived meanwhile |
| HomeOutcomes.LandedIsReady | packages/db/src/credential-placements.ts:268-281 | a login that landed stands ready at its path and revision, unless its account was archived |
| HomeOutcomes.RetiredAreGone | packages/db/src/credential-placements.ts:305-313 | once a put is done, no row it removed is left |
| HomeOutcomes.WrittenRow | packages/db/src/credential-placements.ts:261-302 | the row a settlement leaves of a write: at the revision written if the login landed, else the reused row as it was; ready exactly when its account is not archived and the person's own login was not left there |
| HomeOutcomes.WrittenRowIsLeft | packages/db/src/credential-placements.ts:261-314 | each login that landed and each row reused has one |
| HomeOutcomes.OtherRow | packages/db/src/credential-placements.ts:261-314 | any other row: gone if removed and done, back if refused and not archived, on its way out if archived meanwhile or a login landed at its path or was found there, else as it was |
| HomeOutcomes.NothingElse | packages/db/src/credential-placements.ts:251-314 | a settlement leaves no other row |
| HomeOutcomes.StaleMeans | packages/db/src/credential-placements.ts:283-289 | the stale flag, by accounts alone: some login that landed is archived or no longer at the revision written |
| HomeOutcomes.StandingSurvives | packages/db/src/credential-placements.ts:66-73 | settling what is in doubt spares exactly the ready rows at whose path nothing is being written |
| HomeOutcomes.PruneThenRemove | packages/db/src/credential-placements.ts:318-343 | after pruning and its removal, exactly the ready rows that stood and are in use or a default at its present revision are left |
| HomePlan.PlannedPutIsOk | packages/db/src/credential-placements.ts:106-145 | the put made of a plan meets the protocol's premises |
| HomePlan.PlanAnswers | packages/db/src/credential-placements.ts:119-135 | no selected login goes unanswered: a placed key is kept, and any other is pinned out by a live row of another login, written over the row that holds it, or written anew |
| HomePlan.PlanRemoves | packages/db/src/credential-placements.ts:136-143 | a removed provider's login goes unless a live row holds it, which is pinned, and so do its keys no running process holds |
| HomePlan.WritesOnlyAsked | packages/db/src/credential-placements.ts:112-131 | a planned write is of a selected login, over the ready row of that very login or where no running process holds another |
| HomePlan.KeepsOnlyAsked | packages/db/src/credential-placements.ts:112-121 | a kept key is a selected Claude key at the ready row of that very login |
| HomePlan.PinsOnlyHeld | packages/db/src/credential-placements.ts:122-143 | a pinned row is ready, held by a running process, and removed or selected with another login |
| HomePlan.RemovesOnlyAsked | packages/db/src/credential-placements.ts:132-143 | what a plan removes is of a removed provider, and no running process holds it |
| HomePlan.PutKeepsLive | packages/db/src/credential-placements.ts:106-314 | under any answer or none, a live ready row the put does not reuse keeps its id, path and ready state, no write goes to its path, and its file stays as it is whatever effects of the script land, but that a login the person took away may be there again |
| RecordEvents.NormalizedColumns | packages/telemetry/src/normalize.ts:206-243 | every column of a normalized event is the envelope's own |
| RecordEvents.ChunkColumns | packages/telemetry/src/normalize.ts:127-221 | an output chunk's payload and scrollback name its content alike: the hash of the bytes sent, or the artifact already stored |
| RecordEvents.OtherColumns | packages/telemetry/src/normalize.ts:191-204 | a process start keeps how many arguments there were and how long each was, the daemon's own count when the text was withheld, and no text |
| RecordEvents.Utf8LengthAdds | packages/db/src/withheld-arguments.ts:14-17 | a length is in UTF-8 bytes, one to four a character |
| RecordEvents.WithholdingIsIdempotent | packages/telemetry/src/normalize.ts:68-84 | withheld arguments stay withheld, and a payload is left alone exactly when there were none |
| RecordEvents.RowRoundTrip | packages/telemetry/src/normalize.ts:207-307 | a normalized event reads back from its row as itself but for its bytes, and of arguments only count and lengths are kept |
| RecordEvents.NoDifferencesMeansSame | packages/telemetry/src/redelivery.ts:37-54 | nothing differs exactly between copies of the same facts |
| RecordEvents.DifferencesByColumn | packages/telemetry/src/redelivery.ts:37-55 | a difference is named by the column the copies differ in |
| RecordEvents.HoldsMeansNoDifferences | packages/telemetry/src/redelivery.ts:33-67 | a redelivery has no differences exactly when the stored row is that event in a run that holds it |
| Redelivery.SplitDuplicateIds | packages/telemetry/src/redelivery.ts:128-157 | the loop and its map compute each id's first event and the in-batch conflicts |
| Redelivery.UniqueExactly | packages/telemetry/src/redelivery.ts:124-157 | an event is kept by the split exactly when it is the first with its id |
| Redelivery.BatchConflictsExactly | packages/telemetry/src/redelivery.ts:128-157 | the in-batch conflicts name exactly the ids reused for other facts or another run |
| Redelivery.BatchConflictTells | packages/telemetry/src/redelivery.ts:128-157 | a conflict within a batch is of a later event with an id, with its own run and position and the columns that differ from the first's |
| Redelivery.ConflictingRedeliveries | packages/telemetry/src/redelivery.ts:93-122 | the loop over skipped events, with its two indexes, computes the conflicts against the log |
| Redelivery.LogConflictsExactly | packages/telemetry/src/redelivery.ts:88-122 | the conflicts against the log name exactly the skipped events it does not hold |
| Redelivery.LogConflictTells | packages/telemetry/src/redelivery.ts:94-126 | a conflict against the log is of an event the insert left, with its run and position, the other event at that position if there is one, and what differs |
| Redelivery.ReadBackIsEnough | packages/telemetry/src/sink.ts:112-141 | the rows read back by id or position give the same conflicts as the whole log |
| RecordStore.Store.AppendBatch | packages/telemetry/src/sink.ts:184-279 | one append, with its read-back, computes the log, result and epochs the lemmas are about; the epoch's last sequence is at least every committed one and is the one it had or a committed one, and nothing else of the epochs changes |
| RecordStore.Store.CloseEpoch | packages/telemetry/src/sink.ts:302-342 | closing raises the epoch to the highest logged sequence, never lowers it, and records an early close once |
| RecordStore.Store.OpenEpoch | packages/telemetry/src/sink.ts:164-182 | the runtime has an epoch and every epoch there was is as it was; the sequence to resume from is one the log holds of the runtime, none it holds is above it, and there is none exactly when it holds no event |
| RecordStore.HighestSequence | packages/telemetry/src/sink.ts:241-246 | the loop finds the sequence of an event of the batch, and no event of it has a higher one |
| RecordStore.TablesGrow | packages/telemetry/src/sink.ts:204-229 | the projections written for what an append committed are those of the whole log after it |
| RecordStore.TimelineColumns | packages/telemetry/src/normalize.ts:310-321 | a timeline row is of a logged event, each column the event's own, at its monotonic time |
| RecordStore.TimelineIsWhole | packages/telemetry/src/sink.ts:229-232 | each logged event has its row, unless one of its id, or of its run at its sequence, was there |
| RecordStore.ScrollbackColumns | packages/telemetry/src/normalize.ts:323-347 | a scrollback row is of a logged chunk, with the event's own scrollback and sequence |
| RecordStore.ScrollbackIsWhole | packages/telemetry/src/sink.ts:234-239 | each logged chunk has its row, unless one of its id, or of its run, process, stream and offset, was there |
| RecordSink.AfterShape | packages/telemetry/src/sink.ts:206-214 | the events an append reports as committed are exactly those the log gained, in order |
| RecordSink.MaxSequenceIsHighest | packages/telemetry/src/sink.ts:92-105 | the highest sequence is that of a logged event of the runtime, and none is above it |
| RecordSink.NeverLowered | packages/telemetry/src/sink.ts:247-258 | no epoch's last sequence is lowered, whichever writer commits last, and raising twice is raising once |
| SpanPlaces.PlacesTellApart | packages/telemetry/src/sink.ts:143-158 | the text joined of a span's kind and sequences is the same exactly for spans of one kind and place |
| SpanPlaces.PlaceTexts | packages/telemetry/src/sink.ts:147-158 | the texts themselves |
| SpanPlaces.DecimalDigits | packages/telemetry/src/sink.ts:150-154 | the sequences in them are in decimal |
| RecordSink.ReplayAddsNoSpan | packages/telemetry/src/sink.ts:143-158 | ingesting a stream again records no loss twice |
| AppendVerdicts.SuccessMeansHeld | packages/telemetry/src/sink.ts:184-279 | an append succeeds exactly when no id is reused in its batch and the log then holds every event of it, in a run that holds it |
| AppendVerdicts.ConflictsExactly | packages/telemetry/src/sink.ts:261-277 | a failed append names exactly the ids reused in the batch and those of events the log does not hold |
| AppendVerdicts.NamedExactlyWhenNotHeld | packages/telemetry/src/redelivery.ts:88-157 | an event whose id the batch does not reuse is named exactly when the log does not hold it |
| AppendVerdicts.StoresWhatItCan | packages/telemetry/src/sink.ts:204-214 | whatever the verdict, an event of the batch, one an id, is itself stored exactly when neither the log nor what the append stored before it holds its id or position |
| AppendVerdicts.FreeIsStored | packages/telemetry/src/sink.ts:204-214 | so one whose id and position no logged and no earlier event has goes into the log, conflict or not |
| AppendVerdicts.AppendKeepsLog | packages/telemetry/src/sink.ts:204-214 | after any append no two logged events share an id or a position |
| AppendVerdicts.AppendingAgain | packages/telemetry/src/sink.ts:107-111 | appending a batch again changes nothing and gives the same conflicts |
| AppendVerdicts.NamedThoughHeld | packages/telemetry/src/redelivery.ts:128-157 | a batch that reuses an id has it named although the log holds one of its events |
| Attribution.CollectExecutionIds | packages/telemetry/src/attribution.ts:31-39 | the loop collects the distinct non-empty execution ids |
| Attribution.AttributesHome | packages/telemetry/src/attribution.ts:21-88 | each event goes to the run its execution names when that is in the default run's workspace, to the default run otherwise, and never to another workspace's run |
| Attribution.AttributionCache.ResolveAttributions | packages/telemetry/src/ingester.ts:77-102 | with a cache that asks only for unknown ids, the answer is what the resolver would say of all |
| Convergence.NoAppendConflicts | packages/telemetry/src/exec-run.ts:138-198 | no append of a recorder or the ingester conflicts, under any batching, interleaving and retry |
| Convergence.HoldsWhatWasDelivered | packages/telemetry/src/ingester.ts:130-162 | the log holds exactly the events delivered, each once |
| Convergence.WritersConverge | packages/telemetry/src/sink.ts:184-279 | two schedules that deliver the same events end in logs of the same events, differing at most in the run of untagged ones |
| Convergence.CopyConflictsExactly | packages/telemetry/src/redelivery.ts:27-34 | a copy is refused exactly when it is tagged and stored neither in the run it names nor in the one it is appended for, as after a failed lookup |
| Projection.Projections.Rebuild | packages/telemetry/src/projector.ts:33-64 | the rebuild deletes the run's rows and inserts those its log gives |
| ProjectionEquality.OrderedRows | packages/telemetry/src/projector.ts:40-45 | the rebuild reads exactly the run's rows, by runtime and sequence |
| ProjectionEquality.TimelineAgrees | packages/telemetry/src/projector.ts:1-8 | the rebuilt timeline is the ingested one exactly when, wherever runtimes of the run share a sequence, the event committed first there is the earliest runtime's |
| ProjectionEquality.OneRuntimeAgrees | packages/telemetry/src/projector.ts:1-8 | a run of one runtime always rebuilds to its timeline |
| ProjectionEquality.RestartedRunDiffers | packages/telemetry/src/projector.ts:33-64 | a run whose daemon restarted, where it does not |
| ProjectionEquality.LaterRuntimeFirst | packages/telemetry/src/projector.ts:33-64 | it fails for every pair at one sequence whose later runtime was committed first |
| ProjectionEquality.RebuildSparesOthers | packages/telemetry/src/projector.ts:33-64 | a rebuild leaves other runs' timelines as they are |
| ProjectionEquality.RebuildSparesOtherScrollback | packages/telemetry/src/projector.ts:33-64 | and their scrollback |
| ProjectionEquality.ScrollbackAgrees | packages/telemetry/src/projector.ts:56-61 | the rebuilt scrollback has rows of the same events exactly when, wherever chunks of the run share a process, stream and offset, the one committed first is the first in the log's order |
| ProjectionEquality.RestartedScrollbackDiffers | packages/telemetry/src/projector.ts:56-61 | a run whose daemon restarted and wrote one stream again, where it does not |
| ProjectionEquality.LaterChunkFirst | packages/telemetry/src/projector.ts:56-61 | it fails for every pair of chunks at one spot committed against the log's order |
| ProjectionEquality.RebuildNamesDroppedContent | packages/telemetry/src/output-budget.ts:56-66 | rows of the same event differ at most in the content the budget dropped, which a rebuild names again |
| OutputBudget.OutputBudgetState.ApplyOutputBudget | packages/telemetry/src/output-budget.ts:32-69 | the loop and its counters compute the budget, and the loss is reported once, at the first dropped chunk |
| OutputBudget.StoresWithinBudget | packages/telemetry/src/output-budget.ts:1-12 | what is stored is exactly the content kept and never passes the budget |
| OutputBudget.KeepsEveryEvent | packages/telemetry/src/output-budget.ts:39-67 | every event stays with all a redelivery compares; content goes exactly from those whose bytes do not fit on top of what was stored before, and their scrollback then names none |
| OutputBudget.CountsBytesKept | packages/telemetry/src/output-budget.ts:40-46 | the count grows by the bytes of each content kept |
| OutputBudget.ReportsTheFirst | packages/telemetry/src/output-budget.ts:47-55 | the loss reported is the first event whose content is taken; without one every event is kept whole |
| OutputBudget.BudgetedIsIngestable | packages/telemetry/src/output-budget.ts:56-66 | a budgeted event is one the projections take as ingested |
| OutputBudget.BatchingDoesNotMatter | packages/telemetry/src/output-budget.ts:32-69 | how the stream is cut into batches does not change what is stored |
| OutputBudget.SmallerChunkStillStored | packages/telemetry/src/output-budget.ts:3-6 | a chunk after the first dropped one can still be stored |
| StreamGaps.GapDetection.DetectGap | packages/telemetry/src/normalize.ts:350-389 | one event reports its own marker's loss, else the sequences it skipped, and raises its runtime's mark alone |
| StreamGaps.PiecesTile | packages/telemetry/src/normalize.ts:350-389 | the stretches accounted for lie end to end from the seed to the mark, in any arrival order |
| StreamGaps.ReportsTheGaps | packages/telemetry/src/normalize.ts:375-383 | the gap spans reported for a runtime are exactly its gap stretches |
| StreamGaps.PiecesArrived | packages/telemetry/src/normalize.ts:356-374 | a raising stretch is an event that arrived; a skipped one lies just before a marker that did |
| StreamGaps.GapAccounting | packages/telemetry/src/ingester.ts:104-128 | each sequence from the seed to the mark is in exactly one stretch, gaps are reported, and the sizes add up to the distance |
| Reassembly.ReassembleByStreamOffset | packages/telemetry/src/normalize.ts:392-412 | the loop computes the joined bytes and the gaps of the sorted chunks |
| Reassembly.ByOffsetSorts | packages/telemetry/src/normalize.ts:398-400 | sorting orders the chunks by offset and loses none |
| Reassembly.SortIsStable | packages/telemetry/src/normalize.ts:398-400 | chunks at one offset stay in the order they came |
| Reassembly.GapsAreMissing | packages/telemetry/src/normalize.ts:401-410 | the gaps are exactly the positions missing between the first chunk and the last |
| Reassembly.ReassemblyUndoesChunking | packages/telemetry/src/normalize.ts:391-412 | cut any bytes into pieces, drop any, deliver the rest in any order: the kept pieces come back in order, and the gaps are the maximal missing stretches |
| Reassembly.NothingDroppedNothingLost | packages/telemetry/src/normalize.ts:391-412 | with nothing dropped the bytes come back whole, with no gap |
| TokenBucket.MinuteRefills | apps/ssh-gateway/src/admission.ts:159-164 | a minute in which nothing is taken leaves a full budget, whatever was left of it |
| TokenBucket.FullBudgetServes | apps/ssh-gateway/src/admission.ts:218-233 | a full budget serves exactly as many lookups at once as it is for |
| AdmissionControl.Admission.RunsTheBucket | apps/ssh-gateway/src/admission.ts:159-238 | every source's level, tracked, swept or never seen, is what the operations so far, as one run of a token bucket, leave of a full budget |
| AdmissionControl.Admission.AnyWindow | apps/ssh-gateway/src/admission.ts:12-19 | over any stretch of the operations, the takes of a source less its refunds come to at most its budget and what the time between the first and last of them refills, whatever was swept or started anew |
| AdmissionControl.Admission.Admit | apps/ssh-gateway/src/admission.ts:173-204 | a connection is refused for the first of the limits it meets and counted exactly once otherwise; no source's level changes, even one started anew |
| AdmissionControl.Admission.RefusedExactly | apps/ssh-gateway/src/admission.ts:185-195 | why a connection is refused, by the connections open overall and from its source and the lookups left |
| AdmissionControl.Admission.RoomExactly | apps/ssh-gateway/src/admission.ts:178-184 | when there is room: the source is tracked, or fewer than 100,000 are, if need be after a sweep |
| AdmissionControl.Admission.TakeKeyLookup | apps/ssh-gateway/src/admission.ts:218-233 | a take succeeds exactly when a lookup is left, and lowers the level of the source whose state is live, no other |
| AdmissionControl.Admission.RefundKeyLookup | apps/ssh-gateway/src/admission.ts:234-238 | a refund raises the level of the source whose state is live, up to the budget, no other |
| AdmissionControl.Admission.Release | apps/ssh-gateway/src/admission.ts:205-211 | logging in or closing stops the count once, however often and in whatever order |
| AdmissionControl.Admission.Sweep | apps/ssh-gateway/src/admission.ts:166-171 | a sweep keeps exactly the sources with something open or a budget not full, and changes no level |
| AdmissionControl.Admission.SweptExactly | apps/ssh-gateway/src/admission.ts:166-171 | the sources a sweep keeps, by their open connections and what is left of their budget |
| AdmissionControl.Admission.TimePasses | apps/ssh-gateway/src/admission.ts:156-164 | between operations a level refills by its budget a minute, up to its budget; a source not tracked has all of it; and the state of every ticket not released is live |
| AdmissionControl.Admission.MinuteOfRest | apps/ssh-gateway/src/admission.ts:12-19 | a source that took nothing for a minute, whoever else did, has its whole budget: it is not refused for lack of lookups, and may take as many at once as the budget is for |
| AdmissionControl.Admission.StartupConservation | apps/ssh-gateway/src/admission.ts:156-211 | the overall count is the sum over sources and the number of tickets neither logged in nor closed, within both limits |
| ExecRun.Execution.Execute | packages/telemetry/src/exec-run.ts:500-600 | commands in order, at most once, none after one whose exit was not seen or once the budget is spent; completed only with every exit seen; a terminal run or the error that says what is unknown; not created with a row exactly when the create landed unanswered; always within the budget, and nothing at all when that is no more than what is kept for after the commands |
| ExecRun.SharesOfBudget | packages/telemetry/src/exec-run.ts:494-516 | the shares of a budget in numbers: a step is a tenth, ten seconds at most; three steps and the sync-back are kept for after the commands |
| ExecRun.CodeOfLast | packages/telemetry/src/exec-run.ts:300-354 | the exit code of a completed run is its last command's |
| ExecRun.Execution.ExecuteInterrupted | packages/telemetry/src/exec-run.ts:497-580 | a caller that goes away at any instant: no command is sent from then on, and a run that was created is settled within two waits unless its failure's write is not confirmed in time |
| ExecRun.CreatedButNotAnswered | packages/telemetry/src/exec-run.ts:390-394 | a run reported as not created whose row is there, queued |
| ExecRun.Execution.Produce | packages/telemetry/src/exec-run.ts:300-354 | the loop sends and settles as above, and completes a run in which nothing goes wrong, with the last exit code |
| ExecRun.Execution.RunCommand | packages/telemetry/src/exec-run.ts:201-262 | one command's exec is sent at most once, and its exit code is given only when seen and recorded |
| ExecRun.Execution.FailStopped | packages/telemetry/src/exec-run.ts:423-440 | a settled run is never written over as failed, and the run is settled exactly when the write is confirmed in time |
| Retention.Records.DeleteExpiredRunRecords | packages/telemetry/src/retention.ts:32-117 | terminates; within both limits; rows go only from runs finished before the instant, oldest first, and are accounted for; a run newly marked has no row in any table; a call under its limit leaves no such run unmarked |
| Retention.Records.EmptyTable | packages/telemetry/src/retention.ts:82-106 | the inner loop empties the table or stops exactly at the call's limit |
| Retention.Records.OldestExpired | packages/telemetry/src/retention.ts:62-78 | the run taken next is expired and finished no later than any other |
| Retention.SweptOn | packages/telemetry/src/retention.ts:60-113 | deleting one more run's record keeps the accounting, the order and the marks of the call so far |
| BootContract.RefinesHistory | packages/workspaces/boat-image/guest_contract.py:109-124 | timed out exactly when an observation came at or after the deadline; otherwise compatible exactly when the clean observations of the latest profile that end the history reach the minimum |
| BootContract.RunTimesOut | packages/workspaces/boat-image/guest_contract.py:113-118 | timing out is for good, and always gives a reason |
| BootContract.TimesOutWith | packages/workspaces/boat-image/guest_contract.py:115-118 | the reasons it times out with: those of the first late observation, else of the last one before it, else the deadline |
| BootContract.RunKeepsBinding | packages/workspaces/boat-image/guest_contract.py:109-124 | no observation changes the binding, the deadline or the admission |
| BootContract.BlockIsLongest | packages/workspaces/boat-image/guest_contract.py:121-124 | the block counted is the longest run of clean observations of one profile at the end of the history |

## Left out

- HomeRuns.EveryRunIsSafe: does not cover an account archived, or a refusal settled, when `HomeProtocol.ArchiveSafe`, `LeftArchiveSafe` or `RefusalSafe` fails, because the promise is false exactly then (`HomeSafety.ArchiveInFlight`, `ArchiveWhenIdle`, `HomeRefusals.RefusalExactly`).
- AdmissionControl.Admission.AnyWindow: does not bound what a released ticket takes from a state a sweep has since forgotten; that state is no source's.
- RecordSink.SpanIdsTellApart: run and runtime ids are keys, not text joined into the id; only the place is text.
- Postgres, Drizzle, fibers, job queues and the daemon's transport: each transaction is one step, each effect has an outcome and a duration.
- Another writer committing between an append and its read-back: each append is one transaction followed at once by its read-back.
- Hashes, artifact bytes in the store, JSON text and key order: a payload is a value with equality, content carries its hash.
- Summaries, messages, logging, `reported` flags of the gateway, creation stamps and the five-conflict message: no property rests on them. A timeline row's summary is a function of its kind and payload.
- Plans made on rows that an archive changes before the put begins: then beginning answers that accounts moved.
- Archiving between a removal's script and the forgetting of its rows: it changes only which rows are removing afterwards.
- A removal refused because the home is missing or was taken by another hold, and a put that takes a home, which also removes every login it does not write: the puts modelled are into a home already held.
- The checks a script makes before it writes anything, and their marker, lock and directories: each is a refusal that changes no file.
- Repeated chunks in reassembly: each kept chunk is delivered once.
- Epoch ids that share a run and the first eight characters of a runtime id: an epoch is told apart by its run and runtime.
- `sourceOf` and IPv6 text, the login grace timer and rounding in the refill: a source is an opaque key, lookups are exact.
- The sync-back after an exec run's caller went away, and the queued path's own credential sync-back.
- Which rows of a table a deletion takes: tables are counted per run.
- Duplicate event ids across runtimes, retries of a failed read-back, and growth of the runs table while a stream is recorded.
- `mapping_failures`, approvals and receipts of the boot check, environment validators, credential parsing, query and SDK facades: straight-line checks.
