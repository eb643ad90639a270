# HAPatchY, verified

A Dafny model of HAPatchY, a Home Assistant integration that keeps unified-diff patches applied to files of the
configuration directory, and proofs about it. `dafny verify dfyconfig.toml` checks everything.

## What is modelled

- **Patches.** Line endings (`LineEndings`), the strict unified-diff parser (`PatchParser`), the unique whole-line
  matcher and the two-direction applier (`PatchEngine`), the builder that widens its context until the patch is
  exact (`PatchBuilder`). `PatchPrinter` prints the format of the POSIX.1 `diff` utility, section "Diff -u or -U
  Output Format", and says exactly which texts the parser accepts. `PatchInverse`, `PatchRoundTrip`,
  `ParsedPatches`, `LineSearch` and `BuilderComplete` hold the theorems; `BuilderBreaks` says when the builder gives up.
- **The guarded write.** A disk others write to at any moment, with any system call failing (`Transaction`), backups
  and their pruning (`Backups`), the bounded retry (`Reconciling`), and what an honest account of a run means
  (`WriteSafety`). When calls go wrong is given from outside (`Outside`), so that it can be said what happens when none
  does.
- **The runtime.** Definitions as they are read and saved (`Definitions`); the event loop as a state machine whose
  steps are what runs between two awaits (`RuntimeSteps`), an invariant of all interleavings (`RuntimeSafety`), its
  consequences (`RuntimeTheorems`), which file events are followed by an action (`RuntimeEvents`), what a revert leaves
  behind (`RuntimeReverts`), what a patch shows (`RuntimeStates`), what is admitted, heard and stored
  (`RuntimeService`), runs that show where a guarantee ends (`RuntimeLimits`), and the runtime and watcher as objects
  that do exactly those steps and keep that invariant (`Runtime`).
- **YAML authority.** The bounded include walk (`SourceGraph`, and as an object `Scanner`), what a complete scan has
  seen (`ScanSafety`, `ScanTheorems`), exactly which configurations are scanned completely (`ScanComplete`,
  `ScanShape`) and what is then on record (`ScanReach`), an evaluator of includes and the theorem that the scan's
  authority fixes the grants (`GrantSafety`), configurations outside its conditions (`ScanLimits`), and the frozen
  policy (`YamlPolicy`).
- **The patch store.** Publishers interleaved system call by system call over names, inodes and bytes
  (`ManagedStore`).

A text is a sequence of characters with its UTF-8 length; a content stands for its own hash. What happens outside is
not the code's choice: an arbitrary function of the moment says when a system call of the disk, the backups or the patch
store fails and when an outside writer acts; a task is resumed or not at any point of a run. Bookkeeping no code reads
(event logs, histories, what is true of the disk) is kept in ghost fields, or in a part of the state named for it.

## Where the code falls short of its description

Each of these has a lemma with a concrete input or run, and the theorem beside it says when the property holds.

- A CRLF target whose patched text has no newline left reverts to LF (`CrlfIsLost`; condition in `RevertAfterApply`).
- A hunk side without final newline can match in mid-file and not revert (`UnanchoredDoesNotRevert`; exact condition
  in `UndoneIffUnique`), and a patch may apply to its own output (`AppliesAgain`).
- The builder breaks lines where Python's `splitlines` does, so a form feed in the context of an edit can make it give
  up (`FormFeedIsRefused`; exact condition for a patch of the whole texts in `FullContextIff`).
- A reconcile queued before suppression still runs (`QueuedReconcileStillRuns`), and a denied watch root erases the
  reason suppression is restored from (`DenialErasesSuppression`; exact condition in `ReloadSuppresses`).
- A revert whose setting cannot be saved overwrites `durability_unconfirmed`, and the next action does not know of
  the owed sync (`RevertOverwritesDurability`; exact condition in `RevertKeepsRecordIff`). A reload that cannot read
  the states back loses the record too (exact condition in `ReloadKeepsRecordIff`). Without either, over all runs, the
  sync of a patch stays on record (`UnconfirmedStaysOnRecord`) and comes before the next rename (`NoReplaceBeforeSync`).
- File events can be left without a check: by an unload that fails with an exception (`FailedUnloadMissesEvents`), by
  any reload of a patch whose startup reconcile is off (`ReloadMissesEvents`), and by a check that starts at once, is
  refused, and is stored when it is already over, after which the watcher only ever marks its patch
  (`StaleCheckMissesEvents`; exact condition for such a check in `DeafIffRefusedAtOnce`). The exact condition for a lost
  event, over all runs, is in `LostIffDropped`: besides these three, an entry that is edited and comes to match again
  without a reload. In every other run `NoEventIsLost` holds.
- An unload that is refused or fails while Home Assistant stops reopens admission behind the close
  (`RefusedUnloadUndercutsClose`; exact condition in `OnlyUnloadReopens`, and without it `CloseIsFinal`).
- A merge key below the root, or a directory included by names in the place of `homeassistant`, hides a grant source
  (`MergeKeyEscapes`, `NamedDirectoryEscapes`; condition in `AuthorityFixesGrants`).
- A missing include inside a secrets file is taken for a missing secrets file (`IgnoredIncludeEscapes`; the
  scan protects what is reached when it ignored nothing, `ReachedIsProtected`; exact condition for that in
  `NothingIsSwallowed`).
- A publisher that stops between its link and its unlink leaves a revision with two names, which the guarded read
  refuses from then on (`OneStopLoses`; exact conditions in `UnreadableWhileAliased` and `LostIffAbandoned`). A save
  that reported success is never affected (`SavedThenLoaded`).

## Model

| member | source | states |
|---|---|---|
| `LineEndings.NormalizeExact` | custom_components/hapatchy/patch_engine.py:27-39 | Text is accepted exactly when it is within the limit, has no NUL, and is uniformly LF or uniformly CRLF; normalising and re-expanding is then the identity |
| `LineEndings.CollapseExpand` | custom_components/hapatchy/patch_engine.py:36-39 | Expanding LF text to CRLF and collapsing it again gives the text back |
| `PatchEngine.LocationIsUnique` | custom_components/hapatchy/patch_engine.py:118-131 | A position is a location exactly when it is the only place where the block covers whole lines of the whole text |
| `PatchEngine.UniqueLocation` | custom_components/hapatchy/patch_engine.py:118-131 | The find loop returns that location, and None for no place or several |
| `PatchEngine.AlignCuts` | custom_components/hapatchy/patch_engine.py:169-186 | An alignment of hunks cuts the text into gaps and the hunks' old sides, in order, each found at its only place |
| `PatchEngine.CollectReplacements` | custom_components/hapatchy/patch_engine.py:171-179 | The first loop collects the replacements of that alignment, or finds that there is none |
| `PatchEngine.Assemble` | custom_components/hapatchy/patch_engine.py:180-186 | The second loop builds the text in which every old side is replaced and every gap kept |
| `PatchEngine.Direction` | custom_components/hapatchy/patch_engine.py:169-186 | One direction of a patch: the rewritten text of the alignment, or None |
| `PatchEngine.Inspect` | custom_components/hapatchy/patch_engine.py:188-208 | Status, reason and output of an inspection, in both directions, with endings and limits |
| `PatchEngine.RewritesExactly` | custom_components/hapatchy/patch_engine.py:169-186 | One direction gives an output if and only if some cut of the text by all hunks, each at its only whole-line place, reads as that output with the other sides |
| `PatchEngine.StatusExactly` | custom_components/hapatchy/patch_engine.py:188-208 | A readable target is a conflict exactly when the hunks rewrite it in neither direction, ambiguous exactly when in both, and applicable or applied when in that direction alone and within the limit |
| `LineSearch.ScanIsLineSearch` | custom_components/hapatchy/patch_engine.py:118-131 | For newline-terminated blocks the byte scan finds a position exactly when the block's lines occur once as a run of the text's lines, and it is the offset of that run |
| `LineSearch.ScanFindsNothing` | custom_components/hapatchy/patch_engine.py:118-131 | The byte scan finds nothing exactly when the run occurs not at all or more than once |
| `LineSearch.RunIsWholeLine` | custom_components/hapatchy/patch_engine.py:118-131 | Each index of a run of lines is a whole-line position at its offset |
| `LineSearch.WholeLineIsRun` | custom_components/hapatchy/patch_engine.py:118-131 | Each whole-line position is the offset of a run of lines |
| `PatchInverse.UndoneIffUnique` | custom_components/hapatchy/patch_engine.py:169-186 | For any hunks at all: the reverse direction restores the text exactly if and only if every new side, where it landed, is the only whole-line occurrence in the output |
| `PatchInverse.ReturnIsSwapped` | custom_components/hapatchy/patch_engine.py:169-186 | A reverse direction that succeeds on the output uses the same cuts with the sides swapped |
| `PatchRoundTrip.ExactInverse` | custom_components/hapatchy/patch_engine.py:118-131 | With newline-terminated sides (the last may be open at end of file) the reverse direction gives exactly the original, or None precisely when some new side occurs more than once |
| `PatchRoundTrip.TerminatedIsAnchored` | custom_components/hapatchy/patch_engine.py:118-131 | Newline-terminated sides meet the condition of the inverse theorem |
| `PatchRoundTrip.InspectAfterApply` | custom_components/hapatchy/patch_engine.py:188-208 | What inspecting the raw output of an apply reports, branch by branch |
| `PatchRoundTrip.RevertAfterApply` | custom_components/hapatchy/patch_engine.py:188-208 | The output reads as applied exactly when each new side occurs once and the patch does not apply again; the revert then restores the raw bytes, unless CRLF left no newline |
| `PatchRoundTrip.AppliedIsStable` | custom_components/hapatchy/patch_engine.py:188-208 | With each new side unique in the output, re-inspection is applied or ambiguous, so nothing is written again |
| `PatchRoundTrip.InspectionMirrors` | custom_components/hapatchy/patch_engine.py:169-208 | Inspecting with all hunks swapped gives the mirrored result |
| `PatchRoundTrip.InspectionCommutesWithCrlf` | custom_components/hapatchy/patch_engine.py:188-208 | Inspecting the CRLF form of an LF text gives the same status and the CRLF form of the output |
| `PatchRoundTrip.UnanchoredDoesNotRevert` | custom_components/hapatchy/patch_engine.py:118-131 | A concrete patch with an open side that matches in mid-file and does not revert |
| `PatchRoundTrip.AppliesAgain` | custom_components/hapatchy/patch_engine.py:169-186 | A concrete patch whose output it applies to again |
| `PatchRoundTrip.CrlfIsLost` | custom_components/hapatchy/patch_engine.py:202-208 | A concrete CRLF target whose revert comes back with LF, because the output has no newline |
| `ParsedPatches.ParsedIsClean` | custom_components/hapatchy/patch_engine.py:137-167 | Hunks of an accepted patch hold neither CR nor NUL |
| `ParsedPatches.PatchFileReverts` | custom_components/hapatchy/patch_engine.py:137-208 | The revert theorem for every patch file the parser accepts |
| `PatchParser.ReadHunk` | custom_components/hapatchy/patch_engine.py:90-115 | The body loop reads both sides, honours newline markers, and checks the declared counts |
| `PatchParser.Parse` | custom_components/hapatchy/patch_engine.py:137-167 | The parser with all its refusals in order; the third-party parser is an oracle that can only refuse |
| `PatchPrinter.PrintParses` | custom_components/hapatchy/patch_engine.py:50-167 | Parser inverts printer: a printed patch parses to exactly the before and after texts of its records |
| `PatchPrinter.ParsedWasPrinted` | custom_components/hapatchy/patch_engine.py:50-167 | Every accepted text is a printed patch: headers, ranges, bodies and markers are forced |
| `PatchPrinter.AcceptedLanguage` | custom_components/hapatchy/patch_engine.py:137-167 | The accepted language, both directions: a text parses to these hunks if and only if it prints them, git headers and index lines included |
| `PatchPrinter.IndexLines` | custom_components/hapatchy/patch_engine.py:54-59 | A line is an index line if and only if it is two abbreviated lower-case hexadecimal hashes with no file mode or that of a regular file |
| `PatchPrinter.HunkHeaderReads` | custom_components/hapatchy/patch_engine.py:74-81 | A printed range header reads back, counts left out included |
| `PatchPrinter.HunkHeaderWasPrinted` | custom_components/hapatchy/patch_engine.py:74-81 | Every accepted range header is a printed one |
| `PatchPrinter.BodyReads` | custom_components/hapatchy/patch_engine.py:90-115 | A printed body reads back as its two sides |
| `PatchBuilder.TryCandidate` | custom_components/hapatchy/patch_builder.py:54-71 | A candidate is kept exactly when it parses, applies to the original and reverts from the edited text, exactly |
| `PatchBuilder.BuildPatch` | custom_components/hapatchy/patch_builder.py:29-74 | The widening loop, with its checks in order, ends and returns the first exact candidate |
| `PatchBuilder.BuiltAtFirstExact` | custom_components/hapatchy/patch_builder.py:37-74 | The result is the candidate of the first exact context among 3, 6, 12 and so on up to the whole texts, if the candidates up to it fit the limit; the limit is reported exactly at the first that does not |
| `PatchBuilder.BuilderDecides` | custom_components/hapatchy/patch_builder.py:37-74 | One of these contexts decides, so for every editable job the result is one of the three, each under its condition |
| `PatchBuilder.EditableExactly` | custom_components/hapatchy/patch_builder.py:12-36 | The builder sets out exactly for a plain target and two different texts within the editor limit, without NUL or CR, that end in a newline; otherwise it fails at once |
| `BuilderComplete.BuiltIsExact` | custom_components/hapatchy/patch_builder.py:54-71 | A patch that was built applies to the original giving the edited text, and reverts from it giving the original |
| `BuilderComplete.BuiltRoundTripsCrlf` | custom_components/hapatchy/patch_builder.py:54-71 | The same for the CRLF forms of both texts |
| `BuilderComplete.FullContextIsOneGroup` | custom_components/hapatchy/patch_builder.py:37-51 | With as much context as there are lines, the diff is one hunk of the whole texts |
| `BuilderComplete.FullCandidateParses` | custom_components/hapatchy/patch_builder.py:43-57 | That candidate parses to the two whole texts |
| `BuilderBreaks.BrokenTextIsRefused` | custom_components/hapatchy/patch_builder.py:37-57 | A text that breaks lines elsewhere than at LF cannot be carried whole: the candidate with all of it does not parse, because a glued line is missing from a count |
| `BuilderBreaks.GluedPrints` | custom_components/hapatchy/patch_builder.py:37-51 | The lines the parser sees print exactly what the diff emitted, and every piece glued to the next is lost to the count of one side at least |
| `BuilderBreaks.FullContextIff` | custom_components/hapatchy/patch_builder.py:54-73 | At full context the candidate is exact if and only if both texts break lines only at LF and neither is uniquely a whole-line block of the other |
| `BuilderBreaks.GivesUpOnlyOnContainment` | custom_components/hapatchy/patch_builder.py:37-74 | The builder reports that context is not unique only on such a containment or such a line break |
| `BuilderBreaks.FormFeedIsRefused` | custom_components/hapatchy/patch_builder.py:37-74 | A concrete edit next to a form feed, neither text containing the other, that the builder gives up on |
| `Definitions.ReadIsSound` | custom_components/hapatchy/models.py:79-123 | Reading an entry gives only definitions that satisfy every check |
| `Definitions.ReadExactly` | custom_components/hapatchy/models.py:79-123 | Reading an entry gives a definition if and only if the entry describes exactly it and it is sound |
| `Definitions.SoundExactly` | custom_components/hapatchy/models.py:79-166 | A definition is sound if and only if its texts are not blank, its target lies below its root, both plain and unprotected, the pattern matches, the source is another such file, a stored revision or an accepted URL, and delay and digest are within their bounds |
| `Definitions.SafePaths` | custom_components/hapatchy/models.py:42-54 | A path is safe if and only if it is made of names, none empty, none a step in place or upwards, and none with a separator or refused character |
| `Definitions.TargetPaths` | custom_components/hapatchy/models.py:42-54 | A target, watch root or local source is accepted if and only if its names are such and lead into no protected directory; each refusal has its reason |
| `Definitions.BelowExactly` | custom_components/hapatchy/models.py:84-88 | A safe target lies below a safe root if and only if it continues the root and a slash, and what is below is the rest |
| `Definitions.NormalForm` | custom_components/hapatchy/models.py:79-110 | A definition read from any entry is saved as one that reads back as the same definition, also with automatic apply changed |
| `Definitions.NormalFormsAreTheRange` | custom_components/hapatchy/models.py:79-167 | The definitions that can be read are exactly those that save and read back unchanged, which are exactly the sound ones |
| `Definitions.TargetPassesFilter` | custom_components/hapatchy/watcher.py:168-173 | The watcher's pattern filter never drops an event on the target of a definition that was read, automatic apply changed or not |
| `Definitions.DisableKeepsStep` | custom_components/hapatchy/coordinator.py:147-175 | Saving a revert's changed setting keeps all runtime definitions equal to the saved entries |
| `Backups.BackupStore.Create` | custom_components/hapatchy/backup.py:39-74 | A backup is complete and durable or an error; at every crash point the others are untouched, and it counts as complete only with all of its bytes; when no call goes wrong it is there with exactly these bytes |
| `Backups.BackupStore.CompleteBackups` | custom_components/hapatchy/backup.py:104-143 | The complete backups, in the order of their names; when no call goes wrong, all of them |
| `Backups.BackupStore.Remove` | custom_components/hapatchy/backup.py:82-97 | Removing one backup touches no other entry, at every step |
| `Backups.BackupStore.Prune` | custom_components/hapatchy/backup.py:76-102 | At every step and crash point the greatest-named complete backups, as many as the retention, are intact, and incomplete entries are neither counted nor removed; when no call goes wrong, pruning succeeds and exactly those complete backups are left |
| `Backups.LastAreRetained` | custom_components/hapatchy/backup.py:80-81 | The last names of the sorted list are exactly the retained ones |
| `Transaction.VerifySnapshot` | custom_components/hapatchy/atomic_writer.py:33-57 | A check that passes means the target is the snapshot and nobody wrote meanwhile |
| `Transaction.BackUp` | custom_components/hapatchy/reconciler.py:132-146 | A complete durable copy of exactly the preimage under a new name, or an error |
| `Transaction.Prepare` | custom_components/hapatchy/atomic_writer.py:32-57 | Two checks around the temporary file and the backup; without a problem the target is still the snapshot |
| `Transaction.Publish` | custom_components/hapatchy/atomic_writer.py:58-68 | The policy check, the documented gap, the rename and the sync, with an honest outcome |
| `Transaction.Commit` | custom_components/hapatchy/atomic_writer.py:18-74 | The outcome says whether the target was replaced; if so the snapshot held up to the check, the backup came first and the output was written once; when no call goes wrong and nobody else writes, the target is replaced by the output |
| `Reconciling.Reconciler.ConfirmDurability` | custom_components/hapatchy/atomic_writer.py:76-81 | An owed sync is settled only for the snapshot just read |
| `Reconciling.Reconciler.Replace` | custom_components/hapatchy/reconciler.py:119-165 | Mutation is recorded exactly when the rename happened, also on errors |
| `Reconciling.Reconciler.ObserveReplacedTarget` | custom_components/hapatchy/reconciler.py:160-165 | After a replace of unknown durability the reported hash is that of the target as it is, or none if reading it fails |
| `Reconciling.Reconciler.Act` | custom_components/hapatchy/reconciler.py:107-117 | Inspect, and write what the action calls for: if nothing was written there was nothing to write, the reported error is that of the inspection, and when nothing goes wrong the target holds the output |
| `Reconciling.Reconciler.Attempt` | custom_components/hapatchy/reconciler.py:88-117 | One attempt: policy, parse, read, settle durability, inspect, act; when nothing goes wrong the action is carried out |
| `Reconciling.Reconciler.Again` | custom_components/hapatchy/reconciler.py:70-85 | One attempt after others that wrote nothing, with the exact condition on which another follows |
| `Reconciling.Reconciler.Attempts` | custom_components/hapatchy/reconciler.py:70-86 | The retry loop always returns, after at most three attempts, with the promises of one attempt for all of them |
| `Reconciling.Reconciler.Run` | custom_components/hapatchy/reconciler.py:59-86 | Up to three attempts: at most one rename, reported exactly, honest, with the durability report the runtime relies on; a run that looked and wrote nothing had nothing to write; when nothing goes wrong the action is carried out; and when no call fails, outside writers stop it only by removing the target, making it too long, or writing three times |
| `WriteSafety.RenamesOnce` | custom_components/hapatchy/reconciler.py:59-158 | Among the events of a run there is exactly one rename, where its account says |
| `WriteSafety.OutsideChangesSurvive` | custom_components/hapatchy/atomic_writer.py:52-63 | An outside change seen before the last check is never overwritten; for a revert, or when the definition asks for it, a backup of the exact preimage is stored, complete and durable, at the rename |
| `WriteSafety.PermittedTwice` | custom_components/hapatchy/atomic_writer.py:57-62 | Nothing is replaced without permission: the policy was asked before the target was read, and again after the last check, with only outsiders acting in between |
| `WriteSafety.OwedSyncComesFirst` | custom_components/hapatchy/reconciler.py:99-103 | A run that owes a directory sync gets one before it renames anything |
| `WriteSafety.ReconcileIsIdempotent` | custom_components/hapatchy/reconciler.py:40-117 | Over runs: no apply or reconcile, whatever it met, replaces bytes an earlier one wrote, when each new side is unique in them |
| `WriteSafety.EditorRoundTrip` | custom_components/hapatchy/reconciler.py:40-117 | Over runs with a built patch: replacing the original writes exactly the edit and is no revert, replacing the edit is a revert and writes exactly the original |
| `WriteSafety.EditorOutputs` | custom_components/hapatchy/reconciler.py:40-47 | What every action has to write over the original and over the edit of a built patch |
| `Runtime.SetUp` | custom_components/hapatchy/coordinator.py:28-101 | Setup from an entry and the stored reasons: exactly the state runs start from and reloads lead to, or a refusal; a first runtime satisfies the invariant |
| `Runtime.PatchManagerRuntime.RestoreGates` | custom_components/hapatchy/state_store.py:20-53 | Only the two safety reasons are restored |
| `Runtime.PatchManagerRuntime.SettleStatuses` | custom_components/hapatchy/coordinator.py:78-101 | First statuses, with the refusal of unpinned URL sources |
| `Runtime.PatchManagerRuntime.AsyncLoad` | custom_components/hapatchy/coordinator.py:70-101 | Load: gates, suppression, statuses |
| `Runtime.PatchManagerRuntime.AsyncAction` | custom_components/hapatchy/coordinator.py:210-222 | Admission; keeps the invariant of all interleavings |
| `Runtime.PatchManagerRuntime.ScheduleEach` | custom_components/hapatchy/coordinator.py:103-116 | The loop schedules one background reconcile for each enabled patch, on startup only for those that ask for it |
| `Runtime.PatchManagerRuntime.AsyncStart` | custom_components/hapatchy/coordinator.py:103-107 | Startup looks at exactly the enabled patches with startup reconcile on, and opens the runtime; keeps the invariant of all interleavings |
| `Runtime.PatchManagerRuntime.WatchAvailable` | custom_components/hapatchy/coordinator.py:131-136 | A watch root came or went; keeps the invariant of all interleavings |
| `Runtime.PatchManagerRuntime.WatchDenied` | custom_components/hapatchy/coordinator.py:138-145 | A denied root; an owed sync stays on record; keeps the invariant of all interleavings |
| `Runtime.PatchManagerRuntime.TaskStarts` | custom_components/hapatchy/coordinator.py:224-235 | The lock is taken and the configuration checked again; keeps the invariant of all interleavings |
| `Runtime.PatchManagerRuntime.DisableAutoApply` | custom_components/hapatchy/coordinator.py:161-175 | Runtime and entry have automatic apply off, or the runtime is changed back |
| `Runtime.PatchManagerRuntime.TaskReturns` | custom_components/hapatchy/coordinator.py:253-275 | The result is back: the revert's setting, suppression, refresh or record; keeps the invariant of all interleavings |
| `Runtime.PatchManagerRuntime.TaskSaved` | custom_components/hapatchy/coordinator.py:276-282 | States saved or not, lock released, busy mark gone, marked patches asked for again; keeps the invariant of all interleavings |
| `Runtime.PatchManagerRuntime.UnloadRefused` | custom_components/hapatchy/__init__.py:105-119 | A refused unload admits again and schedules every enabled patch; keeps the invariant of all interleavings |
| `Runtime.PatchManagerRuntime.UnloadFails` | custom_components/hapatchy/__init__.py:105-113 | An unload that fails admits again and schedules nothing; keeps the invariant of all interleavings |
| `Runtime.PatchManagerRuntime.AsyncClose` | custom_components/hapatchy/coordinator.py:319-324 | The beginning of a close; keeps the invariant of all interleavings |
| `Runtime.PatchManagerRuntime.CloseSaves` | custom_components/hapatchy/coordinator.py:334-337 | The last save under the lock; keeps the invariant of all interleavings |
| `Runtime.PatchWatcher.HandleEvent` | custom_components/hapatchy/watcher.py:153-173 | The loop over definitions asks for a check of exactly the enabled patches whose target the event names and whose pattern matches it, none for a directory; keeps the invariant of all interleavings |
| `Runtime.PatchWatcher.Fire` | custom_components/hapatchy/watcher.py:186-211 | A timer becomes a check, or a mark while the patch is busy; a check that starts at once and is refused is over before it is stored; keeps the invariant of all interleavings |
| `Runtime.PatchWatcher.CheckStarts` | custom_components/hapatchy/watcher.py:198-211 | A check asks for a reconcile; keeps the invariant of all interleavings |
| `RuntimeSafety.StepKeeps` | custom_components/hapatchy/coordinator.py:210-342 | Every step of every component keeps the whole invariant |
| `RuntimeSafety.RunIsSafe` | custom_components/hapatchy/coordinator.py:28-342 | The invariant holds in every state any interleaving reaches |
| `RuntimeEvents.NoEventIsLost` | custom_components/hapatchy/watcher.py:175-216 | No lost event: in service, and unless a step that drops it was taken, an unanswered event has a timer, mark, unstarted check or background task, or a queued action; a mark that counts belongs to an unfinished check or action, and no patch has both a timer and a check |
| `RuntimeEvents.EventsAreAnswered` | custom_components/hapatchy/watcher.py:153-216 | An event stops being owed if and only if an action of its patch takes its turn, its patch is suppressed, or a new runtime does not watch its patch for it; a refusal, a close or a reload alone does not end it |
| `RuntimeEvents.LostIffDropped` | custom_components/hapatchy/coordinator.py:103-116 | Over all runs: some state in service has an unanswered event that nothing under way covers if and only if one of these steps was taken over an uncovered event: an unload that fails, a startup that does not look at the patch, an event on a patch with a stale check, or an edit or revert that makes a changed entry match again without a reload |
| `RuntimeEvents.DeafIffRefusedAtOnce` | custom_components/hapatchy/watcher.py:186-216 | Over all runs: a check is stale, so that its patch is marked for ever, if and only if under this runtime a check of it started at once and was refused |
| `RuntimeTheorems.ActionsAreSerialized` | custom_components/hapatchy/coordinator.py:229-235 | At most one action is past the lock, with the runtime's own enabled definition |
| `RuntimeTheorems.WorksOnlyWithSavedDefinition` | custom_components/hapatchy/coordinator.py:229-235 | An action takes its turn if and only if its patch is valid then, and its definition is what the saved entry reads as |
| `RuntimeTheorems.OnlyEditsBreakTheMatch` | custom_components/hapatchy/coordinator.py:147-175 | No step but an outside edit ends the match of runtime and entry; in particular no revert invalidates queued actions |
| `RuntimeTheorems.CloseIsFinal` | custom_components/hapatchy/coordinator.py:319-342 | After a close, in a run in which no unload was refused or failed while the watch was closed, nothing runs, waits or is admitted, and the states are saved |
| `RuntimeTheorems.OnlyUnloadReopens` | custom_components/hapatchy/__init__.py:101-120 | Over all runs: some state admits actions behind a closed watch if and only if somewhere in the run an unload was refused or failed while the watch was closed |
| `RuntimeTheorems.SourceFailureIsARun` | custom_components/hapatchy/coordinator.py:247-252 | In every reachable state a policy or source error reports what a run could, so it is one of the steps of the runs here, and an owed sync is known to it |
| `RuntimeTheorems.NoReplaceBeforeSync` | custom_components/hapatchy/coordinator.py:236-306 | Over the same runs of the same patch: an action at work on a patch whose rename is not known durable renames nothing before its own sync |
| `RuntimeTheorems.ReloadKeepsRecordIff` | custom_components/hapatchy/coordinator.py:70-101 | A new runtime has an owed sync on record if and only if the states could be read back and the patch is still there with the reason |
| `RuntimeTheorems.UnconfirmedStaysOnRecord` | custom_components/hapatchy/coordinator.py:236-306 | For every patch, over all runs in which no revert of it loses its setting and the record, and no reload loses it, whatever happens to other patches: an owed sync stays recorded, or in the hands of the action that found it, and each action is told |
| `RuntimeTheorems.RevertKeepsRecordIff` | custom_components/hapatchy/coordinator.py:253-266 | After a revert an owed sync is still on record if and only if its setting was saved, or saving failed unhandled with the reason already there |
| `RuntimeTheorems.SuppressedReconcilesAreOld` | custom_components/hapatchy/coordinator.py:214-235 | While a patch is suppressed, admitted reconciles of it were admitted before |
| `RuntimeTheorems.SuppressionAdmitsNothing` | custom_components/hapatchy/coordinator.py:109-116 | Until a revert saves its setting, no further reconcile of a suppressed patch is admitted, by anyone, in any run |
| `RuntimeReverts.RevertTurnsAutomaticOff` | custom_components/hapatchy/coordinator.py:161-175 | Over all runs: once a revert that was not denied has saved its setting, runtime and entry have automatic apply off and nothing else is changed; until the entry is edited that lasts through everything, and no reconcile of the patch has anything to write |
| `RuntimeReverts.RevertSuppressesIff` | custom_components/hapatchy/coordinator.py:253-266 | After a revert a patch is suppressed if and only if its setting was refused, or saving it broke off and it was suppressed before |
| `RuntimeService.TargetsStayApart` | custom_components/hapatchy/coordinator.py:28-43 | In every state of every run, whatever is edited and reloaded, no two patches of the runtime have the same target, and the retention is within its bounds |
| `RuntimeService.AdmitsExactly` | custom_components/hapatchy/coordinator.py:210-222 | An action is admitted exactly for an enabled patch of a runtime that is not closing and in step with its entry, a reconcile only without suppression; a refusal changes nothing |
| `RuntimeService.WorksExactly` | custom_components/hapatchy/coordinator.py:224-235 | An action whose turn it is goes to work exactly if its patch is still enabled and the runtime in step, with the definition and the owed sync as they are then |
| `RuntimeService.EventAsks` | custom_components/hapatchy/watcher.py:175-184 | A file event asks for a check after the quiet time, or after the action or check under way; for nothing during suppression or closing, and never for another patch |
| `RuntimeService.HearsExactly` | custom_components/hapatchy/watcher.py:153-173 | In step, a file event asks for a check of exactly the enabled patches whose target it names |
| `RuntimeService.StartsExactly` | custom_components/hapatchy/coordinator.py:103-116 | Startup schedules every enabled patch that asks for it and is not suppressed, and no other |
| `RuntimeService.StoresExactly` | custom_components/hapatchy/coordinator.py:276-337 | Only a save that succeeds changes what is stored, and then it holds the reason every patch shows |
| `RuntimeStates.ShownStays` | custom_components/hapatchy/coordinator.py:131-145 | No step but those that concern a patch changes its status, reason or watch |
| `RuntimeStates.ReturnShows` | custom_components/hapatchy/coordinator.py:253-306 | What the end of an action shows: its inspection, the lost setting, or nothing yet |
| `RuntimeStates.RefreshShows` | custom_components/hapatchy/coordinator.py:284-303 | A path Home Assistant denied is shown after the watcher looked again, unless it already reported the root missing |
| `RuntimeStates.DeniedRootShows` | custom_components/hapatchy/coordinator.py:138-145 | A denied root is shown, but not over an owed sync |
| `RuntimeStates.ReloadShows` | custom_components/hapatchy/coordinator.py:70-101 | What a new runtime shows of every patch of the entry: disabled, a restored safety reason, an unpinned source, or not yet looked at |
| `RuntimeLimits.QueuedReconcileStillRuns` | custom_components/hapatchy/coordinator.py:224-235 | A run in which a reconcile queued before suppression reaches the reconciler after it |
| `RuntimeLimits.RevertOverwritesDurability` | custom_components/hapatchy/coordinator.py:253-266 | A run in which a revert overwrites the unconfirmed reason and the next action is not told of the owed sync |
| `RuntimeLimits.FailedUnloadMissesEvents` | custom_components/hapatchy/__init__.py:105-113 | A run in which a failing unload leaves a file event behind in an open runtime |
| `RuntimeLimits.ReloadMissesEvents` | custom_components/hapatchy/coordinator.py:103-107 | A run in which a plain close and reload, with nothing failing or changed, loses a file event of a patch without startup reconcile |
| `RuntimeLimits.StaleCheckMissesEvents` | custom_components/hapatchy/watcher.py:186-216 | A run in which a check refused at once during suppression makes the watcher deaf to the patch after the suppression was lifted |
| `RuntimeLimits.RefusedUnloadUndercutsClose` | custom_components/hapatchy/__init__.py:114-119 | A run in which an unload refused during a stop leaves an action at work in a closed runtime |
| `RuntimeLimits.ReloadSuppresses` | custom_components/hapatchy/coordinator.py:72-76 | A new runtime suppresses a patch if and only if the lost setting is its last saved reason |
| `RuntimeLimits.DenialErasesSuppression` | custom_components/hapatchy/coordinator.py:138-145 | A run in which a revert loses its setting, the root of the suppressed patch is denied, and after a close and a reload its reconciles are admitted again |
| `SourceGraph.Load` | custom_components/hapatchy/yaml_source_graph.py:134-167 | The walk ends although secrets start the depth over, counts loads strictly up, and restores its stack on every exit |
| `Scanner.Scanner.Load` | custom_components/hapatchy/yaml_source_graph.py:134-167 | Loading one file, with every limit and the stack |
| `Scanner.Scanner.ComposeAndVisit` | custom_components/hapatchy/yaml_source_graph.py:169-183 | Parse events counted, document visited |
| `Scanner.Scanner.Visit` | custom_components/hapatchy/yaml_source_graph.py:185-208 | Node limits and tags |
| `Scanner.Scanner.VisitTag` | custom_components/hapatchy/yaml_source_graph.py:210-229 | Includes, directories, secrets |
| `Scanner.Scanner.VisitEach` | custom_components/hapatchy/yaml_source_graph.py:240-242 | The loop over a sequence |
| `Scanner.Scanner.VisitEachPair` | custom_components/hapatchy/yaml_source_graph.py:243-257 | The loop over a mapping: duplicate keys, contexts |
| `Scanner.Scanner.IncludeDirectory` | custom_components/hapatchy/yaml_source_graph.py:261-277 | An included directory and its files |
| `Scanner.Scanner.SecretCandidates` | custom_components/hapatchy/yaml_source_graph.py:334-341 | The loop over secrets files, up to the root |
| `Scanner.Scanner.Run` | custom_components/hapatchy/yaml_source_graph.py:125-132 | The whole scan |
| `ScanSafety.LoadKeeps` | custom_components/hapatchy/yaml_source_graph.py:134-167 | Loading keeps the scan closed: every completed file is recorded with a regular document, granting when its context is, and its references settled |
| `ScanSafety.VisitPairsKeeps` | custom_components/hapatchy/yaml_source_graph.py:243-257 | Visiting a mapping settles the references of all keys and values in their contexts |
| `ScanSafety.WalkDirectoryCollects` | custom_components/hapatchy/yaml_source_graph.py:279-332 | The inventory of a directory is exactly its visible YAML files other than secrets files |
| `ScanTheorems.ReachedIsProtected` | custom_components/hapatchy/yaml_source_graph.py:101-111 | A scan that ignored no missing include protects every file that can be loaded, with its content, and counts it as a grant source in every granting context |
| `ScanTheorems.ReferencesAreProtected` | custom_components/hapatchy/yaml_source_graph.py:101-111 | Included directories are protected as a whole, and secrets files even where none exists yet |
| `ScanTheorems.AuthorityKeepsProtection` | custom_components/hapatchy/yaml_source_graph.py:84-111 | While the authority is unchanged, the boot snapshot protects every file that can be loaded now |
| `ScanTheorems.NothingIsSwallowed` | custom_components/hapatchy/yaml_source_graph.py:334-341 | A complete scan ignored no missing include if and only if every include of every document that is reached names something that exists |
| `ScanComplete.ScanIsComplete` | custom_components/hapatchy/yaml_source_graph.py:125-341 | Completeness: a configuration whose reached files are readable and regular, whose directories are plain, and whose references have no circle and nest within the depth, is scanned completely and within every limit, or the scan ended where something more does not fit a limit |
| `ScanComplete.CompleteIsProper` | custom_components/hapatchy/yaml_source_graph.py:169-259 | Conversely a complete scan that ignored nothing has met only readable files with known tags, usable operands, no key twice and bounded depth, and only plain directories |
| `ScanShape.WellMadeExactly` | custom_components/hapatchy/yaml_source_graph.py:125-341 | A configuration is scanned completely with nothing ignored only if it is well-made, references without circles nested within the depth included; and if it is well-made the scan does so within every limit, or it ended where something more does not fit one |
| `ScanShape.LoadEnds` | custom_components/hapatchy/yaml_source_graph.py:134-167 | A load that succeeds and ignores nothing has come to the end of all references below it within the loads and levels that were left |
| `ScanReach.RecordExactly` | custom_components/hapatchy/yaml_source_graph.py:125-341 | A complete scan that ignored nothing has on record exactly the files that are reached, the grant sources among them, the included directories and the places where secrets are looked for |
| `ScanComplete.WalkCounts` | custom_components/hapatchy/yaml_source_graph.py:279-332 | The walk of a plain directory counts exactly its visible directories and entries, and stops if and only if they exceed a limit |
| `ScanComplete.PartsExactly` | custom_components/hapatchy/yaml_source_graph.py:101-111 | A text is taken apart if and only if it is made of names, none empty, none a step in place or upwards, and none with a separator or control character |
| `ScanTheorems.SameAuthorityProtects` | custom_components/hapatchy/yaml_source_graph.py:84-111 | The same authority protects exactly the same paths |
| `GrantSafety.AuthorityFixesGrants` | custom_components/hapatchy/yaml_source_graph.py:84-99 | Grant noninterference: the same authority gives the same `hapatchy` section, allowed external directories and packages, for plain string keys in those sections; mappings may be merged in at the root |
| `GrantSafety.DeepNode` | custom_components/hapatchy/yaml_source_graph.py:231-259 | Below a granting context nothing depends on a file that is not a grant source |
| `ScanLimits.OrdinaryEditKeepsGrants` | custom_components/hapatchy/yaml_source_graph.py:84-99 | A family of edits to an included file that the noninterference theorem covers: other text, same authority, same grants |
| `ScanLimits.MergeKeyEscapes` | custom_components/hapatchy/yaml_source_graph.py:252-257 | A concrete pair of configurations with a merge key below the root: same authority, different packages |
| `ScanLimits.NamedDirectoryEscapes` | custom_components/hapatchy/yaml_source_graph.py:261-277 | A concrete pair with `!include_dir_named` in the place of `homeassistant`: same authority, different packages |
| `ScanLimits.IgnoredIncludeEscapes` | custom_components/hapatchy/yaml_source_graph.py:334-341 | A concrete tree whose scan succeeds over a missing include in a secrets file and leaves a loadable file unprotected |
| `YamlPolicy.CollectsEntries` | custom_components/hapatchy/yaml_policy.py:196-207 | A list of grants is accepted exactly when every entry is valid and none occurs twice, and comes out as written |
| `YamlPolicy.EntriesExactly` | custom_components/hapatchy/yaml_policy.py:192-207 | A setting is read if and only if it is left out or a list of at most 128 valid, distinct entries, and gives those |
| `YamlPolicy.EntryExactly` | custom_components/hapatchy/yaml_policy.py:196-205 | An entry is valid if and only if it is a bounded string of enough names, unprotected and without glob characters |
| `YamlPolicy.ValidateEntries` | custom_components/hapatchy/yaml_policy.py:196-207 | The loop over one list |
| `YamlPolicy.ValidateHapatchyGrants` | custom_components/hapatchy/yaml_policy.py:185-213 | The checks of a section |
| `YamlPolicy.LoadsExactly` | custom_components/hapatchy/yaml_policy.py:73-116 | A policy is frozen if and only if the files grant it, Home Assistant booted with the same section and grants, entry for entry, and both scans found its sources |
| `YamlPolicy.FrozenGrantsAreCurrent` | custom_components/hapatchy/yaml_policy.py:37-45 | While the current check passes, reading the configuration again would give the frozen files and allowed directories, which Home Assistant booted with, and packages that are still quiet; lists, packages and entries may come from included directories and secrets |
| `YamlPolicy.QuietDirectory` | custom_components/hapatchy/yaml_policy.py:253-268 | Packages from a directory included by names are accepted exactly when every file is a mapping without a section of its own |
| `YamlPolicy.PlainConfiguration` | custom_components/hapatchy/yaml_policy.py:185-250 | A configuration that writes its grants out grants exactly the files and directories it lists if the files are at most 128 valid, distinct paths, and nothing otherwise |
| `YamlPolicy.PackageForbids` | custom_components/hapatchy/yaml_policy.py:253-268 | A package with a section of its own, in the files or in the boot configuration, keeps any policy from being frozen |
| `YamlPolicy.SectionForbids` | custom_components/hapatchy/yaml_policy.py:185-213 | A section that is no mapping, is empty, has another key or an entry that is not valid keeps any policy from being frozen |
| `YamlPolicy.AllowlistForbids` | custom_components/hapatchy/yaml_policy.py:239-250 | So do allowed directories that are no list of strings |
| `ManagedStore.StepKeeps` | custom_components/hapatchy/managed_source.py:49-94 | No step of any publisher, failing or not, changes a published name or its bytes; published bytes hash to their name |
| `ManagedStore.RunKeeps` | custom_components/hapatchy/managed_source.py:49-94 | The same over every interleaving |
| `ManagedStore.SavedThenLoaded` | custom_components/hapatchy/managed_source.py:32-94 | After a successful save every load of the revision, after any further steps of anyone, returns exactly the saved bytes |
| `ManagedStore.AloneItPublishes` | custom_components/hapatchy/managed_source.py:49-94 | A publisher alone whose calls succeed makes a new revision that loads with its bytes |
| `ManagedStore.UnreadableWhileAliased` | custom_components/hapatchy/managed_source.py:32-47 | A published revision can be loaded exactly while no temporary name names its file |
| `ManagedStore.StrandedForever` | custom_components/hapatchy/managed_source.py:67-89 | A temporary name of the file that no publisher will remove makes the revision unreadable for good |
| `ManagedStore.LostIffStranded` | custom_components/hapatchy/managed_source.py:67-89 | A published revision is lost, unreadable after every further run, if and only if there is such a name |
| `ManagedStore.LostIffAbandoned` | custom_components/hapatchy/managed_source.py:49-94 | Over every run from an empty store: a published revision is lost if and only if its publisher stopped, or failed to unlink, between its link and its unlink |
| `ManagedStore.StopStrands` | custom_components/hapatchy/managed_source.py:73-89 | Stopping right after the link loses the revision |
| `ManagedStore.OneStopLoses` | custom_components/hapatchy/managed_source.py:73-89 | For any content, a run of one publisher in an empty store that loses its revision |
| `ManagedStore.ManagedPatchStore.Save` | custom_components/hapatchy/managed_source.py:49-94 | A save among other publishers: nothing published changes, and success means the revision is there and loads; when nothing goes wrong and nobody else is at work it succeeds if and only if the revision was not there or can be read |

## Left out

- Decoding: invalid UTF-8 is refused before a text exists, and is not part of the model; nor are digits outside ASCII
  in hunk headers, which the code's pattern accepts.
- PatchParser.Parse: `patch_ng` is an oracle that can only refuse; its two refusals have one reason here. Completeness
  of the builder assumes it accepts what the owned parser accepts.
- PatchBuilder.BuildPatch: the sequence matcher of `difflib` is any list of opcodes covering both texts, alternating
  equal and changed; grouping and range formatting are modelled.
- BuilderBreaks.GivesUpOnlyOnContainment: one direction. With less than the whole texts in the patch the builder often
  succeeds although one text contains the other or a line breaks elsewhere than at LF, outside the context it emits;
  the exact condition is given for the whole texts (`FullContextIff`).
- SHA-256: contents stand for their hashes; in the patch store the hash is a parameter, collision-free where a
  theorem says so.
- File descriptors, owners, modes and inode details of the target: a stamp that changes with every outside rewrite.
  Closing a handle never fails.
- Transaction.CheckPolicy: the path policy is any decision; its own rules are not modelled.
- Backups.BackupStore.Create: names are natural numbers in the order of the source's timestamps, and may be taken;
  metadata is complete or not, its fields are not modelled.
- Reconciling.Reconciler.Run: the retention and the patch id are checked by the constructor of the backups in the
  source; here the retention is at least one and ids are not checked. A numeral of more than 4300 digits in a hunk
  header, which Python refuses with an error that no component handles, is reported here like any other parse failure.
- Runtime.PatchManagerRuntime.TaskReturns: hashes, timestamps, restart flags and log lines are not part of a patch
  state here.
- RuntimeTheorems.UnconfirmedStaysOnRecord: a process that dies between a rename and the save of its result is not
  modelled; neither is cancelling an admitted task, which the source prevents by shielding it.
- RuntimeTheorems.ReloadKeepsRecordIff: a reload after an undercut close is no step of the runs, because Home Assistant
  is stopping then; nor is a new setup after one that failed and whose closing save failed too.
- RuntimeEvents.NoEventIsLost: the watcher's refresh of its roots is nondeterministic; the observer's threads
  deliver events at any moment. A change that no observer saw, and no later refresh found, is not an event.
- Runtime.PatchWatcher.Fire: Home Assistant starts background tasks at once by default. Here a check that is refused
  may start at once or later; every other task begins in a step of its own, which is the same run when that step
  comes next.
- GrantSafety.AuthorityFixesGrants: for configurations with plain string keys below `hapatchy`,
  `allowlist_external_dirs` and `packages`, no merge key under `homeassistant`, and no secret or included directory as a
  whole document or in the place of `homeassistant`; nothing is asked of other sections. `ScanLimits` shows what
  happens otherwise. That the condition is necessary in every single case is not claimed: an edit may happen not to
  matter. Merging a list of mappings is not evaluated.
- SourceGraph.Load: node trees are finite, so the refusal of cyclic aliases has no case here; the tree of files does
  not change during one scan, so a file that changes between two loads is refused only in the branch that says so.
- YamlPolicy.ValidateHapatchyGrants: the syntax check of the section's node before loading is not part of the model.
- YamlPolicy.FrozenGrantsAreCurrent: the configuration is read from the tree of the first scan; the second scan may
  see another one.
- YamlPolicy.LoadYamlPolicy: the order in which Home Assistant reads the files of a directory and the environment are
  parameters; an empty included file is no mapping.
- ManagedStore.ManagedPatchStore.Save: creating and verifying the store's directory succeeds or fails with the call
  beside it; failures have one reason here. The shape of a revision, 64 hexadecimal digits, is not checked.
- Runtime.PatchWatcher.HandleEvent: looking at the roots again after an event on a directory is nondeterministic here;
  an administrator's read of a patch holds the lock and does nothing else.
- PyYAML, Home Assistant's loader beyond includes, HTTPS sources, services, sensors, repairs, translations and the
  configuration forms are not modelled; a configuration form saves in one step under the lock.
- The path policy, the target picker and the scripts of the repository would add only single checks.
