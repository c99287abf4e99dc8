# Verified model of the TokenLive standalone host

This project models the parts of the TokenLive standalone host whose correctness does not show in any one
function, and proves what they promise.

**The click-upgrade protocol** (`internal/upgrade`). A manager prepares an upgrade task and accepts its
confirmation; launchd starts a one-shot worker that runs Homebrew, restarts the service and verifies it;
anyone reading the task list reconciles it on the way, without the lock. All of them are separate processes
that share one JSON record per task and one advisory lock, any of them may die between two steps, and every
external command may succeed, provably fail, or end in a way nobody can tell. The design promises that an
unknown outcome never becomes a success and that whatever cannot be proven finished keeps new upgrades out.

The protocol is modelled three times over, and the three are tied together:

- *As programs*: the classes `WorkerProcess.Process`, `ManagerProcess.Manager`, `StoreProcess.Store` and
  `InstallLock.LockFile` follow the source statement by statement. `Process.Run` is proved to produce exactly
  the runs of the automaton in `Worker.dfy`.
- *Fine*: `FineProtocol` interleaves single loads, saves and commands of any number of submits, unlocked
  reconcilers and worker starts over one task, each with its own in-memory copy of the record, so lost
  updates happen. Everything in `FineTheorems` and `FineCounterexample` is about these runs.
- *Coarse*: `CoarseProtocol` holds all tasks and a clock. Preparing, confirming and reconciling one task are
  single steps, the worker advances one action at a time, any process may die anywhere, and a bootstrap
  yields at most one worker start. Everything in `CoarseTheorems` and `CoarseCounterexample` is about these
  runs. `Granularity` shows that a confirmation and a reconciliation running alone, cut off anywhere, leave
  exactly the records their single steps leave.

Where a promise does not hold of the code on every run, the theorem says exactly when it does, with the run
that breaks it otherwise: `FineCounterexample.UpgradeAtMostOnceIff`, `FineCounterexample.ExposedUnreachableIff`,
`CoarseCounterexample.ForwardOnlyIff`, `CoarseCounterexample.UnmarkedIff`, `ManagerProcess.SecondPassIff`,
`StoreProcess.LiveWinsIff`, `Health.SiblingsExcludedIff`, `HubOverlap.TracksIff`, `ConfigHub.BalanceExact`,
`LogTail.TailExact`, `LogTail.WindowMeantIff`, `LogFollow.LinesWholeIff`, `LogFollow.TruncationSeenIff`,
`Plist.RoundTripIff`, `ConfigUpgrade.NeverLosesIff`.

`EndToEnd` ties these together: the record a prepare writes is the one the fine protocol starts from, so the
bytes that were fetched are the bytes that are installed, and the coarse single steps are what the manager's own
methods and the worker's own runs do to a record.

**The task store** (`TaskStore`, `TaskIndex`, `StoreProcess`): listing as a refined map, and a bounded index
filled by a two-step cleanup that may be cut off in the middle.

**The configuration hub** (`ConfigHub`, `HubOverlap`): a cache that must agree with its source, its credit
ledger, and overlapping refreshes.

**The log readers** (`LogTail`, `LogFollow`): the seek-from-the-end fast path against reading everything, and
the follower across growth, rotation, truncation and removal.

**The launchd job** (`Plist`, `PlistGrammar`): what is written, how the program is read back, and what the reader
makes of any document.

**The configuration installer** (`ConfigUpgrade`): two files, two renames, interrupts and user edits.

## Assumptions

- Saves into an existing task directory succeed; a save into a removed directory fails. The code ignores most
  save errors.
- The clock never runs backwards, and all processes share it.
- The terminal states are succeeded, failed, confirmation expired and needs attention; the library that
  defines them is not part of this model.
- SHA-256 is injective, fresh ids and secrets do not collide, and a rename is atomic.
- A heartbeat that answers a signal-0 probe is evidence only: a live worker that has reported in always
  answers, and a dead one may seem to, since its PID can be reused.
- In the timing theorems which bounds hold, one by one, and how much file work a task may cost on top of them
  are parameters of the environment; clock readings take no time.

## Model

| member | source | states |
|---|---|---|
| `UpgradeTask.ActiveTask` | internal/upgrade/tasks.go:19-35 | The gate answers none exactly when no task is unresolved or pending; unresolved records answer first, then the newest pending one. |
| `Health.NormalizedIff` | internal/upgrade/verify.go:91-95 | What is compared of a version is r exactly when the text is r, or v and r, amid Unicode white space. |
| `Health.PassMeansTargetKeg` | internal/upgrade/verify.go:39-95 | A passing handshake means a healthy service that stands for the target version, of the channel, under a changed PID, whose executable lies inside the cleaned keg path; below a clean prefix and for a keg that is a proper directory name this is `<prefix>/Cellar/tokenlive/<keg>/` and no sibling. |
| `Health.PassIff` | internal/upgrade/verify.go:39-95 | Conversely every answer that meets all of these conditions passes. |
| `Health.RejectionHolds` | internal/upgrade/verify.go:39-90 | Whatever reason a rejection names is so. |
| `Health.SiblingsExcludedIff` | internal/upgrade/verify.go:83-87 | Among keg names that are one path segment, exactly the proper ones keep binaries of every other keg out: an empty name, `.` and `..` are cleaned to a directory above the kegs. |
| `WorkerTrace.TraceShape` | internal/upgrade/worker.go:74-141 | For all replies and crash points the worker's commands are a prefix of upgrade, list, stop, start, list and further lists, each issued only after the one before it succeeded. |
| `WorkerTrace.WriteAhead` | internal/upgrade/worker.go:26-29 | Whenever a command is issued, the last record saved before it carries the state and phase that name that command. |
| `WorkerTrace.FailedIsProven` | internal/upgrade/worker.go:78-93 | Failed is only saved when no stop or start was ever issued and the upgrade, if issued, provably did not succeed. |
| `WorkerTrace.SucceededIsTruthful` | internal/upgrade/worker.go:88-141 | Succeeded is only saved after upgrade, stop and start all returned well and a poll begun before the deadline passed the handshake against the PID captured before the stop. |
| `WorkerTrace.UnknownNeverDecides` | internal/upgrade/worker.go:88-119 | Once a decisive command had an unproven outcome, neither failed nor succeeded is ever saved. |
| `WorkerTrace.TargetFixity` | internal/upgrade/worker.go:145-168 | Directly before an upgrade the bytes read back from the tap have the digest of the record, whatever the snapshot file and the tap held. |
| `WorkerOutcome.EndedIsDecided` | internal/upgrade/worker.go:48-141 | In every run that has ended the replies alone determine how it was brought to its end: which record was saved last, with which fields changed from the one it was given or read again, that the job removed itself after a success, and that the lock was given back exactly if it was taken. |
| `WorkerOutcome.EndedRunOwes` | internal/upgrade/worker.go:48-141 | So a worker refused the lock, or left with an outcome nobody can tell, says so of the record it reads again at the stage concerned; failed staging or a failed upgrade is recorded as failed; all stages done well and a proving poll are recorded as succeeded with cleanup asked for; and verification is given up only when its time is up. |
| `WorkerProcess.Process.Run` | internal/upgrade/worker.go:48-141 | Every run of the program is a complete run of the worker automaton, decided and ended as its replies call for, and outlasts its file work by at most 1015 s, the sum of the stage budgets. |
| `WorkerProcess.Process.Verify` | internal/upgrade/worker.go:182-207 | The poll loop ends, at most one iteration past its budget, in success exactly when a poll proved the target. |
| `WorkerProcess.Process.StageSnapshot` | internal/upgrade/worker.go:145-168 | Staging hands over only when the confirmed bytes were read, written and read back with the right digest; otherwise the run goes on to record a clean failure. |
| `WorkerProcess.Process.RecordUnknown` | internal/upgrade/worker.go:234-244 | An uncertain outcome is recorded on a freshly loaded record, and a missing record stays missing. |
| `ReconcileAutomaton.PassSays` | internal/upgrade/manager.go:320-394 | What a pass does to a record field by field: exactly which records go, expire, are marked as unresolved and for what reason, after 30 s and 1800 s, and when an unknown launch is known after all. |
| `ReconcileAutomaton.PassIdempotentIff` | internal/upgrade/manager.go:320-394 | For one record, at a fixed clock and evidence, a second pass, cleanup included, changes nothing if and only if the first did not end a task whose cleanup was already asked for with its job gone. |
| `ReconcileAutomaton.PassConverges` | internal/upgrade/manager.go:320-394 | Exactly which records one pass leaves unfinished. |
| `ReconcileAutomaton.LatePassTerminates` | internal/upgrade/manager.go:359-394 | With no live worker, one pass after the accepted budget and the launch window leaves every task terminal. |
| `ReconcileAutomaton.PassForward` | internal/upgrade/manager.go:320-394 | A pass never moves a state back, removes nothing unfinished, changes nothing finished, never creates a success, and leaves every field alone but state, phase, error kind, the unknown-launch flag and the stamp. |
| `Granularity.SubmitCoarsens` | internal/upgrade/manager.go:213-277 | A confirmation without interference, cut off anywhere, leaves the record untouched, expired after its window, or accepted inside it with the right secret and launched as far as one launch outcome. |
| `Granularity.SubmitAttains` | internal/upgrade/manager.go:226-277 | Conversely every record the single step leaves, for every launch outcome, is left by some run of the step-by-step confirmation. |
| `Granularity.ReconcileCoarsens` | internal/upgrade/manager.go:320-394 | A reconciliation without interference, cut off anywhere, leaves the task as it was or as the single step leaves it; a summary is only ever filed for a task being cleaned, and no record goes without one. |
| `Granularity.ReconcileAttains` | internal/upgrade/manager.go:320-394 | Conversely for all evidence some run to the end leaves exactly what the single step leaves. |
| `Granularity.CutOffAttains` | internal/upgrade/state.go:279-285 | Every cleanup can be cut off with its summary filed and its record still there, the one state the single step does not show. |
| `FineTheorems.BootstrapAtMostOnce` | internal/upgrade/manager.go:226-277 | Fine: each task causes at most one bootstrap under every interleaving, repeated submit, restart and crash. |
| `FineTheorems.AwaitingNeverReentered` | internal/upgrade/manager.go:242-259 | Fine: a record that has left awaiting never returns to it. |
| `FineTheorems.OneSecret` | internal/upgrade/manager.go:250-259 | Fine: the record only ever carries the digest of the secret issued with the task, always once queued, and always the same target. |
| `FineTheorems.TerminalIsTruthful` | internal/upgrade/worker.go:88-141 | Fine: a record or retained summary that says succeeded has one worker with the whole evidence behind it, for this task's target; failed likewise has proof. |
| `FineTheorems.UpgradeInstallsPreparedBytes` | internal/upgrade/manager.go:163-198 | Fine: the bytes any worker reads back just before its upgrade are the bytes fetched when the task was prepared. |
| `EndToEnd.PreparedIsInstalled` | internal/upgrade/manager.go:163-210 | From any prepare that answered, over all later runs: the bytes any worker of the task reads back just before its upgrade are the bytes that were fetched, the record keeps their digest, the fetched version and keg and the port, and only the secret handed out is ever accepted. |
| `FineTheorems.QueuedIsFresh` | internal/upgrade/worker.go:66-77 | Fine: unless a submit dies between its two launch saves, a queued record means that no worker has saved downloading, and that no reported worker stands beside an unknown launch. |
| `FineCounterexample.ExposedUnreachableIff` | internal/upgrade/manager.go:375-381 | Fine: the state in which a pass writes queued, a queued record with an unknown launch and a worker PID, is unreachable if and only if no submit dies between its two launch saves. |
| `FineCounterexample.TwoUpgrades` | internal/upgrade/manager.go:375-381 | Fine: a run in which one task runs `brew upgrade` twice. A submit dies between the saves at manager.go:440 and :274, and an unlocked pass writes back as queued a record it read before the worker's first stage. |
| `FineCounterexample.UpgradeAtMostOnceIff` | internal/upgrade/manager.go:375-444 | Fine: at most one `brew upgrade` per task on all runs if and only if no submit dies between its two launch saves or the worker is not started a second time. |
| `EndToEnd.CoarsePrepare` | internal/upgrade/manager.go:177-197 | Coarse: a prepared task carries exactly the record the manager writes. |
| `EndToEnd.CoarseSubmit` | internal/upgrade/manager.go:241-277 | Coarse: a confirmation leaves exactly the record the manager leaves, and a job only for a consumed one. |
| `EndToEnd.CoarseReconcile` | internal/upgrade/manager.go:314-394 | Coarse: a pass over a record leaves exactly what the manager's pass leaves, its clock standing still. |
| `EndToEnd.CoarseRefused` | internal/upgrade/worker.go:48-57 | Coarse: a start while the lock is held does to the record what the worker's own run does when it is refused. |
| `CoarseTheorems.UnresolvedBlocks` | internal/upgrade/manager.go:155-161 | Coarse: whenever nothing blocks, every task either never issued a command or ended with proof, so no bootstrap or brew outcome is open, and no worker has anything left to save or issue, even one that still holds the lock. |
| `CoarseTheorems.AtMostOneBlocking` | internal/upgrade/tasks.go:19-35 | Coarse: in every reachable state at most one task keeps new work out. |
| `CoarseTheorems.NeverBlocksAgain` | internal/upgrade/manager.go:246-249 | Coarse: a task that does not block, such as a confirmation past its window, never blocks again, even beside a newer task. |
| `CoarseCounterexample.UnmarkedIff` | internal/upgrade/manager.go:359-394 | Coarse: no pass ever changes the state of a task whose worker is at work, on all runs, if and only if the bootstrap timeout, the launch window, every command and health timeout and the sleep length all hold and file work stays within 440 s and 1 ns. |
| `CoarseTheorems.QuietConverges` | internal/upgrade/manager.go:359-394 | Coarse: from every reachable state, once a task's accepted budget and launch window are over and no worker of it is alive, one pass leaves it terminal. |
| `CoarseTheorems.ReconcileTwice` | internal/upgrade/manager.go:320-394 | Coarse: in every reachable state a second pass over a task, cleanup included, at the same clock and on the same evidence changes nothing. |
| `CoarseTheorems.BoundedChanges` | internal/upgrade/worker.go:66-134 | Coarse: in a run that keeps the bounds of `ForwardOnlyIff` a task changes state at most six times, at most as often as the rank it has reached. |
| `CoarseCounterexample.ForwardOnlyIff` | internal/upgrade/worker.go:16-24 | Coarse: on all runs every step moves each task strictly forward or leaves it, with terminal states absorbing, if and only if the bootstrap timeout, the launch window and the install, list, stop, start and health timeouts all hold and file work stays within 442 s and 1 ns. Dropping any one of them alone, or one unit of file work more, breaks it; a longer sleep does not. |
| `TaskStore.ViewRoundTrip` | internal/upgrade/state.go:77-100 | A summary survives being listed and summarised again, so repeated cleanup cannot degrade it. |
| `TaskStore.SummarySays` | internal/upgrade/state.go:77-100 | A listed summary carries the fields of its record, its times cut to whole seconds, and counts as cleaned. |
| `TaskStore.SummaryOrder` | internal/upgrade/state.go:303-305 | Summaries are ordered by their last change as their records are, up to the second. |
| `TaskStore.SummaryOlder` | internal/upgrade/state.go:225-238 | The listed copy of a summary is never newer than its live record, and strictly older exactly when the record was not created on a whole second. |
| `TaskStore.KeepLast` | internal/upgrade/state.go:242-254 | Deduplication keeps for every id exactly the last of its copies. |
| `TaskStore.Dedupe` | internal/upgrade/state.go:242-255 | Of copies in creation order the result is every id once, in creation order, each with a copy created last. |
| `StoreProcess.Store.Save` | internal/upgrade/state.go:159-166 | Replaces exactly that record, stamped with the store clock; fails when the directory is gone. |
| `StoreProcess.Store.Create` | internal/upgrade/state.go:140-155 | Adds exactly that record and keeps the confirmed bytes beside it. |
| `StoreProcess.LoadMatchesList` | internal/upgrade/state.go:169-223 | Where no summary hides a task, loading and listing agree: a record is found exactly when the listing shows that very record, unreadable exactly when it shows unresolved, blocking work in its place, and missing only when at most a finished summary is shown. |
| `StoreProcess.Store.List` | internal/upgrade/state.go:188-223 | Returns a listing of exactly the live records and readable summaries; an unreadable record shows as needing attention. |
| `StoreProcess.ListRefinesMap` | internal/upgrade/state.go:188-255 | When live records are newer than their summaries, a listing is the union of ids, each once, in creation order, the live record winning. |
| `StoreProcess.LiveWinsIff` | internal/upgrade/state.go:242-255 | The live record is the only copy a listing can settle on if and only if it was created after every differing summary of its task. |
| `TaskIndex.Append` | internal/upgrade/state.go:288-316 | The index becomes a newest twenty, with unique ids and newest first, of its summaries with this task's replaced. |
| `TaskIndex.StreamEqualsBatch` | internal/upgrade/state.go:288-316 | After any sequence of cleanups of distinct tasks the index is the newest twenty of everything ever cleaned, up to ties. |
| `TaskIndex.AppendedIsTop` | internal/upgrade/state.go:288-316 | From any index, the cleanups of distinct tasks, none older than a summary it replaces, leave a newest twenty of what was there with every cleaned summary replaced or added. |
| `TaskIndex.AppendAgain` | internal/upgrade/state.go:288-316 | Repeating a cleanup leaves again a newest twenty with the summary in, and the same contents unless the summary had already been displaced. |
| `TaskIndex.KeptOrDisplaced` | internal/upgrade/state.go:303-308 | A summary just appended is in the index unless twenty at least as recent ones are. |
| `StoreProcess.Store.AppendIndex` | internal/upgrade/state.go:288-331 | Puts the terminal summary into the bounded index, and refuses when the index cannot be read. |
| `StoreProcess.Store.Cleanup` | internal/upgrade/state.go:269-286 | Moves one record to the summaries, changes nothing when it refuses, and takes a missing task as done; the id `..` is not refused and takes the whole store with it. |
| `StoreProcess.CleanupCrashSafe` | internal/upgrade/state.go:269-286 | Before, between and after the two steps of a cleanup every listing shows the terminal summary, unless twenty at least as recent ones have displaced it. |
| `ManagerProcess.Manager.CleanOne` | internal/upgrade/manager.go:332-342 | A record goes exactly when its job was booted out and the index can take its summary, which is then retained or displaced by twenty as recent. |
| `ManagerProcess.Manager.Reconcile` | internal/upgrade/manager.go:304-345 | One pass does to every live record what one clock reading and that record's evidence call for, except where a summary hides it from the listing; it files the summaries of exactly the records it removes, and touches nothing else. |
| `ManagerProcess.SecondPassIff` | internal/upgrade/manager.go:314-345 | Over the whole store, where no summary hides a record, a second pass at the same clock on the same evidence leaves records, summaries and kept bytes alone if and only if the first ended no task whose cleanup was already asked for with its job gone. |
| `ManagerProcess.SecondPassNothing` | internal/upgrade/manager.go:314-345 | Where cleanup is asked for only when a task is over, which passes, prepares and confirmations keep, a second pass never changes anything. |
| `ManagerProcess.RequestsKeepSettled` | internal/upgrade/manager.go:163-277 | A prepare or a confirmation never leaves a record whose cleanup is asked for before its task is over. |
| `ManagerProcess.PassKeepsSettled` | internal/upgrade/manager.go:314-345 | Nor does a pass. |
| `ManagerProcess.RemovedRetained` | internal/upgrade/manager.go:331-342 | After a whole pass every removed record has its summary retained or displaced by twenty as recent, where no removed record is older than a summary it replaces. |
| `ManagerProcess.GateIff` | internal/upgrade/manager.go:121-138 | Over a whole listing in which no summary hides a record, the gate asks exactly whether an unfinished, unreadable or unresolved task is left, live or summarised, and every unreadable record is there to be attended to. |
| `ManagerProcess.HiddenCorrupt` | internal/upgrade/state.go:205-254 | An unreadable record beside a retained summary of its task is hidden in every listing, and the gate then lets new work in. |
| `ManagerProcess.Manager.Capability` | internal/upgrade/manager.go:121-138 | One whole pass, then a whole listing of what it left; allowed exactly when nothing listed blocks, and unresolved work is reported before pending work. |
| `ManagerProcess.Manager.Prepare` | internal/upgrade/manager.go:142-210 | When a prepare succeeds and when each refusal is given; the gate stands on one whole pass and a whole listing; beyond that pass nothing changes but for exactly one new record, whose every field is stated: awaiting, the digests of the fetched bytes and of the secret, the confirmation window, nothing launched; and those bytes beside it. |
| `ManagerProcess.Manager.Submit` | internal/upgrade/manager.go:213-277 | For every request, lock state, record, clock and launch result: which requests are consumed, exactly those of the right user with the issued secret inside the window; which answer each other one gets; that only a consumed or an expired record changes, field by field; and that the lock is always given back. |
| `ManagerProcess.AcceptedOnce` | internal/upgrade/manager.go:230-259 | Only the issued secret inside the window is accepted, once; afterwards no request changes the record, and only the same user with the same secret is told it is accepted. |
| `InstallLock.TryLock` | internal/upgrade/lock.go:18-36 | Never waits; takes the lock exactly when the file opens and nobody holds it. |
| `InstallLock.Release` | internal/upgrade/lock.go:39-46 | Frees a live handle; no handle, or one released before, changes nothing, so a late second release cannot take the lock from a later holder. |
| `ConfigHub.KeyMapIssues` | internal/confighub/hub.go:140-147 | The key table holds every non-empty key once, with its last entry. |
| `ConfigHub.Hub.Refresh` | internal/confighub/hub.go:73-152 | A snapshot is refused exactly when some part that is there does not decode, and then nothing changes; an unchanged one keeps the balances; a new one replaces config, policies and every key with its credits by what the decoders say, absent parts by their zero values; the version counts accepted snapshots modulo 2^64. |
| `ConfigHub.Hub.GetApiKey` | internal/confighub/hub.go:207-218 | Finds exactly the non-empty keys of the accepted snapshot and hands out the live entry. |
| `ConfigHub.Hub.DeductCredits` | internal/confighub/hub.go:228-240 | Charges only that key, by wrapped subtraction unless it is unmetered; every balance stays what was issued less what was taken since acceptance. |
| `ConfigHub.PlainConserves` | internal/confighub/hub.go:238-239 | Balance plus everything deducted equals the issued credits up to a multiple of 2^64. |
| `ConfigHub.BalanceExact` | internal/confighub/hub.go:235-239 | The ledger is plain wrapped subtraction exactly until the running balance first equals -1; from then on the key is unmetered. |
| `ConfigHub.OverdrawnByOne` | internal/confighub/hub.go:235-239 | A metered key without credit charged one credit turns unmetered, and whatever is charged later is lost: its ledger is right again only when those charges sum to a multiple of 2^64. |
| `HubOverlap.PartsTogether` | internal/confighub/hub.go:148-152 | However refreshes overlap, config, policies and keys come from one snapshot, which some refresh loaded and which decodes in all its parts; so does the remembered one. |
| `HubOverlap.TracksIff` | internal/confighub/hub.go:73-93 | At rest the hub holds exactly the snapshot it remembers, after every run, if and only if refreshes never overlap. |
| `HubOverlap.StaysStale` | internal/confighub/hub.go:156-177 | After two crossed refreshes the hub keeps the old snapshot through any number of refreshes while the source offers the remembered one. |
| `LogTail.ReadLastNLines` | internal/cli/logs.go:273-332 | Computes the fast path: all of a small file, else the window at the end without its first piece, then the last n; no file gives no lines, and a negative n panics unless there is nothing to read. |
| `LogTail.LinesSpell` | internal/cli/logs.go:287-293 | The lines of a file are the pieces between its newlines: written out again they are the file, none holds a newline, and each is given without one trailing carriage return. |
| `LogTail.LastNSays` | internal/cli/logs.go:294-297 | The last n of some lines are all of them if there are no more, else the n at the end in order. |
| `LogTail.TailIsSuffix` | internal/cli/logs.go:297-331 | What is read is a run of whole lines up to the end of the file, at most n of them. |
| `LogTail.TailExact` | internal/cli/logs.go:297-331 | For a large file with lines under 1 MiB the result is exactly the last n lines if and only if they occupy fewer bytes than the window, or the window is the file. |
| `LogTail.SmallExact` | internal/cli/logs.go:285-295 | A file under 256 KiB is always read exactly. |
| `LogTail.WindowSize` | internal/cli/logs.go:298-310 | The exact window for every n: with m the remainder of n by 2^55, max(512 m, 32 KiB) where 512 m is below 2^63 and 32 KiB where the product has wrapped to a negative, at most the file. |
| `LogTail.WindowMeantIff` | internal/cli/logs.go:298-310 | The window is 512 bytes a line, or the whole file, if and only if n is below 2^54 or what the wrapped product leaves still covers the file. |
| `LogFollow.FileState.OnTick` | internal/cli/logs.go:396-462 | One tick finds the file and drains it, counting exactly the bytes it emitted. |
| `LogFollow.PiecesTile` | internal/cli/logs.go:451-460 | The pieces of a drain tile the content from its offset to the end. |
| `LogFollow.PiecesAreLines` | internal/cli/logs.go:451-460 | Every piece of a drain is one line with its newline, but for a last one that has none yet. |
| `LogFollow.FollowsGrowth` | internal/cli/logs.go:396-462 | While a file only grows, all ticks together emit exactly the bytes from where following began, and the offset is the end of them. |
| `LogFollow.LinesWholeIff` | internal/cli/logs.go:451-460 | The pieces emitted over all ticks are the lines of the grown file if and only if no tick drained an unfinished line that was continued later. |
| `LogFollow.RestartsAtZero` | internal/cli/logs.go:402-449 | After a rotation, a visible truncation or a recreation the new content is emitted from its first byte, and later growth follows on. |
| `LogFollow.LetsGo` | internal/cli/logs.go:402-449 | A tick that finds the path gone, or naming a file it cannot open, shows nothing and holds no file. |
| `LogFollow.RemovalRestarts` | internal/cli/logs.go:402-449 | After a removal, whatever file the path names next is emitted from its first byte, even the same one grown longer, and later growth follows on. |
| `LogFollow.TruncationSeenIff` | internal/cli/logs.go:434-438 | A file rewritten in place between ticks is emitted in full if and only if it is then shorter than what was read, or nothing was. |
| `Plist.PlistProgram` | internal/upgrade/plist.go:18-98 | The token loop computes the fold of the reader over the tokens, with every error case; what it finds is an absolute path. |
| `PlistGrammar.SyntaxIff` | internal/upgrade/plist.go:33-42 | For every text: a syntax error exactly when it does not lex or its elements are not nested. |
| `PlistGrammar.NoDictIff` | internal/upgrade/plist.go:44-50 | For every nested document: no dictionary is reported exactly when there is none. |
| `PlistGrammar.DictionaryMeans` | internal/upgrade/plist.go:43-97 | For every dictionary of strings, arrays, leaves and nested dictionaries: the program is the last string with the key Program, else the first argument; nothing else counts, and blank or relative programs are errors. |
| `Plist.TaskPlist` | internal/upgrade/plist.go:104-152 | Writes exactly the text of the job, line by line, or refuses exactly an empty name, relative paths and arguments that need escaping. |
| `Plist.LexRender` | internal/upgrade/plist.go:113-151 | Lexing undoes rendering for every clean sequence of tags and text. |
| `Plist.RoundTripIff` | internal/upgrade/plist.go:18-152 | For an absolute executor and strings free of markup, the program read back from a written job is that executor, whatever the arguments, if and only if every string is character data XML allows and the executor has no carriage return. |
| `Plist.FallbackAgrees` | internal/upgrade/plist.go:88-93 | The document written without its Program entry is read back to the same answer as the whole one, from its first argument. |
| `Plist.RelativeRefused` | internal/upgrade/plist.go:94-96 | A document for an executor that is no absolute path is read as an error. |
| `ConfigUpgrade.ConfigDir.Install` | scripts/install-brew-config.sh:27-55 | Which files one run replaces at each point at which it may be interrupted: config.yml only where it is missing or compares equal to its baseline, the baseline unless the comparison fails; and when the run succeeds. |
| `ConfigUpgrade.NeverLosesIff` | scripts/install-brew-config.sh:36-55 | Over all histories of runs, edits, deletions and interrupts, whatever the script overwrites in config.yml is a default an earlier run installed, if and only if nobody writes the file while the script runs. |
| `ConfigUpgrade.FreshTracksDefault` | scripts/install-brew-config.sh:36-46 | From a fresh install, without edits or interrupts, both files are the newest default after every run. |
| `ConfigUpgrade.InterruptFreezes` | scripts/install-brew-config.sh:43-55 | An upgrade cut off between its renames keeps the old default through all later runs until some default is that file again. |
| `ConfigUpgrade.FreshRecovers` | scripts/install-brew-config.sh:36-38 | A fresh install cut off anywhere is completed by the next run. |
| `ConfigUpgrade.RunIsSteps` | scripts/install-brew-config.sh:27-55 | The step-by-step run with nobody editing leaves exactly the files of the whole run. |

## Where code and documentation differ

- internal/upgrade/exec_runner.go documents a child killed by a signal as an unknown outcome, but such a child
  comes back as an exit error and so counts as a proven exit; the model's exit reply carries any code.
- internal/upgrade/state.go:240-241 says that deduplication keeps the live record when a summary of the same task
  is retained, and state.go:208 that unreadable records never become silence; the code keeps the copy created last,
  so a summary can hide a record, always when that record is unreadable and the summary's creation time is set
  (`StoreProcess.LiveWinsIff`, `ManagerProcess.HiddenCorrupt`).
- docs/specs/2026-08-12-homebrew-config-upgrade-design.md installs config.yml before config.yml.default on a
  fresh install; the script, and so the model, renames the baseline first in every branch.

## Left out

- Running commands, parsing launchctl output, HTTP and signals: their results are replies chosen by the
  environment. JSON, RFC 3339, symlinks, permissions and fsync are abstract.
- Record fields that no decision reads: Detail, CurrentVersion, ReleaseURL, the labels and the domain, and the
  heartbeat's start time.
- The `Task` and `Snapshot` queries, which only project the reconciled list, and log capping.
- Unreadable records in the whole-run models: they appear in the store and manager classes only.
- `CoarseProtocol` takes Prepare as its gate and creation; the passes it makes first are separate
  reconciliation steps, which may always come directly before it.
- StoreProcess.Store.Cleanup: takes removing a directory as one step; what else lies beside the store, which the id `..` would remove too, is not modelled.
- StoreProcess.Store.List: sorts values rather than a slice in place, and leaves the order of equal creation times open.
- ManagerProcess.Manager.Submit: whether the files could be written and what launchd answers are inputs.
- ManagerProcess.Manager.Reconcile: what the heartbeats and launchd answer during a pass is an input, one answer for each task.
- ManagerProcess.Manager.Prepare: the fetched candidate, the fresh id and the secret are inputs; a failing random source is not modelled.
- TaskIndex.AppendedIsTop: leaves out a cleaned record older than the summary it replaces; each single append then still leaves a newest twenty, but not all of them together.
- LogTail.ReadLastNLines: does not model read errors after opening.
- LogTail.TailExact: assumes lines under 1 MiB, since the scanner stops silently at a longer one.
- LogFollow.FileState.constructor: begins at the size the file has by then; what was written between reading the last lines (internal/cli/logs.go:352) and that size (internal/cli/logs.go:360) is shown by neither, and not modelled.
- LogFollow.FileState.OnTick: takes the status of a file just opened as known; filtering, trimming and formatting of emitted lines are left out.
- Health.PassMeansTargetKeg: takes the prefix as an absolute path.
- Plist.PlistProgram: does not model entity references, CDATA sections, comments or namespaces.
- PlistGrammar.DictionaryMeans: leaves out documents with several top dictionaries or values without a key.
- Plist.RoundTripIff: leaves out strings with markup of their own, which the writer rejects in arguments only.
- HubOverlap.TracksIff: deductions are left out there, since they touch no snapshot.
- Engine reload after a refresh, and the gateway that uses the hub, are not part of this model.
- Installation probing, formula validation, release scripts, CLI output and the dashboard plan would only add easy members.
