# Verified model of the Minime bot's stateful core

Minime is a chat bot that drives a coding agent (Pi) and runs scheduled jobs beside it. This
project models the parts of it that have to stay correct under interleaving, crashes and
arbitrary event order, and proves what they promise:

- **Locks.** `Host` is a step machine of any number of processes over the file system: one
  atomic step per call, processes may die at any point. `Machine` gives one process its system
  calls, with every other process free to take any finite run of steps in between.
  `RuntimeGuard` and `CronHealth` are the two lock protocols as they run on it.
- **Counters.** `CronMetric` is the text of a metric file; reading the counts and writing them
  back are two steps, and `Host.NoLostUpdates` says that under the lock nothing is lost.
- **Release slots.** `SlotStore` lists the durable writes of every command, `SlotProofs` what
  survives when they are cut anywhere, `BotSlots` the commands as methods over mutable fields.
- **Message queue.** `ChatQueue` is one chat's state with one event per segment between two
  awaits, `ChatProofs` its invariant, `ChatTheorems` the promises over all stories,
  `ChatOwnership` what decides which callbacks run, `ChatPromises` what a message is owed from
  its arrival on, `QueueTheorems` shutdown of all chats at once, and `MessageQueue` the class
  that holds chat states as objects.
- **Pi stream.** `JsonlSplitter`, the translator (`PiEvents`, `PiProofs`), what it says to each
  record told from the history alone (`PiTold`) and the reader (`PiStream`).
- **Cron outbox.** `CronOutbox` is the protocol over one durable slot and a history of
  invocations, `CronPromises` what the acts of a finished invocation tell, `CronRunner` the
  invocation that follows the protocol. What a run ID's invocation has to go by (its task and
  settings) is part of its first act, and what every call of the runner came back with is an act.
- **Smaller cores.** `Collaboration`, `CronFields` and `CronCalendar`, `CronDiagnostics`,
  `PollingWatchdog`.

Each stateful class has methods proved against a specification function or predicate; the
lemmas are about those functions, over every run. `calm` in the lock methods means that no
other process does anything and no call fails during the method; with it the methods promise
their full effect, without it they promise what holds under any interference. A machine is
`Steady` if what it reports of a process depends on the processes alone. A machine keeps the
worlds it has passed, each one step from the one before, so what a method found meanwhile is a
statement about one of these.

## Where the code does not do what it is meant to

- A metric counter past 2^53 - 1 makes the whole file read as zero runs
  (`CronMetric.RenderRoundTrip`, `Host.UpdatesAreLostPastTheSafeRange` give the exact condition).
- `prune` deletes a referenced release whose ID ends in `.tmp.<digits>`, although such an ID is
  accepted (`SlotProofs.PruneDanglesExactly` is the exact condition,
  `SlotProofs.TemporaryLookingReleaseDangles` the run that shows it).
- "current, once set, is never absent" holds except exactly while the first activation is pending
  and has not replaced the active state (`SlotProofs.CurrentStaysExactly`): cut after it set
  current, it is undone by recovery (`SlotProofs.FirstActivationCanBeUndone`).
- A cron output vanishes without any record when an invocation ends between generating it and
  delivering, storing or reporting it, or between clearing an expired or undeliverable record and
  noting that. `CronOutbox.EveryOutputIsAccountedFor` is the exact condition, in terms of acts and
  phases; `CronOutbox.CrashAfterGenerationLosesOutput`, `CronOutbox.CrashAfterExpiryLosesOutput`
  and `CronOutbox.CrashAfterRefusalLosesOutput` are the three ways.
- The cron health lock removes a lone claim without asking whether its process lives
  (`Host.LiveClaimMayBeTaken`); the proof of exclusion rests on the owner file alone.

## Assumptions

Nonces, run IDs and random UUIDs are never drawn twice. Runtime locks and cron health locks lie
at different paths. A process probe never calls a live
process dead (`Machine.Honest`). `mkdir`, exclusive create, `unlink`, `rmdir` and `rename` are
atomic as POSIX.1-2017 (System Interfaces) has them, and `rmdir` fails on a directory that is
not empty. Platform methods return promises and do not throw synchronously. Clocks do not go back.
An absent message callback is one that does nothing. `evictIfIdle` may run at any moment, which
includes every moment at which the code runs it; a synchronous callback of the steering function
is an event right after the call. A cron's terminal report is recorded when it is made, before
the metric write, which may fail. Trimming, JSON decoding, the context-overflow and
already-processing tests, `isReasoningOnlyLengthAgentEnd` and key sensitivity are parameters.

## Model

| member | source | states |
|---|---|---|
| Text.RawLinesIsTheSplit | src/pi-rpc-protocol.ts:533-549 | splitting on LF loses nothing and leaves no LF in a piece |
| Text.RawLinesUnique | src/pi-rpc-protocol.ts:533-549 | it is the only such split |
| Text.DecimalRoundTrip | src/cron-runner.ts:620-630 | a numeral read back is the number written |
| CronMetric.EscapedLabelIsOneLine | src/cron-runner.ts:295-301 | an escaped label has no line break, whatever the cron's name |
| CronMetric.ParseCronRunCounts | src/cron-runner.ts:607-633 | the parsing loop with its early exits yields the parsed counts |
| CronMetric.BrokenStaysBroken | src/cron-runner.ts:607-633 | one bad counter line voids the file whatever follows |
| CronMetric.RenderRoundTrip | src/cron-runner.ts:607-633 | a written file reads back as its counts exactly while both are safe integers, else as zero |
| CronMetric.FirstLineIsExitCode | src/cron-runner.ts:691-697 | the first line written is the exit code's |
| CronMetric.ExitLineTellsCode | src/cron-runner.ts:691-697 | and it tells every code from every other |
| Host.StepKeepsInv | src/runtime-guard.ts:324-341 | every file-system step of any process keeps ownership backed by its entries and exclusive |
| Host.RunKeepsInv | src/runtime-guard.ts:471-538 | so does every run of any number of processes, with deaths anywhere |
| Host.MutualExclusion | src/runtime-guard.ts:398-538 | in every run two live processes never hold one lock |
| Host.HoldersAgree | src/cron-runner.ts:397-421 | two live holders of a path are one process, for either lock rule |
| Host.HolderKeepsBothEntries | src/runtime-guard.ts:398-456 | in every run of the others a live holder of a runtime lock keeps both entries, as written, and the lock |
| Host.OthersLeaveMeUndisturbed | src/runtime-guard.ts:471-538 | no run of the others takes away what a process holds or has written |
| Host.NoLostUpdates | src/cron-runner.ts:672-733 | in every run a metric file counts each publication once, within the safe range, although reading and writing are two steps |
| Host.StepKeepsReadings | src/cron-runner.ts:672-720 | because the lock is exclusive, what a holder has read is still what the file says when it writes |
| Host.LastCodeIsWritten | src/cron-runner.ts:691-720 | in every run a metric file's first line says the exit code of the last publication |
| Host.WithoutTheLockUpdatesAreLost | src/cron-runner.ts:672-720 | had two processes both read before both wrote, as the lock forbids, a run would be missing |
| Host.UpdatesAreLostPastTheSafeRange | src/cron-runner.ts:607-633 | a publication is counted if and only if the new total is safe |
| Syscalls.Machine.Others | src/runtime-guard.ts:324-341 | any finite run of other processes may happen between two calls, and every world on the way is kept in the record |
| Host.LinkedIsRun | src/runtime-guard.ts:471-538 | the worlds that a machine has passed are those of one run of all its processes |
| Syscalls.Machine.NotLiveIsDead | src/runtime-guard.ts:415-422 | an entry whose process is found not live was written by a process that is dead |
| RuntimeGuard.ReadSnapshot | src/runtime-guard.ts:283-291 | a snapshot is a directory's identity and names, or nothing |
| RuntimeGuard.RemoveExactSnapshot | src/runtime-guard.ts:324-341 | undisturbed, the directory goes exactly if it still shows the snapshot; disturbed, an own lock is given up wholly, or left whole because in a world passed meanwhile it did not show the snapshot |
| RuntimeGuard.StaleCases | src/runtime-guard.ts:398-456 | the three shapes of a stale lock, and that no other listing is one |
| RuntimeGuard.RecoverStaleSnapshot | src/runtime-guard.ts:398-456 | undisturbed, recovery removes a lock exactly if it is stale; disturbed, it touches only entries of the dead |
| RuntimeGuard.RecoverStaleLock | src/runtime-guard.ts:458-469 | the same from the path alone |
| RuntimeGuard.CleanUpPartial | src/runtime-guard.ts:508-521 | undisturbed, the directory goes exactly if it shows nothing but this attempt's own complete entries |
| RuntimeGuard.AcquireOneLock | src/runtime-guard.ts:471-538 | a lock returned is held, a lock held already is refused and kept; undisturbed, it is taken exactly if it was free or stale, else nothing changes |
| RuntimeGuard.RemoveAll | src/runtime-guard.ts:556-572 | whatever others do, every held lock is given up, or left whole with an incomplete answer because it was altered in a world passed meanwhile: a lock that nobody touches is always given up |
| RuntimeGuard.AcquireUpToConflict | src/runtime-guard.ts:540-561 | undisturbed, locks are taken up to the first path that was taken already or whose lock was neither free nor stale, and no further |
| RuntimeGuard.AcquireRuntimeGuard | src/runtime-guard.ts:540-561 | undisturbed, a guard is given if and only if the paths are distinct and every lock was free or stale; else none is, and after a conflict every lock taken is given up but one that was altered in a world passed since, and that one is left whole |
| RuntimeGuard.Guard.Release | src/runtime-guard.ts:562-571 | releases once, with every lock given up but those altered meanwhile, completely only if all are, and repeats the first answer afterwards |
| CronHealth.StaleCases | src/cron-runner.ts:423-514 | which listings the health lock may take over, its lone claim without a liveness check |
| CronHealth.RecoverCronHealthLock | src/cron-runner.ts:423-514 | undisturbed, it removes exactly a stale lock, waits on any other, and never touches a live owner's file |
| CronHealth.AcquireCronHealthLock | src/cron-runner.ts:516-600 | a lock returned is held by its owner file; undisturbed, a free or stale lock is always taken |
| CronHealth.Release | src/cron-runner.ts:572-587 | the lock goes, undisturbed, with nothing else changed |
| CronHealth.NormalizedExitCode | src/cron-runner.ts:655-660 | a success is code 0 and a failure never is |
| CronHealth.HolderKeepsCounts | src/cron-runner.ts:672-733 | while a process holds the lock nobody else changes the counts |
| CronHealth.ReplaceCounts | src/cron-runner.ts:691-720 | writing adds one run, of this outcome, to what was read, and so to what the file says at that moment |
| CronHealth.CompletedCallCounts | src/cron-runner.ts:646-738 | with any writers at work since the beginning, the file is what was there, and this process's runs with exactly this one added, and all runs of others |
| CronHealth.CleanUp | src/cron-runner.ts:385-395 | undisturbed, exactly the entries written go, and the directory exactly if that leaves it empty |
| CronHealth.WriteCronHealthMetric | src/cron-runner.ts:646-738 | a completed call makes exactly one publication, with the normalized exit code, and is counted so whatever others do; one that throws makes that one or none; undisturbed it completes exactly if the lock was free or stale |
| SlotProofs.RecoveryCutKeeps | scripts/bot_slots.py:695-724 | recovery cut anywhere comes to the same pair when it is run again |
| SlotProofs.RecoveryCompletes | scripts/bot_slots.py:695-724 | uncut, it leaves the settled pair, an agreeing active state and no transition |
| SlotProofs.RepeatedRecoveryKeeps | scripts/bot_slots.py:695-724 | any number of cut recoveries keeps the pair that recovery will settle at |
| SlotProofs.SwitchCutKeeps | scripts/bot_slots.py:659-693 | a switch commits at the replacement of the active state and not before |
| SlotProofs.SwitchCommandCut | scripts/bot_slots.py:798-881 | activate and rollback, recovery included, cut after any write |
| SlotProofs.CrashAtomicity | scripts/bot_slots.py:695-881 | after any cut and any cut recoveries, exactly the old pair or exactly the new one |
| SlotProofs.ActivateAnswers | scripts/bot_slots.py:798-851 | an activation is refused only for an unsafe ID or a release that is not intact, whatever was selected; it is idempotent exactly for the selected release |
| SlotProofs.RollbackAnswers | scripts/bot_slots.py:854-881 | a rollback is refused exactly if there is no current or no previous release |
| SlotProofs.ActivationSelects | scripts/bot_slots.py:798-851 | a finished activation has selected its release and kept the one before |
| SlotProofs.SelectsWhatItSays | scripts/bot_slots.py:659-881 | on any store, however damaged, a finished switch has selected an intact release, and selectors, active state and answer agree |
| SlotProofs.RollbackTwice | scripts/bot_slots.py:854-881 | whenever there is a pair, rolling back twice is accepted twice and restores it |
| SlotProofs.ScanDeletesOnlyStrays | scripts/bot_slots.py:901-922 | the scan deletes nothing that is referenced and does not look temporary |
| SlotProofs.ScanLeaves | scripts/bot_slots.py:901-922 | what a finished scan leaves, name by name |
| SlotProofs.PruneAnswers | scripts/bot_slots.py:884-928 | prune is refused only for a name that is neither a release's nor a staging's, and else reports exactly the unselected names, and apart from them the temporary ones |
| SlotProofs.PruneSparesTheNamed | scripts/bot_slots.py:884-928 | on any store, cut anywhere, prune leaves alone what selectors or active state name, unless it looks temporary |
| SlotProofs.PruneCut | scripts/bot_slots.py:884-928 | prune cut anywhere keeps the settled pair and its releases |
| SlotProofs.PruneKeepsExactly | scripts/bot_slots.py:884-928 | a finished prune keeps exactly the referenced releases that do not look temporary |
| SlotProofs.PruneDanglesExactly | scripts/bot_slots.py:901-917 | current dangles after it if and only if its ID looks temporary |
| SlotProofs.TemporaryLookingReleaseDangles | scripts/bot_slots.py:32-32 | every such ID can be staged, activated and pruned away |
| SlotProofs.StrayDangles | scripts/bot_slots.py:901-917 | a.tmp.1 is such an ID |
| SlotProofs.StagePublishes | scripts/bot_slots.py:745-795 | staging appears by one rename, whole |
| SlotProofs.StageAnswers | scripts/bot_slots.py:727-795 | exactly when staging accepts, and when it finds the release there already |
| SlotProofs.CommandKeepsInv | scripts/bot_slots.py:727-928 | every command cut anywhere keeps the store consistent |
| SlotProofs.ReferencesNeverDangle | scripts/bot_slots.py:727-928 | over any history of cut commands all references name intact releases |
| SlotProofs.CurrentStays | scripts/bot_slots.py:798-881 | once settled, current is never absent |
| SlotProofs.CurrentStaysExactly | scripts/bot_slots.py:695-881 | a current that is set stays over every history if and only if it is settled |
| SlotProofs.FirstActivationCanBeUndone | scripts/bot_slots.py:829-845 | settled is needed: the first activation can be undone |
| BotSlots.Slots.Reconcile | scripts/bot_slots.py:695-724 | recovery as it runs makes exactly the planned writes up to the crash |
| BotSlots.Slots.Activate | scripts/bot_slots.py:798-851 | so does activation, with its answers and refusals |
| BotSlots.Slots.Rollback | scripts/bot_slots.py:854-881 | so does rollback |
| BotSlots.Slots.Prune | scripts/bot_slots.py:884-928 | so does prune, entry by entry |
| BotSlots.Slots.Stage | scripts/bot_slots.py:727-795 | so does staging, with its clean-up |
| CollectPrompt.CollectPromptOf | src/message-queue.ts:114-124 | the loop builds the collect prompt |
| CollectPrompt.CollectPromptKeepsMessages | src/message-queue.ts:114-124 | every one-line message can be read back from the prompt, in order |
| ChatProofs.AttemptKeeps | src/message-queue.ts:458-476 | offering the next entry keeps the offers a prefix and touches nothing else |
| ChatProofs.Drains | src/message-queue.ts:349-372 | the end of a batch, and the batch it begins, keep the whole invariant |
| ChatProofs.StepKeeps | src/message-queue.ts:222-645 | every event keeps the invariant, in any order |
| ChatTheorems.EachMessageIsInOnePlace | src/message-queue.ts:222-645 | every message is pending, in the batch, collected or departed: exactly one of these |
| ChatTheorems.CallbacksFollowExit | src/message-queue.ts:349-363 | a departed message's cleanup has run once, its drop cleanup once or, by its exit, never |
| ChatOwnership.EventsDecideExit | src/message-queue.ts:312-324 | a message left owned if and only if the ownership event for a batch handed over with it came while the chat stood, and consumed if and only if steering consumed it |
| ChatOwnership.CallbacksRunOnce | src/message-queue.ts:349-363 | cleanup once; drop cleanup once, or never if one of these events took the media |
| ChatOwnership.TakenMediaIsKept | src/message-queue.ts:345-363 | after such an event the drop cleanup never runs, however the story goes on |
| ChatTheorems.NothingRunsEarly | src/message-queue.ts:703-712 | nothing runs for a message that has not departed |
| ChatTheorems.PromptsKeepOrder | src/message-queue.ts:291-443 | over all prompts no message is sent twice or out of order, prompts hold their messages whole, no batch lacks a platform |
| ChatTheorems.UnconsumedFallBack | src/message-queue.ts:374-443 | what steering did not consume is the next batch, in order of arrival |
| ChatTheorems.OffersAreAPrefix | src/message-queue.ts:445-499 | offers are a prefix of the generation's arrivals, those awaiting an answer a prefix of the buffer |
| ChatTheorems.LateAnswersChangeNothing | src/message-queue.ts:478-549 | an answer after settlement, clear or consumption changes nothing, nor does the end of a late submission |
| ChatTheorems.ShutdownDrains | src/message-queue.ts:599-618 | after shutdown's flush, once no flush is running, every message has departed |
| ChatTheorems.ShutdownEnds | src/message-queue.ts:612-618 | and no flush is running after at most eight answers of the calls that it waits for |
| QueueTheorems.QueueDrains | src/message-queue.ts:599-618 | the same of the whole queue, forgotten states included: once no flush runs every message of every chat has departed |
| QueueTheorems.QueueEnds | src/message-queue.ts:612-618 | and no flush runs after at most eight answers for each state, in any order |
| ChatTheorems.ShutdownFlushesAllPending | src/message-queue.ts:605-611 | the guard of that flush leaves no pending message out |
| ChatPromises.TurnedAwayExactlyWhenFull | src/message-queue.ts:238-263 | over every story a message was turned away if and only if, when it came, the buffer that it would have joined held `queueCap` messages |
| ChatPromises.NothingWaitsToBeOffered | src/message-queue.ts:445-499 | in a standing, unblocked busy chat whatever is collected has been offered to steering, or an offer is on its way |
| ChatPromises.FinishedMeansHanded | src/message-queue.ts:326-338 | a message whose batch is over was handed to the agent, unless its session could not be prepared or the chat was cleared |
| ChatPromises.PendingHasTimer | src/message-queue.ts:269-276 | what is pending has a timer running, until shutdown cancels timers |
| ChatPromises.BatchIsForLastPlatform | src/message-queue.ts:303-309 | a batch begins for the platform of the last message that came |
| ChatPromises.PromptIsForLastAgent | src/message-queue.ts:326-335 | exactly a batch whose notice is done is handed over, whole, to the agent of the last message that came |
| ChatPromises.FailuresAreReplied | src/message-queue.ts:342-349 | every failed batch of a standing chat gets an error reply before anything else becomes of it |
| ChatPromises.NoticeExactlyWhenDue | src/message-queue.ts:664-700 | a sender who is turned away is told exactly if no notice waits and half a minute has gone since the last |
| ChatPromises.ForgottenExactlyAtRest | src/message-queue.ts:714-739 | a chat is forgotten exactly if no turn, message or timer is in its hands and no pause is owed |
| MessageQueue.MessageQueue.Enqueue | src/message-queue.ts:222-277 | a message is accepted exactly while admission is open and the buffer that it joins has fewer than `queueCap` messages, on a new or a known chat |
| MessageQueue.MessageQueue.StartFlush | src/message-queue.ts:291-345 | the first segment of a flush |
| MessageQueue.MessageQueue.ResumeFlush | src/message-queue.ts:326-372 | each later segment, on a state that may be forgotten by then |
| MessageQueue.MessageQueue.AgentAnswers | src/message-queue.ts:320-324 | ownership and steering answers, guarded by object identity |
| MessageQueue.MessageQueue.TimerFires | src/message-queue.ts:273-289 | timers and due notices |
| MessageQueue.MessageQueue.DrainCollectBuffer | src/message-queue.ts:374-443 | the drain loop |
| MessageQueue.MessageQueue.Clear | src/message-queue.ts:567-582 | clearing one chat detaches its state and drops what was queued |
| MessageQueue.MessageQueue.EvictIdle | src/message-queue.ts:715-739 | an idle state goes once its cooldown has passed, and until then forgets its platform |
| MessageQueue.MessageQueue.BeginShutdown | src/message-queue.ts:589-602 | admission closes and all timers are cancelled |
| MessageQueue.MessageQueue.FlushPending | src/message-queue.ts:605-611 | every pending chat that is not busy is flushed |
| MessageQueue.MessageQueue.ClearAll | src/message-queue.ts:621-635 | every chat is cleared |
| JsonlSplitter.RawLinesAppend | src/pi-rpc-protocol.ts:502-505 | more text only changes the unfinished line |
| JsonlSplitter.CompleteAppend | src/pi-rpc-protocol.ts:502-505 | the records of two chunks are those of the text |
| JsonlSplitter.NewlineOnlyJsonlSplitter.Push | src/pi-rpc-protocol.ts:502-505 | a chunk yields exactly the records it completes |
| JsonlSplitter.NewlineOnlyJsonlSplitter.End | src/pi-rpc-protocol.ts:507-521 | the end yields what is left, and in all the records of the whole text |
| JsonlSplitter.SplitChunks | src/pi-rpc-protocol.ts:498-554 | however a text is cut, its records are the same |
| PiProofs.ResultEndsStream | src/pi-rpc-protocol.ts:1242-1260 | a result line and the end of the stream come together |
| PiProofs.LengthOnlyRetained | src/pi-rpc-protocol.ts:1497-1507 | the last reasoning-only stop is retained until a run supersedes it |
| PiProofs.OverflowTracked | src/pi-rpc-protocol.ts:1276-1283 | the pending overflow is the first since the last one ended |
| PiProofs.LastDecisionPends | src/pi-rpc-protocol.ts:1454-1668 | the pending outcome is what the last deciding record decided, worked out from the history alone |
| PiProofs.SettledLengthOnly | src/pi-rpc-protocol.ts:1299-1317 | at settlement an unsuperseded reasoning-only stop wins |
| PiProofs.SettledLastDecision | src/pi-rpc-protocol.ts:1299-1317 | otherwise the last decision, or a fixed error by whether any run ended |
| PiProofs.SettledUndecided | src/pi-rpc-protocol.ts:1299-1317 | with nothing decided, the fixed error that no run ended |
| PiProofs.AnswerIsOneRun | src/pi-rpc-protocol.ts:1445-1452 | what is forwarded since the last reset comes from one run |
| PiProofs.AtMostOneReset | src/pi-rpc-protocol.ts:1334-1343 | at most one reset between two ends of runs |
| PiTold.RunEndsBy | src/pi-rpc-protocol.ts:1174-1195 | the five ways a run ends, from its last assistant message |
| PiTold.RetainedIs | src/pi-rpc-protocol.ts:1285-1297 | what is retained at any moment, from the history alone |
| PiTold.EndOutcomeIsTold | src/pi-rpc-protocol.ts:1319-1332 | a stream that ends unsettled is always an error: the retained one with text, else that the process has gone, with the session spelled out |
| PiTold.HandledOutcomeIsTold | src/pi-rpc-protocol.ts:1870-1884 | a prompt counts as handled exactly if the last accepted reply said so and no run began, ended or settled |
| PiTold.EveryLineIsTold | src/pi-rpc-protocol.ts:1389-1677 | the exact line, with its text or tool name, that every record brings, from the history alone |
| PiStream.PiRpcParseState.ParsePiEvent | src/pi-rpc-protocol.ts:1389-1677 | the translator, field by field, is the pure translation |
| PiStream.PiRpcParseState.OnAgentEnd | src/pi-rpc-protocol.ts:1454-1522 | the five ways a run can end |
| PiStream.ReadPiStream | src/pi-rpc-protocol.ts:1901-1969 | exactly one result, as the last line; where reading stops, after which burst, record or end, and with which result, from the records alone |
| PiStream.FinishStream | src/pi-rpc-protocol.ts:1949-1969 | at the end of the stream: the unfinished record, then the handled prompt's result, else the error of an ended stream |
| CronOutbox.AlwaysAgrees | src/cron-runner.ts:1777-1963 | in every history the slot is what the invocation takes it to be |
| CronOutbox.GenerationOwesNothing | src/cron-runner.ts:1777-1963 | generation never starts while a record is owed |
| CronOutbox.NothingIsReplaced | src/cron-runner.ts:1684-1721 | a record is stored into an empty slot or over itself with one more attempt |
| CronOutbox.ReplayIsFaithful | src/cron-runner.ts:1852-1866 | a replay delivers the stored payload to the stored target |
| CronOutbox.DeliveredIsProduced | src/cron-runner.ts:2036-2055 | what counts as delivery is the output itself, however many invocations later |
| CronOutbox.EveryOutputIsAccountedFor | src/cron-runner.ts:1777-2058 | an output is delivered, pending, disposed of or in hand, except exactly if an invocation was cut with it carried and undelivered |
| CronOutbox.OutputIsInOnePlace | src/cron-runner.ts:1684-1963 | these exclude each other |
| CronOutbox.WithoutCutsNothingIsLost | src/cron-runner.ts:1777-2058 | without cuts nothing is lost |
| CronOutbox.CrashAfterGenerationLosesOutput | src/cron-runner.ts:2000-2036 | the gap is real: after generation |
| CronOutbox.CrashAfterExpiryLosesOutput | src/cron-runner.ts:1820-1842 | after clearing an expired record |
| CronOutbox.CrashAfterRefusalLosesOutput | src/cron-runner.ts:1914-1936 | after clearing an undeliverable record |
| CronOutbox.ReportsOnce | src/cron-runner.ts:1618-1630 | an invocation reports at most once, as its last act |
| CronOutbox.RunsEndWithReport | src/cron-runner.ts:1991-2058 | one that has begun its run, or failed before it, can end only with a report |
| CronOutbox.Accounts | src/cron-runner.ts:1619-2058 | at every moment an invocation has started a run or failed before it exactly if it owes a report or has made its one |
| CronOutbox.FinishedInvocationsReport | src/cron-runner.ts:1781-2058 | a finished invocation has reported once if it started a run or failed before it, else never, and exactly then it ended in a stop |
| CronPromises.StopsExactlyWhenHeldBack | src/cron-runner.ts:1777-1963 | an invocation stops without a run exactly if something failed or the pending output was refused for now, and then leaves the record there; a record is replayed exactly if it is an output and not too old |
| CronPromises.OutputIsKept | src/cron-runner.ts:2034-2055 | an output is delivered, or refused after every attempt; refused for now it is in the slot whole, unless the slot could not be read or written, and else the slot is empty |
| CronPromises.ReportTells | src/cron-runner.ts:1991-2058 | the outcome and disposition reported are those that the acts call for |
| CronPromises.InvocationsAreTold | src/cron-runner.ts:1587-2059 | all of this of every finished invocation after any history |
| CronRunner.Runner.Preflight | src/cron-runner.ts:1777-1963 | a record is dropped for its kind or age, else tried; every stop is noted, or logging it threw |
| CronRunner.Runner.Replay | src/cron-runner.ts:1852-1962 | one attempt; only success or a permanent failure clears the record |
| CronRunner.Runner.QueueOutputIfEmpty | src/cron-runner.ts:1684-1721 | an undelivered output is stored if and only if the slot is found empty and can be written |
| CronRunner.Runner.Execute | src/cron-runner.ts:1965-2058 | once generation has begun the report is made on every path, and the end is a success, a failure or a throw as acts and report say |
| CronRunner.Runner.Run | src/cron-runner.ts:1587-2059 | a whole invocation is lawful after any history; its acts tell its report, its end, what it left in the slot and what became of its output |
| Collaboration.ReceiptsOnlyProgress | src/collaboration.ts:101-101 | over any history no receipt returns to accepted, consumed is absorbing, deadlines stay |
| Collaboration.Router.Prune | src/collaboration.ts:106-111 | messages go exactly a lifetime after their deadline and conversations at it, up to the moment of looking, with every retained count right |
| Collaboration.Router.Post | src/collaboration.ts:172-178 | a message joins its conversation within both bounds, or is turned away |
| Collaboration.Router.Send | src/collaboration.ts:165-190 | a new conversation with its one deadline; refused only for a bad target or text, or with the store full; nothing else changes |
| Collaboration.Router.Reply | src/collaboration.ts:166-190 | a reply joins its target's conversation before the deadline and never extends it; refused only for its target, its text or a bound; nothing else changes |
| Collaboration.Router.HandOver | src/collaboration.ts:178-182 | disconnected exactly for a terminal that is not there, unknown if its connection fails, else accepted |
| Collaboration.Router.DeliveryStatus | src/collaboration.ts:158-164 | exactly an open receipt is settled, by its receiver, with one of three statuses, and no other receipt changes |
| Collaboration.Router.ReceiptOf | src/collaboration.ts:149-157 | an open receipt past its deadline is unknown |
| Collaboration.Router.LoseReceipts | src/collaboration.ts:117-126 | exactly the open receipts concerned become unknown |
| Collaboration.Router.SocketClosed | src/collaboration.ts:117-126 | with a terminal's connection exactly its open receipts are lost |
| Collaboration.Router.Hello | src/collaboration.ts:130-137 | a connection registers once, and no two under one address |
| CronFields.SplitJoins | src/cron-plist.ts:108-113 | splitting a field loses nothing |
| CronFields.AddPart | src/cron-plist.ts:122-125 | the step loop adds exactly a part's values |
| CronFields.ExpandCronField | src/cron-plist.ts:104-129 | a valid field expands to exactly the values at which it fires, ascending; an invalid one is refused |
| CronCalendar.ParseCronToCalendarIntervals | src/launchd-cron-plists.ts:170-211 | the five nested loops give the product of the expanded fields |
| CronCalendar.CompilationKeepsMeaning | src/launchd-cron-plists.ts:188-211 | at every moment some interval fires if and only if all five fields match |
| CronCalendar.IntervalsAreDistinct | src/launchd-cron-plists.ts:188-211 | intervals are pairwise distinct and as many as the product of the field sizes |
| CronCalendar.ValidateCronScheduleForPlist | src/cron-plist.ts:54-97 | a schedule is accepted exactly if it is valid and has at most 10,000 combinations |
| CronCalendar.ExpansionIsUnique | src/cron-plist.ts:104-129 | validation and compilation expand a schedule alike |
| CronDiagnostics.BoundedMetadata | src/cron-diagnostics.ts:355-371 | the loop ends for every length, the note states the true number left out, and a truncated text is exactly 256 characters long |
| CronDiagnostics.SplitPreservingLineEndings | src/cron-diagnostics.ts:156-169 | the lines rejoin to the text, each with one whole line break |
| CronDiagnostics.FindSecret | src/cron-diagnostics.ts:240-257 | a secret is found at a quote exactly if a sensitive key, a colon and a quoted value follow |
| CronDiagnostics.FindValueEnd | src/cron-diagnostics.ts:258-273 | the first closing quote before a delimiter |
| CronDiagnostics.RedactEscapedJsonSecrets | src/cron-diagnostics.ts:229-288 | every secret that opens is masked up to its first end, and all other text is kept |
| CronDiagnostics.RedactionIsUnique | src/cron-diagnostics.ts:229-288 | that redaction is the only one: no secret is missed and nothing else is masked |
| PollingWatchdog.ReachableSinceMeaning | src/polling-watchdog.ts:187-205 | it is a time if and only if reachability came back then and has not been lost since |
| PollingWatchdog.Watchdog.BeginCheck | src/polling-watchdog.ts:127-172 | a heartbeat is asked for exactly if neither a poll nor the watching is younger than the threshold, no update accounts for it and no other check is running |
| PollingWatchdog.Watchdog.FinishCheck | src/polling-watchdog.ts:172-219 | the exact condition of a restart |
| PollingWatchdog.ExitsAtMostOnce | src/polling-watchdog.ts:127-220 | over every run of one watchdog there is at most one exit |
| PollingWatchdog.OnlyStalledPollingExits | src/polling-watchdog.ts:127-220 | it comes only in a check whose heartbeat succeeded, with polling stale at its beginning and its end, and a full threshold after reachability returned if a failure is outstanding |

## Left out

- Sockets, child processes, HTTP, chat platforms, metrics, timers and logging: calls into them are parameters, nondeterministic results or events.
- Path canonicalisation, directory modes, user IDs and the pinned descriptor of the runtime guard: a lock directory is its identity, modification time and entry names.
- `mkdir` errors other than an existing directory, for the runtime guard: they are conflicts like any other.
- Manifests, inventories and hashes of releases: a release is intact or damaged; that prune refuses an unreferenced release whose inventory fails is left out with them.
- Selector temporaries (`.current.tmp.<pid>`) that a cut replacement of a selector leaves in the slots root: nothing reads them.
- Decoding of byte chunks to text, and `end` with an argument, in the splitter.
- The text of saturation notices, and whether they arrive.
- Rejection of an empty segment that is only white space in a cron field: fields come from a split at white space.
- `every N` schedules, which compile to no calendar interval.
- The regular-expression redactions and the YAML block redaction of diagnostics.
- Discovery, frames and the client of the collaboration protocol.
- Which delivery failures may be queued, and classification of the agent's output: nondeterministic results.
- JsonlSplitter.NewlineOnlyJsonlSplitter.Push: chunks are text, so a multi-byte character split between chunks is not modelled.
- CronRunner.Runner.Run: the administrator's notices are acts only if they throw, the delivery defaults' warnings are left out, and all clock readings of one invocation are one.
- CronPromises.OutputIsKept: only one invocation at a time has the slot; overlapping invocations of one cron are not modelled.
- QueueTheorems.QueueEnds: says how many answers end the flushes, not that the agent answers.
