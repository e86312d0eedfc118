# agent-tempo: verified models of its protocol cores

agent-tempo runs coding agents as players of an ensemble, each behind a Temporal workflow. An adapter
process keeps a lease on its workflow (an *attachment*), a daemon relays chat, and a handful of helpers
write text that another program has to read back. This project models the parts of that code where
order, interleaving or another parser decides whether it is right, and proves what they promise.

`dafny verify dfyconfig.toml` checks everything.

| files | what they model |
|---|---|
| `Lifecycle.dfy` | `BaseAttachment` of `src/adapters/base.ts` as a state machine: every asynchronous routine is cut at its awaits, a `State` is what the adapter and the event loop hold between two cuts, an `Event` resumes one routine or calls in from outside, and `Step` runs the code up to the next cut. Replies, policies of subclasses, the clock and the order of events are arbitrary |
| `Attachment.dfy` | the same code as a class whose methods update its fields; `Handle` runs the method an event asks for and does what `Step` does, and `Drive` runs any list of events on a new adapter |
| `LifecycleInvariants.dfy`, `LifecycleTicks.dfy`, `LifecycleRuns.dfy` | the invariant of every reachable state, what one event does to the ticks in flight, and the concrete runs that serve as witnesses |
| `LifecycleReplies.dfy`, `LifecycleMoves.dfy` | what each event makes the adapter do and how it leaves its fields, said of the event and the fields alone |
| `LifecycleLoops.dfy`, `LifecycleQuiescence.dfy`, `LifecycleTerminal.dfy`, `LifecycleHistory.dfy`, `LifecycleEvidence.dfy` | theorems over whole runs: no orphaned loops, coming to rest after a stop, terminal discipline, identity and phase notifications, and whose history decides that a workflow is gone |
| `ReconnectBudget.dfy`, `ReconnectPersistence.dfy`, `ReconnectTermination.dfy` | how often a reconnect tries, that it does not give up before, and that it ends |
| `Lease.dfy`, `LeaseRuns.dfy` | how many lost heartbeats a lease survives: the arithmetic, and that every run keeps to it |
| `ChatFetch.dfy`, `ChatDelivery.dfy`, `ChatMirror.dfy` | the incremental chat fetch, how often it delivers each entry, and how often a message with two records shows |
| `Jsonc.dfy`, `ShellWords.dfy` | the JSONC comment stripper, and argument quoting against POSIX and fish |
| `TemporalYaml.dfy`, `ConfigSources.dfy` | the YAML-subset reader and the two configuration resolvers |
| `Restart.dfy`, `RestartOutcomes.dfy` | the restart activity as a log of commands, with its retries; its outcome and its log, read off the replies |
| `Lookup.dfy` | finding a session under a lagging index |
| `BindRetry.dfy` | the HTTP bind retry loop |
| `Options.dfy`, `Sequences.dfy` | the option datatype and a fact about sequences that the others share |

Where the source is a loop over local variables or an object with fields, the project has a method or a
class in that shape, proved equal to a specification function (`StripJsonComments` and `Strip`,
`DeliverRestart` and `Deliver`, `BaseAttachment` and `Step`); the theorems are about the function.

## Where code and comments disagree

The model follows the code.

- `src/spawn.ts:136` calls `shellQuote` safe in bash, zsh and fish; `src/spawn.ts:240-244` says it is not in fish.
  It is for exactly the arguments described by `ShellWords.FishSafe` (`ShellQuoteUnderFish`), and
  `buildTerminalCommand` uses it for the arguments under fish too.
- `src/adapters/base.ts:1133-1134` says that an aborted reconnect exits without a terminal. That holds for an abort
  during the backoff sleep; a stop that lands on one of the loop's RPCs makes the loop end at its head or in a reply
  and fire a terminal. `TerminalAfterStop` is such a run, and `StoppedNotifies` says on exactly which replies a
  stopped adapter still fires one.
- `src/adapters/base.ts:797-798` says that the history consulted after a failed RPC is that of the old run. It is that
  of the run pinned when the RPC fails, which is the one the RPC went to as long as no reclaim or rebind moved the
  handle (`HistoryOfWhichRun`); otherwise the history of a living run can be taken for the end of the workflow
  (`DestroyOnTheWrongRun`).
- `src/adapters/base.ts:585-597` describes one heartbeat loop. A heartbeat signal that outlives a recovery leaves two
  (`OverlapDoublesTheHeartbeat`); the exact condition is `ResumeSinglesExactly` for one recovery and `SingleExactly` for
  whole runs.
- `src/activities/outbox.ts:1187` reads the last `contextMessages` messages; for zero, which the tool accepts,
  it replays all of them (`Recent`).
- `src/activities/maestro.ts:397-399` turns the conductor's reports to itself towards the maestro, so that the chat shows
  no message from the conductor to itself. The conductor's record of having sent it is not skipped, so that message
  shows as well (`SelfReportShowsTwice`); how often any message shows is `ShownHowOften`.
- `src/config.ts:885` presents `getConfigWithSources` as `getConfig` with sources; only `getConfig` rejects an invalid
  ensemble name (`ResolversAgree`).
- `src/daemon.ts:649` says that recovery is reported once. The report is inside the `try`, so a callback that
  throws makes the loop go on and report again (`ThrowingCallbackReportsTwice`; the exact count is `ReportsAreExact`).
  The only caller, `src/daemon.ts:1463-1468`, passes a callback that does not throw synchronously.

## Model

| member | source | states |
|---|---|---|
| LifecycleInvariants.StepKeepsInv | src/adapters/base.ts:300-1313 | one segment of code, whatever resumed it and whatever the reply, keeps the invariant: numbered timers and routines, at most one recovery routine and only while `reconnecting`, token and pinned handle on the same run, no armed timer or sleeper in a stopped adapter, and each loop of a running adapter alive |
| LifecycleInvariants.RunKeepsInv | src/adapters/base.ts:300-1313 | the invariant holds at every await boundary of every interleaving from the constructor on |
| LifecycleReplies.EffectsAreExact | src/adapters/base.ts:300-1313 | for every state of the invariant, every event and every effect: the segment has the effect if and only if the event asks for it; among them a revocation is told if and only if the watcher's reply shows another holder, or detached without one, and a terminal of each reason exactly on the replies that end the adapter for it |
| LifecycleReplies.OneEffectEach | src/adapters/base.ts:300-1313 | every segment but a watcher reply has at most one effect |
| LifecycleReplies.InfoIsToldInOrder | src/adapters/base.ts:710-748 | a watcher reply is told as the phase if it is news, then the revocation, then the terminal, each at most once, with the exit signal of a listener that stops the adapter right behind what it heard |
| LifecycleMoves.RevocationIsAnswered | src/adapters/base.ts:717-741 | after a revocation a running adapter with quiet listeners has one reconnect loop under its old attachment id and its timers taken, and no terminal, if the subclass reconnects; otherwise it is stopped with the terminal of that reason |
| LifecycleMoves.SuccessorIsFollowed | src/adapters/base.ts:779-819 | a history that names a successor leads a running adapter to a rebind to the first one named, or to its end if the subclass does not reconnect |
| LifecycleMoves.TroubleIsSleptOff | src/adapters/base.ts:1204-1299 | a transient pre-check error, a draining phase, a `describe` that reports running and a transient claim error, in a running adapter before the deadline, change nothing but that the routine sleeps before attempt n + 1 for the next capped backoff |
| LifecycleMoves.TroubleEndsIt | src/adapters/base.ts:1157-1303 | and in a stopped adapter or past the deadline they end the routine as exhausted |
| LifecycleMoves.HopelessEndsIt | src/adapters/base.ts:1215-1239 | a workflow gone, another holder, a `describe` that does not report running and a terminal claim error end it at once |
| LifecycleMoves.AttemptsBegin | src/adapters/base.ts:1148-1163 | the budget runs from the return of `onReconnectStart`, and the first attempt sleeps for the base |
| LifecycleMoves.SleepThenPrecheck | src/adapters/base.ts:977-992 | an elapsed sleep wakes its routine and is forgotten, and nothing else |
| LifecycleMoves.WokenAsksOrLeaves | src/adapters/base.ts:1164-1181 | a woken routine sends the pre-check; an aborted or stopped one leaves without a word |
| LifecycleMoves.PrecheckLeadsOn | src/adapters/base.ts:1181-1275 | a free lease leads to the claim, a terminal-class error to `describe` |
| LifecycleMoves.ClaimIsTaken | src/adapters/base.ts:1258-1265 | a granted claim changes token, handle, phase and backoffs, and nothing else |
| LifecycleMoves.RebindIsTaken | src/adapters/base.ts:1072-1082 | a rebind changes the run of token and handle, phase and backoffs, and nothing else |
| LifecycleMoves.CrashEndsIt | src/adapters/base.ts:1027-1039 | a routine that throws is over, and the adapter with it |
| LifecycleMoves.RecoveryEnds | src/adapters/base.ts:1106-1110 | the end of a recovery arms both loops of a running adapter, each a cadence or its backoff away |
| LifecycleMoves.QuietReplyGoesOn | src/adapters/base.ts:684-762 | any other watcher reply changes only the phase and the next query's timer |
| LifecycleMoves.TimerBecomesTick | src/adapters/base.ts:603-684 | a due timer of a free, attached adapter becomes a tick that asks; any other tick is over at once and rearms only if nothing else has the timers |
| LifecycleMoves.TickTurns | src/adapters/base.ts:634-750 | a failed RPC turns to history or to its backoff, and nothing else changes |
| LifecycleMoves.TickEnds | src/adapters/base.ts:626-762 | the end of a tick of either loop: an accepted heartbeat forgets the backoff, an unhandled failure makes it the cadence or half as much again up to 30 seconds, a handled one leaves it; and the next timer is armed unless a stop, a terminal or a recovery has the timers |
| LifecycleMoves.StartIsTaken | src/adapters/base.ts:465-511 | a granted start sets token and handle and arms both loops, a refused one does neither |
| LifecycleMoves.StopIsTaken | src/adapters/base.ts:520-553 | a first stop takes timers and sleeps away and signs off exactly when graceful and attached; any other does nothing |
| LifecycleMoves.SleepIsGranted | src/adapters/base.ts:977-992 | a subclass's sleep lasts as long as asked for, and a stopped adapter grants none |
| LifecycleLoops.NoOrphanedLoops | src/adapters/base.ts:555-763 | after a successful start the adapter is stopped, or one recovery routine owns the timers, or heartbeat and watcher each have an armed timer or a tick in flight |
| LifecycleLoops.ExactlyOneEach | src/adapters/base.ts:1010-1114 | in runs where no tick outlives a recovery of a running adapter each loop is exactly one timer or one tick, and has no timer while a recovery is under way |
| LifecycleLoops.SingleExactly | src/adapters/base.ts:1010-1114 | over whole runs: that holds in every state of a run if and only if no tick outlives a recovery while the adapter runs |
| LifecycleLoops.ResumeSinglesExactly | src/adapters/base.ts:1106-1110 | the end of a recovery leaves a loop single if and only if none of that loop's ticks is still in flight |
| LifecycleLoops.OverlapDoublesTheHeartbeat | src/adapters/base.ts:1106-1110 | a run of a running adapter with two live heartbeat loops, for every configuration and token |
| LifecycleQuiescence.StopRunsDown | src/adapters/base.ts:520-553 | a stopped adapter stays stopped, and every segment that still runs strictly lowers a measure over timers, ticks and routines |
| LifecycleQuiescence.StoppedComesToRest | src/adapters/base.ts:520-553 | after a stop at most `Remaining` segments run, in any order and with any replies |
| LifecycleQuiescence.WorkCanProceed | src/adapters/base.ts:977-1002 | for each timer, tick and routine that a stopped adapter still has there is an event that resumes it, possibly after time has passed |
| LifecycleQuiescence.SomethingProceeds | src/adapters/base.ts:520-553 | nothing is stuck: as long as a stopped adapter has anything left, a start still under way included, some event lowers it |
| LifecycleQuiescence.StoppedIsSilent | src/adapters/base.ts:603-682 | once stopped no heartbeat, query, pre-check or exit signal starts, no sleeper stays pending, no timer is armed by a tick or a recovery, and a claim starts only from a pre-check already in flight |
| LifecycleQuiescence.OneMoreClaimAtMost | src/adapters/base.ts:1161-1299 | however a run goes on after a stop, the reconnect loop starts at most one more claim |
| LifecycleTerminal.TerminalDiscipline | src/adapters/base.ts:843-867 | over any run: terminal listeners fire at most once, `adapterExited` is sent at most once and never after a terminal |
| LifecycleTerminal.StepDestroys | src/adapters/base.ts:745-793 | a segment notifies `destroy` if and only if the reply that resumed it says the workflow is gone and no terminal came before |
| LifecycleTerminal.DestroyHasWitness | src/adapters/base.ts:1180-1238 | every `destroy` in a run has its witness there: phase `gone`, a history without successor after a terminal tick error of the same tick, a `describe` that did not report running after a terminal pre-check error of the same routine, or a terminal claim error |
| LifecycleTerminal.HistoryAfterTerminalError | src/adapters/base.ts:779-793 | a tick fetches history only after its own RPC failed with a terminal-class error |
| LifecycleTerminal.DescribeAfterTerminalError | src/adapters/base.ts:894-923 | the `describe` tiebreaker runs only after the same routine's pre-check failed with a terminal-class error |
| LifecycleTerminal.StoppedNotifies | src/adapters/base.ts:1133-1313 | a stopped adapter fires a terminal if and only if none was fired before and the code resumed is a watcher reply showing its workflow gone, a history without successor, the return of `onReconnectStart`, a pre-check showing gone, draining or another holder, a non-terminal pre-check error, a `describe` reply, a failed claim or a crash; an aborted sleep is not among them |
| LifecycleTerminal.TerminalAfterStop | src/adapters/base.ts:1157-1303 | for every configuration with a positive budget and every token there is a run in which the adapter is stopped while the pre-check is in flight and then reports `reconnect-exhausted` |
| LifecycleHistory.StepSelf | src/adapters/base.ts:1077-1082 | what one segment does to token, observed phase and start: only a granted claim, a rebind or an observed phase changes them |
| LifecycleHistory.IdentityIsLastClaim | src/adapters/base.ts:476-487 | over any run attachment id and lease are those of the last granted claim, however many continue-as-new rebinds followed, and token and pinned handle name the run of the last claim or rebind |
| LifecycleHistory.StepTells | src/adapters/base.ts:1072-1082 | a segment tells of a claim if and only if its reply grants that token, and of a rebind if and only if it moves to that run |
| LifecycleHistory.IdentityIsTold | src/adapters/base.ts:476-487 | so the identity can be read off the effects of any run: token and pinned handle are the last claim told of, on the run last told of |
| LifecycleHistory.KnownPhaseIsLastMark | src/adapters/base.ts:710-715 | the remembered phase is the last one observed since the last claim or rebind |
| LifecycleHistory.NotifiesChange | src/adapters/base.ts:710-715 | a step tells listeners a phase if and only if it observed that phase and the last mark of the run differs |
| LifecycleHistory.PhasesAreStutterFree | src/adapters/base.ts:710-715 | what phase listeners hear over a run is the sequence of observed phases with repetitions removed, afresh after every reclaim and rebind, late replies included |
| LifecycleHistory.StepPhases | src/adapters/base.ts:710-715 | one segment tells listeners at most one phase, the one its reply shows, exactly when it differs from the remembered one |
| LifecycleEvidence.HistoryOfWhichRun | src/adapters/base.ts:779-820 | behind every history consulted in a run are the tick's RPC and its terminal-class failure; the RPC went to the run last claimed or rebound to when it was sent, the history is of the one when it failed, and the two are the same when no reclaim or rebind came in between |
| LifecycleEvidence.DestroyOnTheWrongRun | src/adapters/base.ts:795-820 | a run, for every configuration, token and other run id, in which a heartbeat sent to a continued run fails after the rebind and the successor's own history makes the adapter report `destroy` |
| ReconnectBudget.RunPaces | src/adapters/base.ts:1157-1166 | in every run the backoff of every attempt is the capped geometric one, within its bounds, and the clock has advanced by all the sleeps before it |
| ReconnectBudget.AttemptsAreBounded | src/adapters/base.ts:1157-1168 | an attempt is made only if the sleeps before it fit into the budget, so its number is below budget / base + 1, for every base up to the cap and every factor of at least one |
| ReconnectBudget.AtMostEighteen | src/adapters/base.ts:239-242 | with the production constants every attempt of every run has a number between 1 and 18 |
| ReconnectBudget.EighteenAttempts | src/adapters/base.ts:239-242 | and the budget admits an n-th attempt if and only if n is at most 18 |
| ReconnectPersistence.ExhaustionHasACause | src/adapters/base.ts:1157-1303 | exhaustion is told only to an adapter that is stopped, out of time or without budget, or whose routine crashed |
| ReconnectPersistence.AttemptsReachTheBudget | src/adapters/base.ts:1157-1168 | for every n an n-th attempt is made in some run, with nobody told of an end before, if and only if the sleeps before it fit into the budget |
| ReconnectPersistence.ProductionReaches | src/adapters/base.ts:239-242 | with the production constants exactly the attempts 1 to 18 are made |
| ReconnectTermination.RoutineAdvances | src/adapters/base.ts:1136-1313 | whatever resumes a recovery routine ends it or strictly lowers seven times its attempts still to come plus its rank within the attempt |
| ReconnectTermination.RecoveryTerminates | src/adapters/base.ts:1157-1303 | the loop terminates: in any continuation of any run a recovery routine is resumed at most seven times for each attempt the budget covers and seven times more |
| ReconnectTermination.ProductionTerminates | src/adapters/base.ts:239-242 | with the production constants at most 133 times |
| ReconnectTermination.RoutineCanGoOn | src/adapters/base.ts:1157-1303 | and it is never stuck before that: some return, reply or elapsed sleep resumes it |
| Lease.AcceptanceRearms | src/adapters/base.ts:626 | an accepted heartbeat forgets the backoff and arms the next one a cadence later |
| Lease.FailureRearms | src/adapters/base.ts:636-645 | the k-th failure in a row arms the next heartbeat one backoff later |
| Lease.RampIsGeometric | src/adapters/base.ts:636-645 | the k-th backoff is the cadence times 1.5 to the power of k - 1, up to 30 seconds |
| Lease.FailuresSurvived | src/adapters/base.ts:220-221 | with instant RPCs and a lease of three cadences, k failures in a row are survived if and only if k is at most one or 30000 k is less than two cadences, for every cadence |
| Lease.SurvivesAnyLatency | src/types.ts:137-144 | with every RPC slower by at most a bound, the one that renewed the lease included, and a pause up to a limit before the timetable begins, k failures are survived under all such latencies and pauses if and only if the instant timetable plus k + 2 bounds plus the longest pause stays below three cadences |
| Lease.SlowCadenceSurvives | src/adapters/base.ts:220-221 | for cadences from 30000 on that is 30000 k + bound (k + 2) + pause < 2 cadences |
| LeaseRuns.RunsKeepTheTimetable | src/adapters/base.ts:603-646 | in every run, after k heartbeats in a row have failed since the loop was armed by a start, an accepted heartbeat or the end of a recovery, the next one is due at that time plus their latencies and backoffs |
| LeaseRuns.ChainHasOrigin | src/adapters/base.ts:1258-1288 | and that time is the last renewal's reply itself, or the end of a recovery after it, so the pause between the two is what `onReconnected` or the rebind took; a heartbeat of an earlier attachment renews nothing |
| LeaseRuns.RunsOutliveFailures | src/adapters/base.ts:603-646 | so where k failures are survived, in a run whose RPCs keep to the bound and whose pause keeps to its limit the next heartbeat is due early enough to arrive within three cadences of the renewal's sending |
| Attachment.BaseAttachment.constructor | src/adapters/base.ts:311-381 | a new adapter is the initial state |
| Attachment.BaseAttachment.Handle | src/adapters/base.ts:465-1313 | for every event and every state the method that runs changes the fields and emits the effects exactly as `Step` says; an event that nothing waits for does nothing |
| Attachment.Drive | src/adapters/base.ts:311-1313 | a new adapter driven through any events ends in the fields of the run: loops never orphaned, token and handle those of the last claim and run, which its collected effects tell of too, stopped by a terminal and without pending sleepers once stopped; its collected effects hold at most one terminal and exactly the phase changes |
| Attachment.BaseAttachment.StopV2Lifecycle | src/adapters/base.ts:520-553 | idempotent teardown: timers cleared, sleepers aborted, the exit signal only when graceful and attached |
| Attachment.BaseAttachment.AbortPending | src/adapters/base.ts:995-1002 | every pending sleep is rejected, and no other routine is touched |
| Attachment.BaseAttachment.FireTerminalHook | src/adapters/base.ts:843-867 | the terminal hook's guard, teardown and notification |
| Attachment.BaseAttachment.FireOrReconnect | src/adapters/base.ts:1010-1040 | which of terminal, rebind and reconnect loop a recoverable reason leads to, and that both timers are paused |
| Attachment.BaseAttachment.FindCanSuccessor | src/adapters/base.ts:804-819 | the loop over the closed run's history returns its first successor, or none |
| Attachment.BaseAttachment.WatcherReply | src/adapters/base.ts:684-762 | a watcher reply: phase notification, then revoked, reaped or gone in that order, then the reschedule |
| ChatFetch.Push | src/activities/maestro.ts:371-422 | one loop of pushes appends exactly the projections of the slice, in order |
| ChatFetch.FetchEnsembleChat | src/activities/maestro.ts:333-449 | a call fails only when the scan does, and then hands back the old counts; otherwise its entries are in order of time, every entry occurs exactly once for each unread message that it is the record of, field by field, and the counts are the lengths of the logs read |
| ChatFetch.OutcomeKeepsPromise | src/activities/maestro.ts:365-422 | the same of the specification that the delivery theorems use |
| ChatFetch.Truncate | src/activities/maestro.ts:336-337 | a text of up to 500 characters is kept; a longer one becomes its first 499 and an ellipsis, 502 characters in all |
| ChatFetch.SortIsStable | src/activities/maestro.ts:425 | a delta is sorted by time and entries of one instant keep the order in which they were collected, so it is a permutation of them |
| ChatFetch.SortedStableIsUnique | src/activities/maestro.ts:425 | no other sequence is sorted and stable |
| ChatDelivery.EmittedOncePerSegment | src/activities/maestro.ts:358-422 | message i of a log is emitted exactly once per maximal reset-free segment in which some fetch saw more than i messages |
| ChatDelivery.DeliveredAtLeastOnce | src/activities/maestro.ts:358-362 | that is at least once if and only if some fetch saw it |
| ChatDelivery.DeliveredExactlyOnce | src/activities/maestro.ts:430-436 | and exactly once when no mark is ever reset |
| ChatDelivery.MarksAreKnown | src/activities/maestro.ts:430-436 | over whole runs the counts handed back are the marks the theorems speak of |
| ChatDelivery.DeliveredExactly | src/activities/maestro.ts:333-449 | over whole runs with append-only logs and a fixed conductor, every projected entry is delivered exactly as often as its messages are owed by their logs |
| ChatDelivery.UndisturbedRun | src/activities/maestro.ts:333-449 | over runs in which no single query fails, ending in a successful call, exactly the projections of the four logs last seen are delivered, each once |
| ChatMirror.CollectedIsShown | src/activities/maestro.ts:365-422 | when the four logs hold the records of a history of messages, each in an order of its own, reading them all collects exactly the entries of the messages |
| ChatMirror.RunDeliversHistory | src/activities/maestro.ts:333-449 | and a run without a failed query delivers each message exactly as often as it shows there |
| ChatMirror.MirroredOnce | src/activities/maestro.ts:395-413 | a message between maestro and conductor with both records in place shows exactly once, as the maestro's record, if and only if the conductor's record names the maestro; without the maestro's record it does not show |
| ChatMirror.ShownHowOften | src/activities/maestro.ts:365-422 | of all messages with both records in place, those between two other players do not show, those of maestro or conductor to themselves show twice, and all others once |
| ChatMirror.SelfReportShowsTwice | src/activities/maestro.ts:395-422 | the conductor's report to itself shows once turned to the maestro and once as its message to itself |
| Jsonc.StripJsonComments | src/spawn.ts:28-54 | the index loops return the concatenation of the tokens that are not comments |
| Jsonc.CopyLiteral | src/spawn.ts:33-40 | a string literal is copied verbatim, escapes and a missing end included |
| Jsonc.SkipLine | src/spawn.ts:41-43 | a line comment is skipped up to its line feed, which stays |
| Jsonc.SkipBlock | src/spawn.ts:44-48 | a block comment is skipped with its end, which may be missing |
| Jsonc.LexIsLossless | src/spawn.ts:28-54 | the tokens of a text, concatenated, are the text |
| Jsonc.LexIsTheOnlyReading | src/spawn.ts:28-54 | a text has only one split into tokens of the declared shapes, and the lexer finds it |
| Jsonc.StrippingRemovesOnlyComments | src/spawn.ts:28-54 | reading the stripped text gives exactly the original tokens that were not comments, so literals survive in order and no new comment arises from the remains |
| Jsonc.StrippingLeavesLiteralsAndCharacters | src/spawn.ts:28-54 | however a text is split into shaped tokens, reading the stripped text gives the literals and single characters of that split, in order, and nothing of another kind |
| Jsonc.StripLiteral | src/spawn.ts:32-40 | stripping leaves a literal alone, whatever characters and escapes it is spelt with, and one that is never closed |
| Jsonc.StripLineComment | src/spawn.ts:41-43 | from two slashes on it drops everything up to the line feed or the end |
| Jsonc.StripBlockComment | src/spawn.ts:44-48 | from slash and star on it drops everything up to and with the first star and slash |
| Jsonc.StripOpenBlock | src/spawn.ts:44-48 | or to the end of the text when there are none |
| Jsonc.StripCharacter | src/spawn.ts:49-51 | and it keeps any other character |
| Jsonc.StrippingIsIdempotent | src/spawn.ts:28-54 | a stripped text has no comment and stripping it again changes nothing |
| Jsonc.UnchangedIffNoComment | src/spawn.ts:28-54 | stripping leaves a text alone if and only if it has no comment |
| ShellWords.PosixRoundTrip | src/spawn.ts:367-369 | the POSIX shell reads back exactly the quoted arguments, for every list; a NUL anywhere makes the line unusable |
| ShellWords.FishQuoteRoundTrip | src/spawn.ts:246-248 | fish reads back every list of arguments that `fishQuote` wrote |
| ShellWords.ShellQuoteUnderFish | src/spawn.ts:136-139 | fish reads back what `shellQuote` wrote if and only if in no argument a backslash stands at the end, before a backslash or before a quote |
| TemporalYaml.ParseTemporalYaml | src/config.ts:595-659 | the two loops over lines compute the specified reading |
| TemporalYaml.FindActiveEnv | src/config.ts:600-608 | the first matching `active-env` line decides |
| TemporalYaml.RoundTrip | src/config.ts:595-659 | reading a rendered table yields the fields of the selected environments over nothing else, with tabs or spaces, LF or CRLF, any lines around the block, unknown keys, and bare or quoted values |
| TemporalYaml.SelectsOneEnvironment | src/config.ts:629-636 | with distinct names that is the active environment's fields, or the first one's when none is named, or nothing when the named one is absent |
| TemporalYaml.EachKeyIsRead | src/config.ts:646-655 | each of the five settings is the value of the last field with its key in the selected environments, with one, two or no quotes taken off, and nothing when there is none |
| TemporalYaml.NamesAreExact | src/config.ts:629-631 | a line names an environment if and only if it is two spaces, name characters and a colon |
| TemporalYaml.FieldsAreExact | src/config.ts:641-645 | a line holds a field if and only if it is four or more spaces, a key of small letters and hyphens, a colon and something behind, whose core is the value |
| ConfigSources.ResolversAgree | src/config.ts:802-968 | `getConfig` returns a configuration if and only if the ensemble name is valid and `getConfigWithSources` returns the same one |
| ConfigSources.TraceIsHighest | src/config.ts:896-941 | each setting is attributed to the highest-priority layer that holds a non-empty value after the dev-mode carve-out |
| ConfigSources.ShownIsWhatRuns | src/config.ts:892-968 | every value the program runs with is that of the source it is shown with, but for an unknown cost profile, which becomes `local` |
| ConfigSources.ConfigIsExact | src/config.ts:802-875 | `getConfig` answers if and only if the first agent named is known and the ensemble has a good name; queue and ensemble are those of the environment, empty ones included, or the defaults of the mode; and the profile is the first one named, if known |
| Restart.DeliverRestart | src/activities/outbox.ts:1039-1272 | the activity, step by step, writes the specified log and outcome for every combination of replies, and that log is safe |
| Restart.ClaimAndLaunch | src/activities/outbox.ts:1091-1138 | metadata, routing and the claim |
| Restart.SeedAndLaunch | src/activities/outbox.ts:1140-1264 | seeding, the fresh session id and the spawn |
| Restart.DeliverIsSafe | src/activities/outbox.ts:1039-1272 | no attempt does what the monitor forbids: no command after a first look showing `gone`; a claim only after a free last look, or under force after a successful forced detach naming the holder last observed, on the right host and for the right adapter; a spawn only for the claim just granted, with its token, host, adapter and the session id just written, never resuming |
| RestartOutcomes.OutcomeIsExact | src/activities/outbox.ts:1039-1272 | an attempt succeeds if and only if the session was found, is not gone, was free at either look or forced off under force, and every call then made was answered; it is worth a retry if and only if a call it makes throws a transient error; and it fails for good if and only if one throws another or it is refused |
| RestartOutcomes.LogIsExact | src/activities/outbox.ts:1039-1272 | the log holds exactly the events that the input and the replies call for, with all their fields, once each and in order |
| Restart.RunIsSafe | src/activities/outbox.ts:1039-1272 | the same for the concatenation of any number of attempts, broken off anywhere |
| Restart.EveryStepAllowed | src/activities/outbox.ts:1039-1272 | the same read position by position |
| Restart.AtMostOneSpawn | src/activities/outbox.ts:1239-1271 | when every attempt reports back at most one spawn is acknowledged, and one is if and only if the last attempt succeeded |
| Restart.SpawnsAreExact | src/activities/outbox.ts:1239-1271 | over any number of attempts, broken off anywhere, one spawn is acknowledged for each attempt that got that far, and so at most one more than attempts were broken off |
| Restart.EachCutCanSpawn | src/activities/outbox.ts:1239-1271 | no smaller bound holds: for every n there are n attempts lost after their spawn and one that reports, with n + 1 spawns |
| Restart.SessionIdsAreFresh | src/activities/outbox.ts:1226-1227 | as long as the identifiers drawn differ no session id is written twice, over any number of retries |
| Restart.SuccessTells | src/activities/outbox.ts:1140-1264 | a successful attempt ends in the claim, exactly the seeding the flags ask for, the session id and the spawn |
| Restart.Recent | src/activities/outbox.ts:1187 | the last n messages, or all of them when there are fewer or zero are asked for |
| Lookup.ResolveSession | src/activities/resolve.ts:82-114 | the scan stops at the first late or matching entry, and only a full scan falls back to the derived id |
| Lookup.RunningPlayerIsFound | src/activities/resolve.ts:82-177 | a running, never-renamed player is found for every visible subset and order and any query failures, when no deadline is met and `describe` answers |
| Lookup.AbsenceNeedsAFullScan | src/activities/resolve.ts:87-113 | absence is reported if and only if the whole list was read in time without a match and the derived id is not running; a late entry before any match is always reported as such |
| Lookup.ResolveIsExact | src/activities/resolve.ts:82-114 | each result if and only if: the first entry in time that answers with ensemble and name, a late entry before it, a list that breaks off, and the derived id when a full list has no answer |
| Lookup.FoundIsRight | src/activities/resolve.ts:136-177 | over hyphen-free ensembles what is found runs in the right ensemble and has, or was spawned under, the name asked for |
| Lookup.SameWorkflowId | src/config.ts:976-978 | two players share a workflow id if and only if they are the same or a hyphen can be read both ways |
| Lookup.WorkflowIdIsInjective | src/config.ts:976-978 | so the id is injective over hyphen-free ensemble names |
| Lookup.HyphensMislead | src/activities/resolve.ts:136-177 | a world in which the derived id hands out a session of another ensemble |
| BindRetry.RunHttpBindRetryLoop | src/daemon.ts:671-700 | the degraded state is advertised first and once, and then the loop writes the specified log for every sequence of rounds |
| BindRetry.DegradedOnceAtFirst | src/daemon.ts:678 | the degraded state is advertised before everything else and never again |
| BindRetry.DelaysGrow | src/daemon.ts:634-636 | delays never shrink and never exceed the cap, for every base and cap |
| BindRetry.DelaysDouble | src/daemon.ts:634-636 | the first delay is the base and each further one twice the last, up to the cap |
| BindRetry.DefaultsAre | src/daemon.ts:634-639 | the default base, cap and beacon interval |
| BindRetry.DefaultWait | src/daemon.ts:634-636 | the first n default delays sum to 31000 + 30000 (n - 5) for n from 5 on |
| BindRetry.AttemptsAreNumbered | src/daemon.ts:680-688 | the attempts of a run are numbered consecutively |
| BindRetry.SleepsAreBackoffs | src/daemon.ts:680-685 | the k-th sleep is the k-th delay, each attempt has its sleep, and at most one sleep has no attempt |
| BindRetry.ReportsAreExact | src/daemon.ts:684-689 | recovery is reported for exactly the attempts that bound the port, with the number made by then; at most once, and exactly when the loop recovers, unless the callback throws |
| BindRetry.ThrowingCallbackReportsTwice | src/daemon.ts:684-689 | when the first recovery callback throws and the port is bound again at once, two recoveries are reported, as attempts 1 and 2 |
| BindRetry.FailuresAreNoted | src/daemon.ts:684-697 | every attempt that does not recover is noted as failed, with its number |
| BindRetry.WarningsAreApart | src/daemon.ts:689-697 | on a monotone clock warnings are at least the beacon interval apart |
| BindRetry.WarningsInAWindow | src/daemon.ts:689-697 | a window of length T holds at most T / interval + 1 of them |
| BindRetry.NoFailureGoesUnheard | src/daemon.ts:689-697 | every failure is warned of at once or preceded by a warning younger than the interval |
| BindRetry.ShutdownIsFinal | src/daemon.ts:681-685 | an observed shutdown is the last event and the result, and every attempt follows two looks that saw none |

## Left out

- The session workflow's handlers: `attachmentInfo`, claims and lease expiry are arbitrary replies; only the lease length and renewal of `src/types.ts:124-147` are used.
- The order of microtasks: any suspended routine may be resumed next, which allows more interleavings than the JavaScript engine does.
- The gap between a recovery routine's `finally` and the `catch` of its caller: both run in one step. In that gap a second recovery could begin.
- Listeners that do more than call `stopV2Lifecycle`, and a second start of the same adapter.
- A missing client or host, `configureV2`, and reconnect timings (a test-only option) outside 0 < base <= cap and factor >= 1.
- Process telemetry, diagnostic counters and log lines of `src/adapters/base.ts`.
- The set of terminal workflow statuses: `describe` is reduced to whether it reported a workflow that is still open.
- Rounding of JavaScript numbers: times, delays and backoffs of the lifecycle are reals, those of the bind loop integers.
- LeaseRuns.RunsKeepTheTimetable: no timetable begins at a recovery during whose hook a heartbeat sent before it failed, as a backoff is left then; the next accepted heartbeat begins one.
- LeaseRuns.RunsOutliveFailures: it speaks of when the heartbeat's timer is due; a host that fires timers late has that much less of the lease left.
- Attachment.BaseAttachment.AbortPending: the aborters are a map from timer to due time, not closures, so the order in which they run is not modelled.
- ChatFetch.FetchEnsembleChat: timestamps are the instants their strings order by; the sort engine is the stable sort the language requires, not its algorithm.
- Restart.DeliverRestart: the wording of the seeded messages is reduced to their sender, key, entry, part and messages; file lookup of agent definitions is a given; an attempt that runs on after its timeout, beside the next one, is not modelled.
- Lookup.ResolveSession: a list entry whose workflow has closed but still answers is outside `Truthful`; the roster scans of the same file are left out as they push rows without deciding.
- ShellWords.PosixRoundTrip: double quotes, expansions, operators, comments and tilde make the reader answer `None`, as does a NUL; the environment assignments and the program path of a terminal command are left out.
- ShellWords.ShellQuoteUnderFish: fish text whose unquoted part would expand, run or escape something is answered with `None`.
- Jsonc.StripJsonComments: texts are sequences of Unicode scalar values; a lone surrogate cannot occur.
- TemporalYaml.RoundTrip: values with tabs or line ends are not rendered, as the reader would change or cut them.
- ConfigSources.ResolversAgree: reading the files and the environment is a given; a configuration file whose fields are not strings is left out.
- BindRetry.RunHttpBindRetryLoop: an `onDegraded` that throws, which ends the loop before its first round.
- Windows escaping, terminals, process spawning and killing, PID files, MCP registration, the dashboard and the CLI: they call out to the system or only move data.
- `schedule-fire.ts`, `parsePiProviderModel`, `shouldSkipDuplicateSpawn` and `scrubHostProfile`: each is one short decision.
