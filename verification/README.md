# The daemon's protocols, verified

A Dafny model of the parts of the agent runtime that have to survive crashes,
concurrent appenders and swallowed errors: the background-job spool and the cron
fires queued through it, the conversation history (append, compaction, repair,
pruning and the inner loop that writes it), spend accounting, hard limits, the
dispatcher, and the mental-map editor. Five smaller cores stand beside them:
schedule files, address arithmetic, resource alerts, PDF tables and anomaly
notices.

`dafny verify dfyconfig.toml` checks the whole project.

## How it is put together

Each protocol is a transition system: a state (directories, collections, the
daemon's memory, where its code stands), actions that are single file operations,
document writes or the code between two awaits, and a crash as an action that may
come between any two. An inductive invariant is proved once per action, and the
theorems are about every reachable state, that is every run. Where the code works
by changing things, a class has the same fields and loops. For the protocols its
methods are shown to take only steps of the transition system, so the theorems
apply to the code's own order of operations: in `JobRunner` each method ends where a
legal run of single file operations ends, and in `Dispatcher`, `StatsCollector`,
`Ingestor`, `Collection` and `Conversation` the class invariant is that a run of the
protocol reaches the fields, with arbitrary steps of others (or the daemon's death)
at every await; `LimitedTurn.Hook` does the same for the limit enforcer. The other
classes stand beside specification functions their methods are proved against.

| file | what it models |
|---|---|
| `JobSpool.dfy`, `JobRunner.dfy` | the spool as a transition system; recovery, claims and starts as methods |
| `JobFires.dfy` | fire ids; stamping, queueing and acknowledging fires on top of the spool |
| `Pruning.dfy`, `ToolPairing.dfy`, `InnerLoop.dfy` | messages and pruning; tool calls and results; a run of the inner loop |
| `HistoryRepair.dfy`, `HistoryTurns.dfy`, `HistoryView.dfy` | repairing an interrupted history, as a whole and turn by turn; what the model is given of it |
| `CompactionCuts.dfy` | what compactions that were cut short leave to later turns |
| `ConversationAppend.dfy`, `ConversationMemory.dfy` | optimistic positions; turns, reflections, recoveries and compaction |
| `Spend.dfy`, `StatsCollector.dfy` | cost from memory to lifetime totals, with calls at any moment; the collector's methods |
| `Limits.dfy` | limit rules and their enforcer; a turn under a hard limit |
| `Dispatch.dfy`, `Dispatcher.dfy` | passes, mail, runs and cooldowns; the dispatcher's methods |
| `MentalMap.dfy`, `ScheduleSync.dfy` | edits on a tree; schedule files and their documents |
| `Ssrf.dfy`, `Ipv6Text.dfy` | 32-bit mask arithmetic; IPv6 text forms |
| `Alerts.dfy`, `PdfTables.dfy`, `Anomalies.dfy` | alert spacing; table reconstruction; anomaly digest and windows |
| `Seqs.dfy`, `Powers.dfy`, `JsText.dfy`, `Options.dfy` | facts about sequences; powers of two; white space; values that may be missing |

## What the model assumes

- Nobody overwrites a file that is still pending; specs are well formed; file
  operations other than the modelled refusals succeed; a process's close handler is one
  step; children of a daemon that died are not watched.
- A provider does not repeat a tool-call id within one live history, nor that of a
  result still live.
- One daemon works on an agent's turn. A write to the statistics store succeeds and
  lands when it is issued. Calls are metered at any moment, before, within and after a
  turn, and any number of reconciliations begun by a starting turn may be running.
- The limit on calls is not edited within a turn (`LimitedTurn`); the enforcer itself
  reads the limits anew at every check.
- Times are integers that do not go back, counts are integers, amounts are whole
  micro-dollars, ratios are reals, page coordinates whole numbers.
- Replies, tools, hooks, paused agents, gates and who else writes meanwhile are
  arbitrary.

## Where the code does not do what is expected of it

Each of these is a lemma with runs that show it, next to the exact condition under
which the expected property does hold or fail.

- `recoveryAttempts` is taken from the submitted file as it stands. A negative count
  buys starts beyond MAX_JOB_RECOVERY_ATTEMPTS + 1 (`JobSpool.NegativeCountBuysAStart`);
  the bound holds exactly for counts that are not negative
  (`JobSpool.BoundHoldsExactlyForNonNegativeCounts`).
- Recovery writes an orphan over whatever the queue holds under its id. A submission
  whose id is used again while it is queued can be lost without a trace
  (`JobSpool.AReusedIdLosesASubmission`); a submission is in the spool exactly until it
  is closed or overwritten so (`JobSpool.SubmissionsAreHeldUnlessOverwritten`), and
  nothing is lost where live ids are unique (`JobSpool.SubmissionsAreNeverLost`).
- A job that is refused when it should start leaves no record. A fire whose
  acknowledgement failed is then queued again (`JobFires.ARefusedFireIsQueuedTwice`).
  A fire can be queued (again) exactly while no job of its id is known and it has been
  read or its stamp stands (`JobFires.AFireIsQueuedAgainExactly`), at most once more
  often than jobs of its id were refused (`JobFires.AFireIsQueuedOnce`).
- Two labels that differ only in '.' and '_' share the ids of their fires
  (`JobFireIds.FireIdsCollide`). Of two such fires due together one is acknowledged with
  no job of its own (`JobFires.ATwinIsAcknowledged`). So is a fire under whose id an
  agent has submitted a job (`JobFires.ASubmissionStandsForAFire`). Every fire is
  acknowledged on its own account exactly when no two labels are like that and nobody
  else uses the id of a fire (`JobFires.FiresAreTheirOwnExactlyWhenApart`).
- Patching a history on read puts a missing result before the ones that are there
  (`HistoryView.PatchingAloneReorders`); it keeps call order exactly when nothing is
  missing or no result of the last round is stored
  (`HistoryView.PatchingKeepsOrderExactly`). The repair in the store does as long as
  compactions complete (`HistoryRepair.EveryWakeupIsPaired`).
- A compaction that is cut short with one of a round's two results flagged and the
  other not leaves the next wakeup a history that is not strictly paired
  (`CompactionCuts.AHiddenResultUnpairs`). Every wakeup of a run is strictly paired
  exactly when each compaction cut short kept the rounds of every turn: of a round
  whose calls it left it left all results, or flagged the last ones with nothing but
  results left behind them in that turn (`CompactionCuts.EveryWakeupIsPairedExactly`,
  `CompactionCuts.ACutIsPairedExactly`). Flags set in document order do
  (`CompactionCuts.InOrderRunsResumePaired`), and a compaction that completes ends it
  (`CompactionCuts.EveryRunResumesPaired`).
- A call metered after `endTurn` has read the turn's cost, or with no turn, reaches no
  total, crash or not (`Spend.ALateCallIsMissed`); every other call does
  (`Spend.ACallIsMissedExactlyOutsideItsTurn`).
- A call metered before a turn's first stored message, and then a crash: the next turn
  takes the number and overwrites the running document with its cost
  (`Spend.ACallBeforeTheFirstMessageIsHidden`). Stored cost can be hidden exactly in
  such states (`Spend.HiddenExactlyWhenExposed`), and exactly such calls lead there
  (`Spend.ACallExposesExactlyBeforeTheFirstMessage`).
- The mission snapshot reads running turns and lifetime totals separately. A turn that
  ends in between can be counted twice (`Spend.ATurnCanBeReadTwice`). With the turns
  read first the sum can exceed the spend exactly when the running documents hold more
  than was missed before and is at stake in the turn in flight
  (`Spend.TurnsReadFirstExceedExactly`), by at most what ended in between
  (`Spend.TurnsReadFirst`); with the totals first it never does
  (`Spend.TotalsReadFirst`).
- A tool that has timed out and goes on calling can push the count over a hard limit
  between two checks; one call can then still start, and no more
  (`LimitedTurn.StrayCallsLetAnyStartOver`, `LimitedTurn.AtMostOneStartsOver`). A start
  is over the limit exactly when those calls exceed what the last check left
  (`LimitedTurn.AStartIsOverExactlyByStrays`).
- A pass that throws once it has marked mail read, or finds no identity for the agent,
  leaves that mail with no run (`Dispatch.AThrowStrandsMail`); no other step does
  (`Dispatch.AStepStrandsExactly`), and without a failing call it can happen exactly in
  a team with an agent that has no identity (`Dispatch.MissingIdentitiesStrandExactly`).
- The comment above the mental-map tools says an agent can always add at the top
  level again. Once the map is the empty string every tool answers "not initialised"
  (`MentalMap.AnEmptyMapStaysEmpty`, `MentalMap.TheTopLevelIsAlwaysOpen`). Tool calls can
  bring a map there exactly when all of it stands in elements with ids
  (`MentalMap.AMapCanBeEmptiedExactly`).
- The store of alert states can take down an alert and its call still throw, while the
  memory keeps quiet because of an earlier one. The same reading then stays silent for up
  to two days after the last alert sent (`Alerts.ASwallowedAlertDoublesTheSilence`), and
  can for one exactly if that alert was sent before
  (`Alerts.ASwallowedAlertSilencesExactly`); where none is swallowed nothing goes
  unreported for a day (`Alerts.NothingGoesUnreportedInAnOutage`).
- An operator's cancel is undone when a delivery was under way (the scheduler arms the
  document again, under the mark, and no tick takes it back), when a tick has looked
  the document up before and is about to arm it, or when a tick is about to clear the
  marks without having listed the file; otherwise it holds for good
  (`ScheduleSync.CancelHoldsExactly`, `ScheduleSync.ADeliveryUndoesTheCancelForGood`).
- A continuation line folded into a row that then stands alone comes out twice
  (`PdfTables.ThreeLinesComeOutAsFour`), exactly where the page looks as
  `PdfTables.ComesOutTwiceExactly` says.

## Model

| member | source | states |
|---|---|---|
| `JobSpool.StepKeepsInv` | packages/agent-runtime-worker/src/job-recovery.ts:116-230 | the invariant every file operation, process event and crash keeps, with ids used again while queued or running: phase, per-id contents of the directories, counts of the starts, what is held or overwritten, the running counter |
| `JobSpool.RunKeepsInv` | packages/agent-runtime-worker/src/job-runner.ts:252-318 | so it holds over every run, crashes between any two operations included |
| `JobSpool.StartsAreBounded` | packages/agent-runtime-worker/src/job-recovery.ts:95-230 | one submission that came with count n is started at most 3 - n times (once if n > 2) over any crashes |
| `JobSpool.StartsCarryDistinctCounts` | packages/agent-runtime-worker/src/job-recovery.ts:116-230 | each start carries its own recovery count, larger than the one before |
| `JobSpool.BoundHoldsExactlyForNonNegativeCounts` | packages/agent-runtime-worker/src/job-recovery.ts:101-101 | for counts that are integers: MAX_JOB_RECOVERY_ATTEMPTS + 1 bounds the starts in every run if and only if the submitted count is not negative |
| `JobSpool.NegativeCountBuysAStart` | packages/agent-runtime-worker/src/job-recovery.ts:135-175 | for every negative count, a run with one start more than the bound |
| `JobSpool.SubmissionsAreHeldUnlessOverwritten` | packages/agent-runtime-worker/src/job-recovery.ts:209-221 | until its process exits, or it is refused or failed out, a submission's spec is in pending, queue or running if and only if no requeued orphan of the same id was written over it |
| `JobSpool.ClosedAndOverwrittenExactly` | packages/agent-runtime-worker/src/job-recovery.ts:130-230 | over every run: a submission is closed exactly if its process exited or it was refused, rejected or failed out, and overwritten exactly if recovery requeued another one of its id over it |
| `JobSpool.AReusedIdLosesASubmission` | packages/agent-runtime-worker/src/job-runner.ts:252-286 | for every id and all counts below the maximum, a run in which a second submission of a queued id makes recovery overwrite the first: it is in no directory, and never exited, was refused or failed out |
| `JobSpool.SubmissionsAreNeverLost` | packages/agent-runtime-worker/src/job-runner.ts:198-286 | in every run that uses no id again while a spec under it is pending, queued or running, nothing submitted is lost |
| `JobSpool.AtMostThreeProcesses` | packages/agent-runtime-worker/src/job-runner.ts:293-319 | never more than MAX_CONCURRENT_JOBS processes; between ticks the running set is exactly the watched jobs |
| `JobRunner.RecoverAllIsARun` | packages/agent-runtime-worker/src/job-recovery.ts:116-230 | the whole recovery pass is a legal run of single file operations |
| `JobRunner.RecoverySettlesEveryOrphan` | packages/agent-runtime-worker/src/job-recovery.ts:130-230 | each orphan ends in the queue with its count raised by one, or in failed with a status file past the maximum |
| `JobRunner.RecoveryLeavesOthersAlone` | packages/agent-runtime-worker/src/job-recovery.ts:130-230 | a job not in running keeps its files |
| `JobRunner.RecoveryLeavesNothingRunning` | packages/agent-runtime-worker/src/job-recovery.ts:116-230 | after recovery running is empty |
| `JobRunner.TickAllIsARun` | packages/agent-runtime-worker/src/job-runner.ts:293-319 | the whole tick (pending before queue, up to the free places) is a legal run of single operations |
| `JobRunner.ClaimIsARun` | packages/agent-runtime-worker/src/job-runner.ts:252-286 | a claim is copy, unlink, then start or refuse, in this order |
| `JobRunner.TickSettles` | packages/agent-runtime-worker/src/job-runner.ts:198-319 | what becomes of every file in a tick, said file by file: with a free place a pending one is started with its own spec if it is trusted, runnable and not running, dropped if it cannot run, deleted unstarted if it is not trusted or its id runs; a queued one is started or dropped unless its id runs; what the tick does not come to stays; nothing else is started |
| `JobRunner.Daemon.RecoverOrphanedJobs` | packages/agent-runtime-worker/src/job-recovery.ts:116-230 | the loop leaves exactly the state of the recovery pass proved a legal run |
| `JobRunner.Daemon.RecoverOrphan` | packages/agent-runtime-worker/src/job-recovery.ts:130-230 | one orphan's branch: requeue, or failed file, status file, unlink |
| `JobRunner.Daemon.ClaimPending` | packages/agent-runtime-worker/src/job-runner.ts:198-265 | claimed, with its spec, exactly when trusted and not running already; otherwise deleted unstarted, and its submission closed |
| `JobRunner.Daemon.ClaimQueued` | packages/agent-runtime-worker/src/job-runner.ts:268-286 | the exclusive create decides; a claimed spec has left the queue |
| `JobRunner.Daemon.StartJob` | packages/agent-runtime-worker/src/job-runner.ts:365-472 | the counter and the watched set grow together, or the job is dropped |
| `JobRunner.Daemon.RunPendingJobs` | packages/agent-runtime-worker/src/job-runner.ts:293-319 | the loop ends where the tick ends, and every pending and queued file as the tick settles it: started, dropped, deleted or left for want of a place; never more than three processes |
| `JobRunner.Daemon.OnClose` | packages/agent-runtime-worker/src/job-runner.ts:460-471 | an exit frees its place and its running file, and nothing else |
| `JobFireIds.FireIdIsJobId` | packages/agent-runtime-worker/src/schedule-ingest.ts:112-115 | jobFireId of a label is a job id exactly when it has at most 81 characters |
| `JobFireIds.FireIdFits` | packages/agent-runtime-worker/src/schedule-ingest.ts:63-115 | so for every label and every date JavaScript can represent from 1970 on |
| `JobFireIds.FireIdsCollide` | packages/agent-runtime-worker/src/schedule-ingest.ts:112-115 | two fires share an id exactly when the times are equal and the labels differ at most in '.' and '_': injective in the time for one label |
| `JobFireIds.DottedLabelsCollide` | packages/agent-runtime-worker/src/schedule-ingest.ts:63-115 | two labels that do collide |
| `JobFires.RunKeepsFires` | packages/agent-runtime-worker/src/schedule-ingest.ts:510-560 | what every step of stamping, claiming, acknowledging, the spool, submissions and restarts under any id, and crashes keeps for every fire |
| `JobFires.AFireIsQueuedOnce` | packages/agent-runtime-worker/src/schedule-ingest.ts:510-560 | whatever others submit under its id, a fire is queued at most once, plus once for each time a job of its id was refused |
| `JobFires.ARefusedFireIsQueuedTwice` | packages/agent-runtime-worker/src/schedule-ingest.ts:510-560 | for every fire, a run in which a refusal and a failed acknowledgement make it two |
| `JobFires.AKnownFireIsNotQueuedAgain` | packages/agent-runtime-worker/src/schedule-ingest.ts:510-547 | once a job of a fire's id is queued, running, failed out or done, no later run of ticks, stamps, submissions and crashes queues the fire, unless a job of its id is refused |
| `JobFires.AFireIsQueuedAgainExactly` | packages/agent-runtime-worker/src/schedule-ingest.ts:510-560 | with no new stamp for it and no refusal meanwhile, some run queues the fire if and only if no job of its id is known and a tick has read it or its stamp stands |
| `JobFires.AStampIsClearedOnlyOnceSettled` | packages/agent-runtime-worker/src/schedule-ingest.ts:528-560 | a stamp goes only by an operator or a re-arm, for a newer stamp, or by an acknowledgement once that very fire was queued or skipped as late, or a job of its id came from a fire of the same time whose label differs in dots and underscores, an agent or a restart; a newer stamp is never cleared |
| `JobFires.FiresAreTheirOwnExactlyWhenApart` | packages/agent-runtime-worker/src/schedule-ingest.ts:112-115 | over a set of labels, and ids under which others submit or restart jobs, every acknowledged fire was itself queued or skipped as late, in every run, if and only if no two of the labels differ in dots and underscores only and none of the ids is that of one of their fires |
| `JobFires.ASubmissionStandsForAFire` | packages/agent-runtime-worker/src/job-runner.ts:198-265 | for every fire, a run in which an agent's job under its id is claimed and started, and the fire is acknowledged and its stamp cleared with no job of its own |
| `JobFires.ATwinIsAcknowledged` | packages/agent-runtime-worker/src/schedule-ingest.ts:541-553 | for every two such labels and every time, a run in which the second fire is acknowledged and its stamp cleared with no job of its own |
| `JobFires.OnlyARefusalErasesAJob` | packages/agent-runtime-worker/src/job-runner.ts:365-471 | short of a refusal a job known to the spool stays known, so its fire is not queued again |
| `JobFires.APunctualFireIsQueued` | packages/agent-runtime-worker/src/schedule-ingest.ts:527-547 | a fire at most 21 600 000 ms late with no job of its id known gets a fresh job under its id, and nothing else changes |
| `JobFires.AKnownFireIsLeft` | packages/agent-runtime-worker/src/schedule-ingest.ts:510-547 | one whose job is queued, running, failed out or done is left to be acknowledged |
| `JobFires.ALateFireIsSkipped` | packages/agent-runtime-worker/src/schedule-ingest.ts:527-540 | one later than that is skipped, the spool untouched |
| `JobFires.LatenessDecides` | packages/agent-runtime-worker/src/schedule-ingest.ts:527-547 | in every run a fire is skipped as late if and only if some handling of it came more than 21 600 000 ms after it was due, and queued only if one came within that time |
| `JobFires.FireClaimer.ClaimJobFire` | packages/agent-runtime-worker/src/schedule-ingest.ts:517-560 | one fire: queued if at most 21 600 000 ms late and not known, left if known, skipped if later, then acknowledged unless that fails; steps of the protocol |
| `Pruning.Prune` | packages/agent-runtime-worker/src/context-utils.ts:61-116 | same length, order, roles and tool ids; only assistant messages and tool results can change |
| `Pruning.PruningIsIncremental` | packages/agent-runtime-worker/src/context-utils.ts:61-116 | prune(prune(m) + n) = prune(m + n) for all m, n and rounds kept |
| `Pruning.NoThinkingKeepsOrder` | packages/agent-runtime-worker/src/context-utils.ts:61-116 | dropping the thinking keeps every other block, in its order, and nothing else |
| `Pruning.PruneChangesExactly` | packages/agent-runtime-worker/src/context-utils.ts:61-116 | which messages change, and how: results of the twelve ephemeral tools with `keep` rounds after them, thinking with a round after it, counted independently of the indices the code keeps |
| `ToolPairing.PrefixIsCut` | packages/agent-runtime-worker/src/loop.ts:215-305 | whatever an interruption leaves of a paired conversation lacks results only at its end |
| `ToolPairing.CallsAreResultsThenMissing` | packages/agent-runtime-worker/src/reflection.ts:49-68 | in such a conversation the calls are the results so far followed by the missing ones |
| `ToolPairing.AnswersComplete` | packages/agent-runtime-worker/src/reflection.ts:70-89 | appending one result per missing call, in order, makes it strictly paired |
| `ToolPairing.CallsStandInOrder` | packages/agent-runtime-worker/src/loop.ts:268-305 | the calls of a reply are its tool-call blocks, each at the place the blocks before it give it |
| `InnerLoop.Executed` | packages/agent-runtime-worker/src/loop.ts:415-460 | one result per call with its id and name: what the tool returned, as it returned it and an error if it said so; for every other outcome a single text saying what went wrong, as an error |
| `InnerLoop.ARunRecordsEveryReply` | packages/agent-runtime-worker/src/loop.ts:194-309 | behind the opening message and all earlier rounds the log holds the reply with its whole content, then per call in order a result with its id and name, and the content the tool returned there or an error |
| `InnerLoop.ARunEndsBehindItsLastReply` | packages/agent-runtime-worker/src/loop.ts:236-305 | and nothing else: the log ends behind the last reply the run comes to and its results, or behind the reply itself when the turn cap ends the run |
| `InnerLoop.UncappedRunIsPaired` | packages/agent-runtime-worker/src/loop.ts:194-309 | a main-loop run appends a strictly paired conversation, whatever the replies and tools do |
| `InnerLoop.CappedRunIsUnpaired` | packages/agent-runtime-worker/src/loop.ts:281-283 | a run ended by its turn cap does not: its last calls stay without results |
| `InnerLoop.PruningKeepsShape` | packages/agent-runtime-worker/src/context-utils.ts:61-116 | pruning keeps roles, tool calls and result ids, so it keeps the pairing |
| `InnerLoop.PrunedAgain` | packages/agent-runtime-worker/src/loop.ts:331-347 | pruning a context pruned before leaves the whole conversation pruned once |
| `InnerLoop.PrunedThenReplaceFirst` | packages/agent-runtime-worker/src/loop.ts:311-325 | replacing the dynamic-context message commutes with pruning |
| `InnerLoop.Run.PushAndNotify` | packages/agent-runtime-worker/src/loop.ts:219-226 | a message is in the context before the hook; it is stored exactly if the hook does not throw |
| `InnerLoop.Run.RefreshDynamicContext` | packages/agent-runtime-worker/src/loop.ts:311-325 | only the first message changes, and the context stays the pruned conversation |
| `InnerLoop.Run.PruneIfLarge` | packages/agent-runtime-worker/src/loop.ts:331-347 | the context is pruned to the last two rounds exactly when the tokens exceed 100 000 |
| `InnerLoop.Run.Round` | packages/agent-runtime-worker/src/loop.ts:236-305 | one round stores the reply and its results up to the append that fails, and sends the model a strictly paired context |
| `InnerLoop.Run.RunInnerLoop` | packages/agent-runtime-worker/src/loop.ts:194-309 | a run stores exactly its log up to the append that fails; every context sent is strictly paired and is the whole conversation so far, pruned at most; what stays in memory is that conversation pruned at most once |
| `HistoryRepair.DanglingIsMissing` | packages/agent-runtime-worker/src/reflection.ts:49-68 | in a cut history with distinct ids the dangling calls are exactly the missing results, in order |
| `HistoryRepair.RepairCompletes` | packages/agent-runtime-worker/src/reflection.ts:475-489 | one repair makes the history strictly paired, keeps all that was stored, and a second one appends nothing |
| `HistoryRepair.RepairAppendsErrors` | packages/agent-runtime-worker/src/reflection.ts:70-89 | what a repair appends are error results that name their tool, in the last turn |
| `HistoryRepair.HistoriesAreSound` | packages/agent-runtime-worker/src/loop.ts:268-305 | over any turns cut after any append, repairs cut anywhere and compactions that complete, a history lacks results only at the end of its last turn |
| `HistoryRepair.EveryWakeupIsPaired` | packages/agent-runtime-worker/src/reflection.ts:475-489 | so, where earlier compactions completed, every wakeup starts from a strictly paired stored history |
| `HistoryTurns.RepairPairsExactly` | packages/agent-runtime-worker/src/reflection.ts:475-489 | whatever was flagged before, one repair makes the live history strictly paired, results without a call left aside, if and only if every turn lacks results at its end at most |
| `HistoryView.ConvertedIsConsistent` | packages/agent-runtime-worker/src/reflection.ts:91-172 | for any stored history at all, what the model is given has a result id for every call id and the other way round |
| `HistoryView.TheModelReadsWhatWasSaid` | packages/agent-runtime-worker/src/reflection.ts:91-172 | whatever was stored, the model reads every user message as it is, every summary as a user message with its text, every reply but perhaps its thinking, in order and nothing else beside tool results |
| `HistoryView.TheModelReadsStoredResults` | packages/agent-runtime-worker/src/reflection.ts:91-172 | and every result it reads is a stored one of that call, or the stub of an ephemeral tool's, or says that it was not saved |
| `HistoryView.PairedIsConvertedAsIs` | packages/agent-runtime-worker/src/reflection.ts:91-172 | a paired history is only pruned, its summaries shown as user messages, and stays strictly paired |
| `HistoryView.AWakeupIsPairedExactly` | packages/agent-runtime-worker/src/agent-runner-turn.ts:79-146 | what the main run resumes from is strictly paired if and only if every live turn lacks results at its end at most |
| `CompactionCuts.EveryHistoryIsOrderly` | packages/agent-runtime-worker/src/reflection.ts:348-376 | over any turns, repairs and compactions cut short anywhere, with any documents flagged, the live history is sorted, with distinct call ids and every result in the turn of its call |
| `CompactionCuts.CutExactlyWhenKept` | packages/agent-runtime-worker/src/conversation-repository.ts:255-260 | what any set of flags leaves of a strictly paired turn, without orphans, lacks results at its end at most if and only if the flags keep its rounds |
| `CompactionCuts.EveryRunResumesPaired` | packages/agent-runtime-worker/src/agent-runner-turn.ts:79-146 | whatever interrupted the earlier turns, repairs and compactions, the main run resumes from a strictly paired history if the compactions cut short since the last complete one kept the rounds of every turn |
| `CompactionCuts.ACutIsPairedExactly` | packages/agent-runtime-worker/src/reflection.ts:348-376 | after the next compaction cut short, with any set of flagged documents, the wakeup is strictly paired if and only if the flags keep the rounds of every turn |
| `CompactionCuts.EveryWakeupIsPairedExactly` | packages/agent-runtime-worker/src/agent-runner-turn.ts:79-146 | over a whole run: every wakeup resumes from a strictly paired history if and only if every compaction cut short kept the rounds of every turn |
| `CompactionCuts.InOrderRunsResumePaired` | packages/agent-runtime-worker/src/conversation-repository.ts:255-260 | where documents are flagged in their order, every wakeup is strictly paired, wherever the compactions are cut |
| `CompactionCuts.AHiddenResultUnpairs` | packages/agent-runtime-worker/src/conversation-repository.ts:255-260 | for every two tool calls of one round and all outcomes, a run of one turn and one compaction cut short with the first result alone flagged, after which the wakeup is not strictly paired |
| `HistoryView.PatchingKeepsOrderExactly` | packages/agent-runtime-worker/src/reflection.ts:133-168 | for a cut history with distinct ids, patching on read alone gives a strictly paired one if and only if no result is missing or none of the last round's is stored |
| `HistoryView.PatchingAloneReorders` | packages/agent-runtime-worker/src/reflection.ts:133-168 | for any two call ids, a half-answered round for which it does not |
| `HistoryView.FindDanglingToolCalls` | packages/agent-runtime-worker/src/reflection.ts:49-68 | the two loops find exactly the specified dangling calls, in order |
| `ConversationAppend.StepKeepsInv` | packages/agent-runtime-worker/src/conversation-repository.ts:206-253 | what each count, insert and crash of interleaved appenders keeps |
| `ConversationAppend.ConcurrentAppendsAreGapless` | packages/agent-runtime-worker/src/conversation-repository.ts:206-253 | with any number of interleaved appenders the positions of a turn with n documents are exactly 0..n-1 |
| `ConversationAppend.PositionsAreOrdered` | packages/agent-runtime-worker/src/conversation-repository.ts:221-246 | within a turn positions follow insertion order and never repeat |
| `ConversationAppend.InsertLandsIfUndisturbed` | packages/agent-runtime-worker/src/conversation-repository.ts:221-249 | an insert succeeds exactly when no other document landed in the turn since the count |
| `ConversationAppend.FailuresAreOthersInserts` | packages/agent-runtime-worker/src/conversation-repository.ts:219-251 | k failed attempts imply k other inserts in that turn meanwhile; giving up implies five |
| `ConversationAppend.Collection.Attempt` | packages/agent-runtime-worker/src/conversation-repository.ts:221-249 | one attempt, with any steps of other appenders between its count and its insert, takes steps of the protocol and lands last in its turn, or counts one more failure and gives up at the fifth |
| `ConversationAppend.Collection.Append` | packages/agent-runtime-worker/src/conversation-repository.ts:206-253 | the loops take only steps of the interleaved protocol; the messages land in order behind what was there; if one gives up the earlier ones have landed and the turn grew by five |
| `ConversationMemory.StepKeepsInv` | packages/agent-runtime-worker/src/reflection.ts:348-376 | what turns, reflections, recoveries, single compaction updates, late sub-loop messages and crashes keep |
| `ConversationMemory.CompactedMeansSummarised` | packages/agent-runtime-worker/src/reflection.ts:348-376 | in every reachable state, if anything is compacted load() reads a summary with a higher turn than all of it |
| `ConversationMemory.NeverForgetsAll` | packages/agent-runtime-worker/src/conversation-repository.ts:177-204 | once something was stored for the model, load() never comes back empty |
| `ConversationMemory.CompletedCompactionLeavesTheSummary` | packages/agent-runtime-worker/src/agent-runner.ts:192-224 | when a reflection or forced recovery completes, load() reads exactly its summary |
| `ConversationMemory.TurnNumbersAreNeverReused` | packages/agent-runtime-worker/src/conversation-repository.ts:270-276 | every new turn number is above that of every document ever stored before, compacted or not, and right above the highest of them, or 0 |
| `ConversationMemory.RunningTurnIsTheLast` | packages/agent-runtime-worker/src/agent-runner-turn.ts:129-132 | nothing is stored above a running turn, and everything compacted is below it |
| `ConversationMemory.Conversation.Compact` | packages/agent-runtime-worker/src/conversation-repository.ts:255-260 | step by step of the protocol, exactly the documents below the cut are flagged, or some of them if the daemon dies |
| `ConversationMemory.Conversation.SummariseThenCompact` | packages/agent-runtime-worker/src/reflection.ts:354-376 | summary first: completed, load() reads only it; cut anywhere, the state is one the protocol reaches and nothing is forgotten |
| `ConversationMemory.Conversation.ForceCompactSession` | packages/agent-runtime-worker/src/agent-runner.ts:192-224 | the summary at the next turn plus one is the only live document, all below is flagged, and the turn after it is the one that runs on |
| `ConversationMemory.Conversation.RunReflection` | packages/agent-runtime-worker/src/reflection.ts:285-377 | without a summary text the history is left as it was, the reflection's own messages apart; with one, everything before is flagged and load() reads only the summary above it; the daemon dying anywhere, no document is lost |
| `ConversationMemory.Conversation.LastTurnNumber` | packages/agent-runtime-worker/src/conversation-repository.ts:270-276 | the loop finds the highest turn over all documents, -1 for none |
| `Spend.StepKeepsInv` | packages/agent-runtime-worker/src/agent-stats.ts:142-174 | what each write of turns, call at any moment, racing reconciliation, out-of-turn cost and crash keeps: among it, that every amount told of is in a total, on its way, or counted as missed |
| `Spend.SnapshotFallsShortExactly` | packages/agent-runtime-worker/src/agent-stats.ts:389-520 | lifetime plus running cost, read at one moment, never exceeds the spend told of, and falls short exactly by unwritten calls, amounts before their increment, and what is missed for good: cut by crashes, called too late or without a turn, overwritten |
| `Spend.WithoutCrashesOnlyLateCallsAreMissed` | packages/agent-runtime-worker/src/agent-stats.ts:389-520 | without crashes only calls after the reading of the cost, or with no turn, are missed; at rest the snapshot is the spend less these |
| `Spend.ACallIsMissedExactlyOutsideItsTurn` | packages/agent-runtime-worker/src/agent-stats.ts:422-437 | in every run without crashes, once at rest after a call, the snapshot is short by that call if and only if it came with no accumulator or after endTurn had read the cost |
| `Spend.ALateCallIsMissed` | packages/agent-runtime-worker/src/agent-stats.ts:498-519 | for every cost, a run without a crash in which a call between reading the cost and dropping the accumulator is in no total |
| `Spend.TotalsReadFirst` | packages/agent-runtime-worker/src/agent-stats.ts:290-312 | with the totals read before the running turns, whatever happens between: the sum is at most the snapshot at the second read, hence the spend, and at least the one at the first less the cost of documents that ended |
| `Spend.TurnsReadFirst` | packages/agent-runtime-worker/src/agent-stats.ts:290-312 | with the running turns read first, the sum is at least the snapshot then, and exceeds the spend by at most the cost of documents that ended in between |
| `Spend.TurnsReadFirstExceedExactly` | packages/agent-runtime-worker/src/agent-stats.ts:290-312 | from every reachable state, some run to the second read makes that sum exceed all that was spent by then if and only if the running documents hold more than was missed before and is at stake in the turn in flight (its unwritten calls or the document its first write overwrites) |
| `Spend.ATurnCanBeReadTwice` | packages/agent-runtime-worker/src/agent-stats.ts:290-312 | for every cost, a run in which the turn that ends between the two reads is counted twice |
| `Spend.RunGrows` | packages/agent-runtime-worker/src/agent-stats.ts:208-215 | over any run no total and, while it is the same turn's, no document's cost gets smaller, and an ended document stays ended |
| `Spend.SerialCallsLeaveOneUnsaved` | packages/agent-runtime-worker/src/agent-stats.ts:421-437 | with awaited hooks at most one call is ever unwritten |
| `Spend.ATurnIsCreditedOnce` | packages/agent-runtime-worker/src/agent-stats.ts:142-174 | a turn's cost is handed to the lifetime total at most once, however many reconciliations race and though its number be used again |
| `Spend.ReconciliationSparesTheTurnInFlight` | packages/agent-runtime-worker/src/agent-stats.ts:142-152 | a reconciliation can only claim turns below the one in flight |
| `Spend.HiddenExactlyWhenExposed` | packages/agent-runtime-worker/src/agent-runner-turn.ts:129-132 | stored cost can be hidden by a later write, in some run without another call, if and only if a running document, or the turn in flight, has cost under a number no conversation document has reached |
| `Spend.ACallExposesExactlyBeforeTheFirstMessage` | packages/agent-runtime-worker/src/agent-stats.ts:422-437 | a call brings that about if and only if it costs something and comes in a turn before its first stored message |
| `Spend.ACallBeforeTheFirstMessageIsHidden` | packages/agent-runtime-worker/src/agent-stats.ts:208-215 | for every cost, a run in which such a call and a crash leave nothing of it in the snapshot |
| `Collector.StatsCollector.ReconcileStaleTurns` | packages/agent-runtime-worker/src/agent-stats.ts:142-174 | claim by claim and addition by addition of the protocol, with calls, other claims and messages at every await: afterwards no document of another turn runs; with nobody else at work the sum is unchanged |
| `Collector.StatsCollector.StartTurn` | packages/agent-runtime-worker/src/agent-stats.ts:389-419 | afterwards only the new turn runs, its document holding what calls have come meanwhile; with nobody else at work the total is unchanged but for a document overwritten |
| `Collector.StatsCollector.RecordLlmCall` | packages/agent-runtime-worker/src/agent-stats.ts:421-437 | the turn's document then holds the cost of all its calls, however late; within the turn the total the cap reads grows by exactly the call's cost and what was unwritten; without an accumulator by nothing |
| `Collector.StatsCollector.EndTurn` | packages/agent-runtime-worker/src/agent-stats.ts:474-520 | the document ends, and the lifetime total gains at least the cost the turn had, with calls and claims at every await; with nobody else at work exactly that cost |
| `Limits.EvaluateLimits` | packages/agent-runtime-worker/src/limits.ts:264-275 | exactly the breached rules, with their values |
| `Limits.RulesMeanTheConfiguration` | packages/agent-runtime-worker/src/limits.ts:133-220 | the rules built are breached hard exactly when a configured positive limit is exceeded |
| `Limits.ABreachIsExceeding` | packages/agent-runtime-worker/src/limits.ts:133-275 | a rule built is breached exactly when the limit it stands for is exceeded: which number is compared with which configured field, or with 40 calls, 100 000 tokens, 8 errors or 3 turns where a warning has none |
| `Limits.ExceedingIsABreach` | packages/agent-runtime-worker/src/limits.ts:133-275 | and every limit so exceeded, hard or soft, is a breach of one of the rules built |
| `Limits.LimitEnforcer.Enforce` | packages/agent-runtime-worker/src/agent-runner-phases.ts:112-172 | it throws exactly when a hard limit is exceeded, alerting it last; every soft limit exceeded has alerted by then, once at most per turn though its threshold be edited; every new alert is of a limit exceeded, with its value; a failed read falls back to the boot-time limits |
| `LimitedTurn.MainCallsAreBounded` | packages/agent-runtime-worker/src/loop.ts:236-305 | with a limit of N a turn makes at most N + 1 main-loop calls, its recovery included |
| `LimitedTurn.AtMostOneStartsOver` | packages/agent-runtime-worker/src/loop.ts:236-305 | in every run, timed-out tools that go on calling included, at most one main-loop or tool call starts above the limit, and the turn ends at the check after it |
| `LimitedTurn.AStartIsOverExactlyByStrays` | packages/agent-runtime-worker/src/llm-meter.ts:53-77 | a start is over the limit if and only if the calls timed-out tools have made since the last check exceed what that check left |
| `LimitedTurn.NothingStartsOverTheLimit` | packages/agent-runtime-worker/src/llm-meter.ts:53-77 | so without such calls nothing starts above the limit, although tools and meters swallow what the check throws |
| `LimitedTurn.StrayCallsLetAnyStartOver` | packages/agent-runtime-worker/src/loop.ts:387-408 | from every reachable state about to start a call, a run in which late calls let it start above the limit |
| `LimitedTurn.AStrayCallLetsOneStartOver` | packages/agent-runtime-worker/src/loop.ts:387-408 | for every limit, such a run for the first tool call of a turn |
| `LimitedTurn.Hook` | packages/agent-runtime-worker/src/agent-runner-phases.ts:112-172 | the loop's hook with the enforcer's verdict goes where the protocol goes: on, or stopped exactly when a hard limit in force is exceeded |
| `LimitedTurn.TheStateTellsOfTheRun` | packages/agent-runtime-worker/src/loop.ts:236-305 | the count, the main-loop calls and the starts above the limit are those of the run: calls recorded, starts made, starts made with more calls recorded than the limit |
| `LimitedTurn.TheLoopIsRunTwiceAtMost` | packages/agent-runtime-worker/src/agent-runner-turn.ts:387-447 | the loop is run once more at most, behind its first call |
| `Dispatch.StepKeepsInv` | packages/agent-runtime-worker/src/orchestrator-dispatch.ts:90-258 | what every step of passes, runs, mail, tools and clocks keeps |
| `Dispatch.PassesNeverOverlap` | packages/agent-runtime-worker/src/orchestrator-dispatch.ts:90-104 | at most one pass is in progress, exactly when one is marked in flight |
| `Dispatch.EveryRequestIsAccountedFor` | packages/agent-runtime-worker/src/orchestrator-dispatch.ts:90-104 | each dispatchReady() call is served by a pass that began after it, waits for the pass in flight to go round again, or was dropped by a pass that threw; a pass in flight is asked to go round again exactly while a request waits |
| `Dispatch.OnlyAPassServes` | packages/agent-runtime-worker/src/orchestrator-dispatch.ts:90-104 | requests are served only by a pass that begins, and dropped only by one that throws |
| `Dispatch.MailIsHandedOutOnce` | packages/agent-runtime-worker/src/mailbox.ts:123-135 | each message is, for each recipient, in exactly one of: unread, in a pass's hand, one run's batch, read by the agent's tool, stranded by a throw |
| `Dispatch.AStepStrandsExactly` | packages/agent-runtime-worker/src/orchestrator-dispatch.ts:185-218 | a step strands mail if and only if it throws in a pass that has marked some read, or starts a run for an agent without identity; then exactly what was marked |
| `Dispatch.AThrowStrandsMail` | packages/agent-runtime-worker/src/orchestrator-dispatch.ts:185-218 | for every team that may start runs and each of its agents, a run that strands that agent's mail |
| `Dispatch.MissingIdentitiesStrandExactly` | packages/agent-runtime-worker/src/orchestrator-dispatch.ts:211-217 | without a failing call mail can be stranded if and only if runs may start and some agent has no identity |
| `Dispatch.OnlyAThrowStrandsMail` | packages/agent-runtime-worker/src/orchestrator-dispatch.ts:90-104 | without a throw and with all identities there, in every run no mail is stranded and no request dropped |
| `Dispatch.RunsAreBounded` | packages/agent-runtime-worker/src/orchestrator-dispatch.ts:151-222 | one active run per agent, never more runs than maxRuns |
| `Dispatch.CooldownIsRespected` | packages/agent-runtime-worker/src/retry-backoff.ts:33-82 | a run starts only for an idle agent with mail, not before the cooldown of its last error has ended, unless a later success has dropped that cooldown |
| `Dispatch.AnAgentIsConsideredExactly` | packages/agent-runtime-worker/src/orchestrator-dispatch.ts:151-208 | an agent is passed over if and only if a run of it is active, it is paused, or its cooldown has not ended; else its mail is asked for exactly when fewer than maxRuns runs are active |
| `Dispatch.RepliesSetTheCooldown` | packages/agent-runtime-worker/src/retry-backoff.ts:33-82 | an error sets its agent's cooldown from now on, any other reply ends it |
| `Dispatch.BackoffDoubles` | packages/agent-runtime-worker/src/retry-backoff.ts:9-20 | with every further failure the wait doubles, up to the maximum |
| `Dispatch.TheProvidersWishCounts` | packages/agent-runtime-worker/src/retry-backoff.ts:9-20 | the provider's wish counts when it is longer, up to twice the maximum |
| `Dispatch.BackoffIsBoundedAndMonotone` | packages/agent-runtime-worker/src/retry-backoff.ts:9-20 | the back-off grows with the failures, between the base and twice the maximum, and grants the provider's wish within it |
| `DispatcherClass.Dispatcher.DispatchReady` | packages/agent-runtime-worker/src/orchestrator-dispatch.ts:90-104 | coalesces into the pass in flight, or goes round while asked to and ends with nothing in flight and no request waiting; every state on the way is one the protocol reaches |
| `DispatcherClass.Dispatcher.DispatchOnePass` | packages/agent-runtime-worker/src/orchestrator-dispatch.ts:185-208 | one pass over the agents takes only steps of the protocol, with anything happening at its awaits; undisturbed, every agent in turn that is idle, not paused, past its cooldown and has mail gets a run with exactly its unread mail while there is room, and no other agent does; without an identity the pass throws there |
| `DispatcherClass.Dispatcher.MarkRead` | packages/agent-runtime-worker/src/mailbox.ts:130-135 | the batch is marked one message after another, unread up to its own mark |
| `DispatcherClass.Dispatcher.StartRun` | packages/agent-runtime-worker/src/orchestrator-dispatch.ts:211-259 | a run with exactly the batch starts, or it throws for want of an identity and the batch is stranded |
| `DispatcherClass.Dispatcher.ListUnread` | packages/agent-runtime-worker/src/mailbox.ts:123-128 | exactly the agent's unread mail |
| `MentalMap.SanitizedIsClean` | packages/agent-runtime-worker/src/mental-map.ts:69-82 | no script, handler, id or data-managed attribute is left at any depth |
| `MentalMap.SanitizeKeepsTheRest` | packages/agent-runtime-worker/src/mental-map.ts:69-82 | written out, every text and every tag outside of scripts is kept in its place, and of the attributes exactly those that are no event handler, id or managed mark, in order |
| `MentalMap.CleanIsKept` | packages/agent-runtime-worker/src/mental-map.ts:69-82 | so a fragment without any of these is not changed at all |
| `MentalMap.EditKeepsSkeleton` | packages/agent-runtime-worker/src/mental-map.ts:89-152 | an edit of an id'd element leaves the tree without id'd subtrees as it was |
| `MentalMap.TheSkeletonIsUntouchable` | packages/agent-runtime-worker/src/mental-map.ts:89-152 | so does every sequence of update, add and remove calls |
| `MentalMap.IdsStayUnique` | packages/agent-runtime-worker/src/mental-map.ts:106-141 | unique ids stay unique through every sequence of calls |
| `MentalMap.OnlyValidatedIdsAppear` | packages/agent-runtime-worker/src/mental-map.ts:106-141 | an id not there before is the validated new_id of one of the calls, never the reserved one |
| `MentalMap.OneEditCount` | packages/agent-runtime-worker/src/mental-map.ts:89-152 | per id: a call adds at most its own new_id, which was free |
| `MentalMap.AnUpdateSetsTheContent` | packages/agent-runtime-worker/src/mental-map.ts:89-104 | the addressed element keeps tag and attributes and then holds the sanitised content, or with append its old children followed by it; all before and behind it is as it was |
| `MentalMap.AnAdditionMakesALastChild` | packages/agent-runtime-worker/src/mental-map.ts:106-141 | the new div with the sanitised content is the last child of its parent, or of the body, and is what its id then finds; all else is as it was |
| `MentalMap.ARemovalTakesTheElement` | packages/agent-runtime-worker/src/mental-map.ts:143-152 | the first element of that id is gone with its subtree; all else is as it was |
| `MentalMap.AnAdditionFailsExactly` | packages/agent-runtime-worker/src/mental-map.ts:106-141 | which error an addition gives, and that it succeeds if and only if the id begins with a lower-case letter, has only such letters, digits and dashes, is not the reserved one nor in use, and the parent exists |
| `MentalMap.SameWrittenSameMap` | packages/agent-runtime-worker/src/mental-map.ts:89-152 | "as it was" means the same map: two maps written alike are equal |
| `MentalMap.CleanHasNoManaged` | packages/agent-runtime-worker/src/mental-map.ts:69-82 | sanitised content contains no managed region |
| `MentalMap.UpsertSetsTheRegion` | packages/agent-runtime-worker/src/mental-map.ts:181-197 | the region then holds exactly the sanitised content with all else as it was, or a section with it stands on top of what was there; a later upsert makes an earlier one invisible |
| `MentalMap.ManagedRegionsAreUntouchable` | packages/agent-runtime-worker/src/mental-map.ts:181-197 | a region put at the top survives every sequence of calls as it is, and the next upsert of its key finds that very region |
| `MentalMap.AnEmptyMapStaysEmpty` | packages/agent-runtime-worker/src/mental-map.ts:213-240 | a map that has become empty refuses every call from then on, adding at the top level included |
| `MentalMap.AMapCanBeEmptiedExactly` | packages/agent-runtime-worker/src/mental-map.ts:143-152 | some sequence of calls empties a map if and only if nothing of it stands outside elements with ids |
| `MentalMap.TheTopLevelIsAlwaysOpen` | packages/agent-runtime-worker/src/mental-map.ts:106-141 | adding at the top level succeeds exactly with a map that is not empty and a valid, unreserved, unused id |
| `MentalMap.MentalMapTools.Update` | packages/agent-runtime-worker/src/mental-map.ts:237-270 | an error, and the map unchanged, exactly if it is empty or has no such element; else the element has the sanitised content, with append behind its own, and all else is as it was |
| `MentalMap.MentalMapTools.Add` | packages/agent-runtime-worker/src/mental-map.ts:272-308 | the same for adding: an error exactly if the map is empty, the id is not valid, reserved or in use, or the parent is missing; else the new div is the parent's last child |
| `MentalMap.MentalMapTools.Remove` | packages/agent-runtime-worker/src/mental-map.ts:310-332 | the same for removing: the first element of the id is gone with its subtree |
| `ScheduleSync.TickConverges` | packages/agent-runtime-worker/src/schedule-ingest.ts:404-508 | which labels are pending after a tick from any state, and that what is armed is what the file says |
| `ScheduleSync.ATickSettlesEveryLabel` | packages/agent-runtime-worker/src/schedule-ingest.ts:404-508 | what a tick leaves of every document, field by field: hash, time, status, marks as the file says where there was none, or an unmarked one that has ended or stems from another file; untouched otherwise; without a file no longer pending and unmarked |
| `ScheduleSync.AWriteGoesByItsRead` | packages/agent-runtime-worker/src/schedule-ingest.ts:404-453 | the write that goes by an earlier lookup: an insert only where there is still none, an update arms what is there by then and keeps the mark that came in between |
| `ScheduleSync.DocumentsStemFromFiles` | packages/agent-runtime-worker/src/schedule-ingest.ts:404-508 | in every run with overlapping ticks, cancels and deliveries, a document's hash is that of a file of its own label, and its time that file's or the scheduler's |
| `ScheduleSync.TickConvergesAtRest` | packages/agent-runtime-worker/src/schedule-ingest.ts:404-508 | with nothing being delivered: exactly the labels with a valid file the operator did not cancel |
| `ScheduleSync.SecondTickChangesNothing` | packages/agent-runtime-worker/src/schedule-ingest.ts:455-508 | a second tick with unchanged files changes nothing, whenever it runs |
| `ScheduleSync.OperatorCancelHolds` | packages/agent-runtime-worker/src/schedule-ingest.ts:404-453 | a cancel that nothing under way can undo holds through every sequence of reads and writes of overlapping ticks, edits and scheduler steps while the file stays valid |
| `ScheduleSync.CancelHoldsExactly` | packages/agent-runtime-worker/src/schedule-ingest.ts:404-508 | a cancel, from the cockpit or the copilot, holds for good if and only if at that moment the schedule is not being delivered, no tick holds a read that will arm it, and none is about to clear the marks without having listed the file |
| `ScheduleSync.MarkedIsLeftAlone` | packages/agent-runtime-worker/src/schedule-ingest.ts:433-436 | a document under the mark, whatever its status, is left as it is by every tick that finds its file |
| `ScheduleSync.ADeliveryUndoesTheCancelForGood` | packages/agent-runtime-worker/src/schedule-ingest.ts:433-436 | so a schedule whose delivery ends after the cancel stays pending under the mark through every such tick |
| `ScheduleSync.RemovingTheFileLiftsTheCancel` | packages/agent-runtime-worker/src/schedule-ingest.ts:490-497 | a tick without the file lifts the cancel; a file then found arms it |
| `ScheduleSync.Ingestor.UpsertSchedule` | packages/agent-runtime-worker/src/schedule-ingest.ts:404-453 | the lookup, and a write that goes by it though others have written since, are steps of the protocol; with nobody else at work: inserted, armed anew, or untouched as specified |
| `ScheduleSync.Ingestor.IngestSchedules` | packages/agent-runtime-worker/src/schedule-ingest.ts:455-508 | the loop over the files and the two updates take only steps of the protocol and leave a document for every valid file; with nobody else at work they make exactly the specified tick |
| `Cidr.CidrIsAgreementOfTopBits` | packages/agent-runtime-worker/src/ssrf.ts:47-50 | the signed 32-bit mask test equals agreement of the quotients by 2^(32 - bits) |
| `Cidr.Ipv4IsBase256` | packages/agent-runtime-worker/src/ssrf.ts:42-45 | the shifts put the octets together in base 256, without a sign |
| `Cidr.LowBits` | packages/agent-runtime-worker/src/ssrf.ts:78-84 | masking with 2^k - 1 is the remainder |
| `Ipv6Text.FormsExpand` | packages/agent-runtime-worker/src/ssrf.ts:70-97 | every printed form of RFC 4291 section 2.2 (compressed run or none, leading zeros or none, dotted tail or none) expands to its groups |
| `Ipv6Text.Ipv6GroupsInvertsEveryForm` | packages/agent-runtime-worker/src/ssrf.ts:70-97 | of any literal ipv6Groups returns g exactly when the literal without brackets, zone and white space is a text form of g |
| `Ipv6Text.TextFormsAreUnambiguous` | packages/agent-runtime-worker/src/ssrf.ts:70-97 | no string is a text form of two addresses |
| `Ipv6Text.WrappingsComeOff` | packages/agent-runtime-worker/src/ssrf.ts:71-76 | brackets and any zone come off every text form |
| `Alerts.AlertsAreSpaced` | packages/agent-runtime-worker/src/resource-alert-state.ts:94-133 | hence two consecutive alerts less than 24 h apart: the level rose, or a reading between was below every threshold and the soft one by more than 0.05, or the second is hard and one between was soft and below the hard threshold by more than 0.05 |
| `Alerts.AnAlertIsSentExactly` | packages/agent-runtime-worker/src/resource-alert-state.ts:94-133 | after an alert the next is sent if and only if the reading reaches a threshold and 24 h have passed, or the level was cleared in between, or the reading is hard and the alert was not or the hard band was left in between; it is of the reading's level |
| `Alerts.TheFirstAlert` | packages/agent-runtime-worker/src/resource-alert-state.ts:94-133 | the first alert comes with the first reading that reaches a threshold |
| `Alerts.NoReadingGoesUnreported` | packages/agent-runtime-worker/src/resource-alert-state.ts:94-133 | a reading above a threshold alerts, or an alert of its level or a higher one was sent less than 24 h before; every alert is of the level its reading has |
| `Alerts.StateSinceAlert` | packages/agent-runtime-worker/src/resource-alert-state.ts:94-133 | while quiet, the state is exactly the last alert's, at the soft level once a reading left the hard band, and gone once one cleared it |
| `Alerts.NothingGoesUnreportedInAnOutage` | packages/agent-runtime-worker/src/resource-alert-state.ts:59-74 | however the store throws and the daemon restarts, a reading above a threshold alerts, or an alert of its level or a higher one was sent less than 48 h before, and less than 24 h unless the store took down an alert that was never sent |
| `Alerts.ASwallowedAlertSilencesExactly` | packages/agent-runtime-worker/src/resource-alert-state.ts:59-74 | after a call whose alert the store took down though the call threw, and on which the memory kept quiet, the same reading can stay silent a day or longer after the last alert sent if and only if that alert was sent before it |
| `Alerts.ASwallowedAlertDoublesTheSilence` | packages/agent-runtime-worker/src/resource-alert-state.ts:59-74 | for every reading above a threshold and any two stretches below 24 h, a run of three such readings in which only the first alerts |
| `Alerts.AnOutageAlertsAsASeries` | packages/agent-runtime-worker/src/resource-alert-state.ts:51-74 | while the store throws, what is alerted is what the readings on which it threw, since the last restart, alert by themselves, hence spaced as such a series is |
| `Alerts.AlertStateStore.DecideOn` | packages/agent-runtime-worker/src/resource-alert-state.ts:94-133 | the decision and the state as specified, or a throw with exactly the writes landed that come before; other keys are untouched |
| `Alerts.EvaluateAlert` | packages/agent-runtime-worker/src/resource-alert-state.ts:59-74 | the store first and the in-memory one when it throws: both states and the alert are as the model says; other keys are untouched |
| `PdfTables.SortingSorts` | packages/agent-runtime-worker/src/pdf-tables.ts:47-47 | the lines sorted by y, then x, each as often as before |
| `PdfTables.RowsPartitionTheLines` | packages/agent-runtime-worker/src/pdf-tables.ts:46-59 | every line is in one row, as often as on the page |
| `PdfTables.RowsAreGood` | packages/agent-runtime-worker/src/pdf-tables.ts:46-59 | rows are more than two points apart, hold the lines within two points of their topmost, and order their cells by x |
| `PdfTables.EveryLineComesOut` | packages/agent-runtime-worker/src/pdf-tables.ts:100-159 | every line that is not blank comes out as often as on the page, plus once for each time it was folded into a row that stood alone, and each of these also as a plain line |
| `PdfTables.ThePageReadsInOrder` | packages/agent-runtime-worker/src/pdf-tables.ts:100-159 | the whole output item by item in the page's order: which rows each table is made of, that it goes as far as it can, and that a line that goes on stands behind the text of the first column within 10 points of it, with at most one such line per row, 25 points below at most |
| `PdfTables.GrownReads` | packages/agent-runtime-worker/src/pdf-tables.ts:114-146 | what the inner loop grows, the same of one table |
| `PdfTables.TableLinesComeOutOnce` | packages/agent-runtime-worker/src/pdf-tables.ts:108-152 | a line in a table is nowhere else in the output |
| `PdfTables.FoldedExactlyWhere` | packages/agent-runtime-worker/src/pdf-tables.ts:124-158 | a line is folded into a row left standing alone if and only if it is the single line of the row below, close enough, at one of the row's columns, and no row of the same columns follows |
| `PdfTables.ComesOutTwiceExactly` | packages/agent-runtime-worker/src/pdf-tables.ts:100-159 | a line that is on the page once comes out twice if and only if it stands so below a row the outer loop comes to; one of the two is a plain line |
| `PdfTables.ThreeLinesComeOutAsFour` | packages/agent-runtime-worker/src/pdf-tables.ts:100-159 | for any three texts, a page of two cells and a line below on which that happens |
| `PdfTables.GroupIntoRows` | packages/agent-runtime-worker/src/pdf-tables.ts:46-59 | the loop makes exactly the specified rows |
| `PdfTables.GrowTable` | packages/agent-runtime-worker/src/pdf-tables.ts:114-146 | the inner loop grows exactly the specified table and stops |
| `PdfTables.ReconstructPage` | packages/agent-runtime-worker/src/pdf-tables.ts:100-159 | the nested loops make exactly the specified items, which read the page in its order; each round moves on by at least one row |
| `AnomalyDigest.EveryAnomalyIsCountedOnce` | packages/agent-runtime-worker/src/anomaly-digest.ts:44-96 | of every kind: what was added is what was flushed plus what is buffered; something is buffered exactly when a timer is armed |
| `AnomalyDigest.GroupsTellWhatWasAdded` | packages/agent-runtime-worker/src/anomaly-digest.ts:71-95 | every group buffered or sent tells of a run of additions of its kind up to the last: how many, when the first and the last came, the last message; the timer is for a period after the last digest, or for the first addition if that came later |
| `AnomalyDigest.ADigestIsSentExactly` | packages/agent-runtime-worker/src/anomaly-digest.ts:48-95 | a digest goes out exactly when something is buffered and it is due, with all of it |
| `AnomalyDigest.DigestsArePeriodsApart` | packages/agent-runtime-worker/src/anomaly-digest.ts:44-96 | digests are not empty, the first is a period after the start, and any two are a period apart |
| `AnomalyDigest.SoftAnomalyDigest.Add` | packages/agent-runtime-worker/src/anomaly-digest.ts:71-95 | the group and the timer as specified |
| `AnomalyDigest.SoftAnomalyDigest.Flush` | packages/agent-runtime-worker/src/anomaly-digest.ts:48-68 | the buffer becomes one digest, and is empty |
| `AnomalyRecorder.RecordsAreAccountedFor` | packages/agent-runtime-worker/src/anomaly.ts:187-243 | of every kind: records = immediate notices + suppressed reported + suppressed in the open window |
| `AnomalyRecorder.ImmediateNoticesAreSpaced` | packages/agent-runtime-worker/src/anomaly.ts:187-243 | immediate notices of one kind are a window apart |
| `AnomalyRecorder.ARecordIsAnnouncedExactly` | packages/agent-runtime-worker/src/anomaly.ts:187-243 | a record is announced at once unless a window of its kind is open, which it is for a window's length after the notice it began with; closing, it reports what it suppressed if anything |
| `AnomalyRecorder.Recorder.Record` | packages/agent-runtime-worker/src/anomaly.ts:220-243 | every anomaly is stored; a soft one goes to the digest only, any other through the windows only |
| `AnomalyRecorder.Recorder.CloseWindow` | packages/agent-runtime-worker/src/anomaly.ts:191-204 | the window's count is reported if there is one, and the window is gone |

## Left out

- JobFires.AFireIsQueuedOnce: "at most one job" is stated with one more per refusal of a job of its id, because a refused job leaves no record; without refusals it is at most one.
- LimitedTurn.NothingStartsOverTheLimit: is stated for turns in which no timed-out tool goes on making metered calls, because one start can slip through otherwise (`LimitedTurn.AtMostOneStartsOver`).
- LimitedTurn.MainCallsAreBounded: the limit is taken as the same through the turn; a limit edited within it is not modelled there.
- JobSpool.SubmissionsAreNeverLost: is stated for runs that do not use an id again while a spec under it is live, because recovery can overwrite one otherwise.
- JobSpool.BoundHoldsExactlyForNonNegativeCounts: counts are integers; a count of another JSON type, which the code adds to and compares as it stands, is not modelled.
- ScheduleSync.TickConvergesAtRest: is stated for documents that are not being delivered and whose operator mark is on cancelled ones; `ScheduleSync.TickConverges` says what a tick does from any state.
- HistoryRepair.EveryWakeupIsPaired: is stated for runs whose compactions complete, because one cut short can hide one half of a pair; `CompactionCuts.EveryWakeupIsPairedExactly` says exactly when it does harm.
- DispatcherClass.Dispatcher.DispatchReady: runs a given number of rounds, because requests could keep it going round for ever; the reads and writes of the class succeed, while `Dispatch` lets a pass throw anywhere.
- InnerLoop.Executed: the texts the code words itself (why a call failed, that a result was lost or not saved) are shortened; which text comes where is modelled.
- PdfTables.EveryLineComesOut: the text of a cell is the lines it was put together from; escaping of "|", the joins with spaces and newlines, and the final collapse of blank lines are not modelled, nor that folding also changes the caller's line object.
- Ipv6Text.Ipv6GroupsInvertsEveryForm: node's isIPv6 and isIPv4 are the grammar of RFC 4291 section 2.2 and the dotted form without leading zeros; what they do on other strings is not part of this model.
- MentalMap.MentalMapTools.Update: maps are trees; parsing and serialising HTML, merging of neighbouring texts and the inert contents of templates are not modelled, and the edits work on values where the code changes a freshly parsed tree.
- Spend.SnapshotFallsShortExactly: writes to the statistics store succeed and land when issued; the code logs and swallows a failed one. A failed cost write is missing until the next; a failed status write leaves a document running that a later reconciliation adds to the lifetime total once more; neither is modelled.
- Alerts.AlertsAreSpaced: is stated for one store; across the two, each has its own series (`Alerts.AnOutageAlertsAsASeries`), and nothing is said of an alert from one and the next from the other.
- The control plane's scheduler, daemon boot, objectives and research tools appear only as environment steps (stamp, deliver, cancel, call the model).
- The timer that retries a failed dispatch pass, and the timers that dispatch again when a cooldown ends: requests from anywhere stand for them.
- HTTP and SSE servers, change streams, the cockpit, DNS, git, sudo, child processes, path resolution, prompts, log texts, pricing and index creation.
- Validation of specs and schedule files, file ownership and the once-per-reason report of refusals: they decide which files count as valid, which the model takes as given.
- Limit metrics other than those in the rules, mission-wide sums over agents, and cost attribution to objectives: sums over what is modelled per agent.
- isPrivateIPv4 and isPrivateIPv6: lists of ranges over the arithmetic that is modelled.
