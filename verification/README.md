# Verified model of axinite's stateful cores

Axinite is an agent runtime. The parts modelled here are small components whose correctness
depends on whole runs, on interleavings of callers, or on graph reachability:

- `AuditPaths.dfy`: the lockfile check that a path-scoped audit ignore still holds, with its
  breadth-first search over reversed dependencies.
- `Sessions.dfy`: resolving a user, channel and external id to a session and a thread, with
  every locked region one atomic step and any number of callers in between.
- `Migrations.dfy`: the incremental libSQL migrations, run by several processes at once, each
  of which may fail or crash at any point where it waits.
- `Undo.dfy`: the undo and redo stacks, and the timeline with a cursor that they stand for.
- `Jobs.dfy`, `JobTable.dfy`: the job state machine with its capped log and rollback, and the
  two maps that hold jobs and their memories.
- `CostGuard.dfy`: the daily budget with its cached flag, and the hourly limit over a lazily
  drained window.
- `AgenticLoop.dfy`: the loop that asks the model, runs tools and nudges, for every behaviour
  of the model and of the delegate.
- `Conversation.dfy`: the bounded history that pins a system message.
- `Utf8.dfy`: three truncations of text at a byte limit.
- `EnvFile.dfy`: saving and upserting variables in the `.env` text.
- `PidLock.dfy`: the single-instance lock as a protocol over paths, files and processes.
- `Learner.dfy`: the estimation learner's moving averages.

Objects that change in place are classes; each method is tied to a function of the old state,
and the theorems are about those functions and about runs of them. Protocols are state
machines: `Apply` (or `After`) is one atomic step, `Run` a sequence of enabled steps, and the
theorems hold in every reachable state. Names ending in `Exactly` are if-and-only-if results:
where a promise does not always hold, the lemma gives the condition on the step or on the
input under which it does, and a neighbouring lemma gives a run or an input that breaks it.

`dafny verify dfyconfig.toml` checks the project.

## Where the code and its comments differ

The model follows the code.

- `scripts/verify_audit_ignore_paths.py:94` says every reverse path reaches the expected
  ancestor. Paths inside a dependency cycle have no end and need not (`CyclicLockfileIsAccepted`);
  `AcceptedPathsExactly` says when they do.
- `src/agent/undo.rs:45-49` says only `checkpoint` and `clear` change the number of
  checkpoints. `restore` does too (`RestoreShrinksTotal`).
- `src/db/libsql_migrations.rs:6-7` says each migration runs exactly once. V12 can run again
  (`TwoProcessesRunScriptTwice`, `ScriptRepeatsOnlyAfterStopBetween`).
- `src/bootstrap/pid_lock.rs:43-46` says two processes cannot both acquire the lock. They can
  when the path is removed while one has opened the file and not yet locked it (`TwoInstances`).
- `src/agent/session_manager.rs:148-162` says the re-check preserves channel isolation. It does
  not see a thread whose creating call has not stored its mapping yet (`WindowSharesThread`), nor one whose mapping
  was overwritten (`OrphanSharesThread`).

## Model

| member | source | states |
|---|---|---|
| AuditPaths.KeyIsNameAndVersion | scripts/verify_audit_ignore_paths.py:23-29 | a package has a key exactly when its name and version are those strings, whatever else the entry holds |
| AuditPaths.BuildPackagesByName | scripts/verify_audit_ignore_paths.py:43-51 | for every name the index holds exactly the keys of that name that some entry's own fields give |
| AuditPaths.BuildParentMap | scripts/verify_audit_ignore_paths.py:75-86 | for every key, absent ones too, the map holds exactly the packages that contribute an edge to it |
| AuditPaths.ResolvesIsDependencyKeys | scripts/verify_audit_ignore_paths.py:32-40 | a specification resolves to a key exactly when it spells its name and version, or is the bare name of a locked package |
| AuditPaths.ParentMapIsDependsOn | scripts/verify_audit_ignore_paths.py:54-86 | the built edges are exactly the dependency relation of the lockfile, stated without the index |
| AuditPaths.ReversePathsCrossExpectedAncestor | scripts/verify_audit_ignore_paths.py:89-111 | terminates on every finite graph, cycles included, and accepts exactly when every chain of dependents that ends in a package nobody depends on crosses the ancestor and some chain crosses it |
| AuditPaths.OnlyThroughByReach | scripts/verify_audit_ignore_paths.py:89-111 | that reading over whole chains equals the reading over packages reached before the ancestor |
| AuditPaths.ClosedSetHoldsWalk | scripts/verify_audit_ignore_paths.py:97-110 | a set closed upwards except above the ancestor holds everything reached without crossing it, so an exhausted search has missed nothing |
| AuditPaths.SearchExhausted | scripts/verify_audit_ignore_paths.py:97-111 | an empty queue means no root was reachable before the ancestor, and the flag tells whether the ancestor was reached |
| AuditPaths.EveryPathExactly | scripts/verify_audit_ignore_paths.py:89-111 | given acceptance, every path, also one longer than the graph is large, crosses the ancestor exactly when no cycle without the ancestor can be entered before it |
| AuditPaths.AcceptedPathsExactly | scripts/verify_audit_ignore_paths.py:114-128 | the same for every lockfile, over its locked packages |
| AuditPaths.CyclicLockfileIsAccepted | scripts/verify_audit_ignore_paths.py:114-128 | a family of lockfiles that are accepted although endless paths avoid the ancestor |
| AuditPaths.HasOnlyExpectedDependencyPaths | scripts/verify_audit_ignore_paths.py:114-128 | over the raw lockfile: true exactly when the package is not locked or all its reverse paths go through the ancestor |
| Sessions.CallStepOk | src/agent/session_manager.rs:105-187 | every locked region of a call keeps sessions, threads and the call's own handles consistent, and never shrinks a session |
| Sessions.StepKeepsInv | src/agent/session_manager.rs:53-343 | so does every step of every caller, with registration, pruning and hydration interleaved |
| Sessions.ReturnedThreadIsInSession | src/agent/session_manager.rs:105-187 | in every interleaving a returned thread is in the returned session |
| Sessions.OwnSessionsExactly | src/agent/session_manager.rs:53-222 | sessions stay with their own users exactly when a step does not register one made for somebody else |
| Sessions.SessionsAreOwn | src/agent/session_manager.rs:53-222 | in every run without such a registration the session a call has is its user's own |
| Sessions.OneSessionExactly | src/agent/session_manager.rs:53-100 | the calls in flight have their users' current sessions exactly as long as no step prunes a session that one of them has |
| Sessions.SameUserSameSession | src/agent/session_manager.rs:53-100 | in every run without such a prune all calls of a user in flight have one session |
| Sessions.OneSessionPerUser | src/agent/session_manager.rs:53-100 | as long as a user's session is never pruned all calls of that user, finished ones too, have one session |
| Sessions.TwoSessions | src/agent/session_manager.rs:310-319 | a reachable state in which two calls of one user have different sessions |
| Sessions.IsolationExactly | src/agent/session_manager.rs:131-222 | the thread map stays one-to-one, with threads in creation counted in, exactly when a step does not adopt a thread another call is still creating and does not register one bound to another key |
| Sessions.DistinctKeysDistinctThreads | src/agent/session_manager.rs:105-222 | in every run without such steps distinct keys map to distinct threads |
| Sessions.LiveExactly | src/agent/session_manager.rs:131-335 | while keys are isolated, every thread ever given to a key stays in the map or on its way there exactly when a step does not overwrite or drop a mapping |
| Sessions.UnboundCanBeShared | src/agent/session_manager.rs:131-335 | after such a step a registration of the thread on another channel, harmless by itself, gives it to another key |
| Sessions.OrphanSharesThread | src/agent/session_manager.rs:136-178 | a run of calls only, with no adoption in the window, in which two keys get one thread through an overwritten mapping |
| Sessions.ThreadsNeverShared | src/agent/session_manager.rs:105-222 | in every run in which no step breaks the isolation of the map and none overwrites or drops a mapping, no two calls with different keys ever have the same thread |
| Sessions.SettledExactly | src/agent/session_manager.rs:120-184 | the calls for a key stay settled on the mapped thread exactly when none creates or adopts while another has a thread, none finds the key mapped while another is about to store, and nothing remaps the key |
| Sessions.SettledAgrees | src/agent/session_manager.rs:120-184 | calls for a settled key have the same thread |
| Sessions.SameKeySameThread | src/agent/session_manager.rs:105-187 | if calls for a key never overlap and nothing registers or prunes the key or prunes its session, all of them get one session and one thread, whatever other keys and users do in between |
| Sessions.UndoKeptExactly | src/agent/session_manager.rs:180-244 | a step keeps every undo manager exactly when it neither stores a new one over one handed out meanwhile nor prunes one |
| Sessions.ManagersAreNotShared | src/agent/session_manager.rs:159-244 | in every interleaving different threads have different undo managers |
| Sessions.WindowSharesThread | src/agent/session_manager.rs:136-178 | a reachable state in which two keys have one thread |
| Sessions.WindowLosesUndo | src/agent/session_manager.rs:175-184 | a reachable state in which the creating call is about to replace a manager that was handed out |
| Sessions.SameKeyTwoThreads | src/agent/session_manager.rs:168-178 | a reachable state in which two concurrent calls with one key have different threads |
| Sessions.UninterruptedIsResolve | src/agent/session_manager.rs:105-187 | the eleven-stage step machine without interference computes the sequential meaning of the call |
| Sessions.ResolveBindsKey | src/agent/session_manager.rs:105-187 | a call alone binds its key to the result, which is in the user's session, and keeps a one-to-one map one-to-one |
| Sessions.ResolveUsesOneSession | src/agent/session_manager.rs:105-187 | a call alone works in the user's session or a new empty one, adds at most its own thread there and leaves all others alone |
| Sessions.ResolveFindsOrMakes | src/agent/session_manager.rs:118-184 | its thread is new exactly when the key has no mapping into the session and the external id names no free thread of it; a new one is known to no table, active, and has a new manager |
| Sessions.ResolveGivesManager | src/agent/session_manager.rs:156-184 | a newly bound thread has a manager, an adopted one keeps its own, and no other thread's changes |
| Sessions.ResolveIsStable | src/agent/session_manager.rs:118-129 | resolving again gives the same session and thread and changes nothing |
| Sessions.SessionManager.constructor | src/agent/session_manager.rs:37-44 | all tables are empty |
| Sessions.SessionManager.GetOrCreateSession | src/agent/session_manager.rs:53-100 | the user's session, made if there was none, and nothing else changed |
| Sessions.SessionManager.GetUndoManager | src/agent/session_manager.rs:225-244 | the thread's manager, made if there was none and then shared with no other thread, and nothing else changed |
| Sessions.SessionManager.ResolveThread | src/agent/session_manager.rs:105-187 | result and all tables are those of the sequential meaning |
| Sessions.SessionManager.BindNewThread | src/agent/session_manager.rs:167-186 | a fresh thread, active in the session, bound to the key, with a fresh manager |
| Sessions.SessionManager.RegisterThread | src/agent/session_manager.rs:192-222 | binds the key without asking who has the thread, keeps an existing manager and an existing session |
| Migrations.ProcessStepOk | src/db/libsql_migrations.rs:170-289 | one step of a process keeps the recorded versions a prefix of the list and all earlier ones recorded |
| Migrations.StepKeepsInv | src/db/libsql_migrations.rs:170-289 | every step of every process, and every stop, keeps the account of recorded, executed and half-done migrations |
| Migrations.MigrationsAreCrashSafe | src/db/libsql_migrations.rs:170-289 | over every interleaving of runs, failures and crashes: recorded versions form a prefix; each migration but V12 took effect exactly when recorded and at most once; success means all are recorded |
| Migrations.ScriptRunsAccountedFor | src/db/libsql_migrations.rs:252-289 | the executions of V12 are exactly its record, the processes about to record it, and those stopped or refused in between |
| Migrations.TwoProcessesRunScriptTwice | src/db/libsql_migrations.rs:252-289 | two processes execute V12 twice with no failure at all |
| Migrations.RunIncremental | src/db/libsql_migrations.rs:170-250 | succeeds exactly when nothing fails, and then everything is recorded and exactly the missing versions were executed in list order; for every placement of faults it does what the account of one run says |
| Migrations.RunExactly | src/db/libsql_migrations.rs:170-289 | a run executes exactly the missing versions, in order, up to its first fault; everything before the fault is recorded, nothing after it touched, and what it hits is executed and recorded as far as the fault allows |
| Migrations.RunFollowsSteps | src/db/libsql_migrations.rs:170-289 | a run alone on the database is a path of the step machine, with an orphan exactly when it stops between V12's two statements |
| Migrations.ScriptRepeatsOnlyAfterStopBetween | src/db/libsql_migrations.rs:252-289 | over any sequence of runs V12 has executed once if recorded plus once per run that stopped in between |
| Undo.UndoManager.constructor | src/agent/undo.rs:61-67 | empty stacks and a limit of twenty |
| Undo.UndoManager.PushUndoStack | src/agent/undo.rs:77-82 | the newest checkpoints up to the limit, the redo stack untouched |
| Undo.UndoManager.Save | src/agent/undo.rs:87-98 | the new checkpoint is pushed and the redo stack emptied |
| Undo.UndoManager.UndoOnce | src/agent/undo.rs:108-127 | the state given moves to the redo stack under its turn number and the newest undo checkpoint comes back whole, or nothing changes |
| Undo.UndoManager.RedoOnce | src/agent/undo.rs:142-160 | the mirror image, through the trimming push |
| Undo.UndoManager.Restore | src/agent/undo.rs:206-220 | the first checkpoint with the id comes back and everything after it is gone, or nothing changes |
| Undo.UndoManager.Clear | src/agent/undo.rs:198-201 | both stacks empty, the limit unchanged |
| Undo.StacksRefineTimeline | src/agent/undo.rs:77-220 | each operation, with the caller adopting what it is given, does to the stacks what it should do to one timeline with a cursor, and keeps the joint bound |
| Undo.ReachableIsBounded | src/agent/undo.rs:45-160 | no run makes both stacks together exceed the limit, so `redo` never evicts |
| Undo.UndosThenRedos | src/agent/undo.rs:108-160 | k undos and k redos give back the conversation and everything before and after it |
| Undo.TimelineDetermines | src/agent/undo.rs:52-58 | timeline and cursor fix the conversation and both stacks up to ids and descriptions |
| Undo.RedoKeepsTotalExactly | src/agent/undo.rs:142-160 | `redo` keeps the total exactly when the undo stack is not full |
| Undo.RestoreShrinksTotal | src/agent/undo.rs:206-220 | a restore finds its checkpoint exactly when an id matches, and then leaves strictly fewer |
| Undo.RestoreFindsSaved | src/agent/undo.rs:87-220 | a checkpoint just saved is found by its id, whole, and restoring it leaves what was saved before it |
| Jobs.JobContext.constructor | src/context/state.rs:124-156 | a pending job with an empty log and no stamps |
| Jobs.EdgesIntoState | src/context/state/job_state.rs:29-56 | the edges seen from their targets, and a state is terminal exactly when no edge leaves it |
| Jobs.JobContext.TransitionTo | src/context/state.rs:165-207 | succeeds exactly on an allowed edge; then the entry is logged, the newest 200 are kept and the stamps are set by the kind of target; otherwise nothing changed |
| Jobs.JobContext.SetStateRollback | src/context/state.rs:211-248 | state, log and completion stamp after a rollback, which does nothing unless the last entry matches |
| Jobs.JobContext.StuckSince | src/context/state.rs:288-294 | the time of the newest log entry into the stuck state |
| Jobs.NewestIntoExactly | src/context/state.rs:234-294 | a search of the log gives the time of an entry after which there is no other of its kind, and nothing exactly when there is none |
| Jobs.JobContext.AttemptRecovery | src/context/state.rs:302-309 | recovers exactly a stuck job and counts the attempt; the invariant violation is never reported |
| Jobs.RunKeepsLog | src/context/state.rs:165-309 | over every run the log has at most 200 entries, each an allowed edge, linked, and ending in the current state |
| Jobs.StuckSinceExactly | src/context/state.rs:288-294 | a reachable stuck job says since when exactly when its log is not empty, and then it is the last entry's time |
| Jobs.StuckWithEmptyLog | src/context/state.rs:165-248 | a run that leaves a stuck job with an empty log |
| Jobs.MoveThenRollback | src/context/state.rs:165-248 | a rolled back move restores the state, and the log exactly when it had room; the completion stamp is recomputed from the log |
| Jobs.RollbackRestoresExactly | src/context/state.rs:165-248 | the whole job is restored exactly when the log had room, the move did not start the job, and the old stamp was the log's |
| Jobs.RollbackChangesExactly | src/context/state.rs:211-248 | a rollback changes something exactly when the last entry comes from the given state |
| Jobs.StampedWithoutRollback | src/context/state.rs:196-204 | without rollbacks a finished or submitted job carries a completion stamp |
| Jobs.SubmittedLosesStamp | src/context/state.rs:222-248 | rolling back to `Submitted` loses the stamp the job had |
| JobTable.StepKeepsInv | src/context/manager.rs:42-177 | every step of creating, updating and removing keeps the account of jobs, memories and operations half done |
| JobTable.JobsHaveMemories | src/context/manager.rs:42-177 | in every interleaving a job has its memory or its creation is on the way; at rest the memories are those of the jobs plus, disjoint from them, the ones an early removal missed |
| JobTable.NoLeftoverExactly | src/context/manager.rs:42-177 | at rest every memory belongs to a job exactly when no removal of a memory was taken before its creation had stored it |
| JobTable.EarlyRemovalLeavesMemory | src/context/manager.rs:56-177 | a run that ends with a memory and no job |
| JobTable.LimitExactly | src/context/manager.rs:42-88 | a step keeps the number of active jobs within the limit exactly when it is not a matching rollback of a finished job to an active state in a full table |
| JobTable.OnlyRollbackReactivates | src/context/state/job_state.rs:29-56 | an inactive job becomes active exactly by a matching rollback to an active state, never along an allowed edge |
| JobTable.ActiveJobsWithinLimit | src/context/manager.rs:42-88 | in every run without rollbacks active jobs stay within the limit |
| JobTable.RollbackExceedsLimit | src/context/manager.rs:79-88 | for every limit a run with a rollback that has one active job more |
| JobTable.ContextManager.constructor | src/context/manager.rs:23-29 | an empty table with the limit |
| JobTable.ContextManager.CreateJobForUser | src/context/manager.rs:42-66 | refused exactly when the active jobs have reached the limit, and then nothing changed; otherwise a pending job of the user and a memory under an id no job and no memory has |
| JobTable.ContextManager.RemoveJob | src/context/manager.rs:161-177 | an unknown id changes nothing; a known job is removed even when its memory is not found |
| CostGuard.CallCostIsNonNegative | src/agent/cost_guard.rs:191-210 | non-negative rates give a non-negative cost, with the saturating split of cached tokens and a zero discount read as one |
| CostGuard.CostOfOutput | src/agent/cost_guard.rs:207-210 | no usage costs nothing and one more output token adds the output rate |
| CostGuard.CostOfInput | src/agent/cost_guard.rs:196-207 | one more input token that is not cached adds the input rate |
| CostGuard.CostOfCacheRead | src/agent/cost_guard.rs:196-204 | reading an input token from the cache replaces its rate by the discounted one, and a discount of zero counts as none |
| CostGuard.CostOfCacheWrite | src/agent/cost_guard.rs:196-206 | writing an input token to the cache replaces its rate by the multiplied one |
| CostGuard.ExcessCacheIsFree | src/agent/cost_guard.rs:196-197 | cached tokens beyond the input make the rest of the input free and not negative |
| CostGuard.CentsAreTruncated | src/agent/cost_guard.rs:296-299 | whole cents are cut off and not rounded, and an amount below a cent or past u64 gives none |
| CostGuard.CostGuard.constructor | src/agent/cost_guard.rs:105-114 | nothing spent, no flag, an empty window |
| CostGuard.CostGuard.DrainWindow | src/agent/cost_guard.rs:147-156 | the loop drops the expired front of the window, and nothing in the clock's first hour |
| CostGuard.CostGuard.CheckAllowed | src/agent/cost_guard.rs:122-166 | denies the budget exactly when the flag was set or the cents reach the limit, the rate exactly when the drained window does, with the numbers reported |
| CostGuard.CostGuard.RecordLlmCall | src/agent/cost_guard.rs:180-264 | date, total, flag and window afterwards: a new date starts from zero with the flag cleared, the cost is added, the flag is set at the limit, the time is pushed |
| CostGuard.CostGuard.ActionsThisHour | src/agent/cost_guard.rs:278-287 | drains and counts |
| CostGuard.DrainGivesTrailing | src/agent/cost_guard.rs:147-163 | draining leaves exactly the actions of the trailing hour out of everything ever recorded |
| CostGuard.WindowCountIsExact | src/agent/cost_guard.rs:147-287 | in every interleaving, whatever was drained before, a drain counts all recorded actions of the trailing hour |
| CostGuard.HourlyOverrunIsBounded | src/agent/cost_guard.rs:118-252 | with at most k callers between check and record, actions of the trailing hour plus pending ones never exceed limit - 1 + k |
| CostGuard.HourlyOverrunIsAttained | src/agent/cost_guard.rs:118-252 | that bound is reached for every limit and every k |
| CostGuard.FlagOkExactly | src/agent/cost_guard.rs:212-246 | a set flag keeps implying a spent budget exactly when a charge does not take the cents past u64 on a spent day |
| CostGuard.OverflowForgetsSpending | src/agent/cost_guard.rs:296-299 | a charge that breaks it |
| CostGuard.FlagDeniesOnlyOverBudget | src/agent/cost_guard.rs:122-144 | in every run without such a charge the fast path denies only what the comparison would |
| CostGuard.OnlyNewDayChargeClearsFlag | src/agent/cost_guard.rs:212-246 | a step clears the flag exactly when it is a charge dated differently and itself below the limit |
| CostGuard.DenialIsPermanent | src/agent/cost_guard.rs:122-275 | once the budget is spent and calls in flight are through, every later run stays denied, also on later dates, when `daily_spend` reports zero |
| CostGuard.TotalIsSumOfDay | src/agent/cost_guard.rs:212-230 | the counter is the sum of the charges made since the date last changed |
| CostGuard.DailySpendIsSum | src/agent/cost_guard.rs:267-275 | in every run the reported spend is the sum of the charges of the current date, and zero on any other |
| AgenticLoop.RunAgenticLoop | src/agent/agentic_loop.rs:278-357 | outcome and context are those of the iterations; the model is asked once per iteration up to the end, at most `max_iterations` times; `after_iteration` runs once per completed iteration in order |
| AgenticLoop.IterationFollowsCallbacks | src/agent/agentic_loop.rs:286-353 | for a stop, an early outcome, a failed call, a text and tool calls: which callback ends the iteration and how, whose context is left, and when the counter restarts |
| AgenticLoop.RunEndsWithFirstDecision | src/agent/agentic_loop.rs:286-357 | the run ends with the first outcome any callback gives, each asked with what the iteration before left, and runs out exactly when none gives one |
| AgenticLoop.RunShape | src/agent/agentic_loop.rs:286-357 | every iteration but the last is completed, and the loop runs out only after completing all of them |
| AgenticLoop.NudgesAreBounded | src/agent/agentic_loop.rs:261-331 | any stretch without a tool call or a text that announces none has at most `max_tool_intent_nudges` nudges |
| AgenticLoop.NudgeAppendsReplyThenNudge | src/agent/agentic_loop.rs:261-327 | an iteration nudges exactly when nothing ends it before the model's call, the reply announces a tool call, nudging is on and below its limit, and tools are on offer; it then leaves the delegate's context plus exactly that reply and the nudge |
| Conversation.ConversationMemory.constructor | src/context/memory.rs:106-111 | no messages, the given limit |
| Conversation.ConversationMemory.Add | src/context/memory.rs:114-130 | the trim loop terminates and leaves the trimmed history |
| Conversation.StoredIsKept | src/context/memory.rs:104-130 | for every history and every limit, zero too: what is stored is the newest messages, or the first system message ever added and the newest ones behind it |
| Conversation.LimitExactly | src/context/memory.rs:114-130 | the limit holds exactly when it is positive or no system message was ever added |
| Conversation.HeadStays | src/context/memory.rs:114-130 | a system message at the head stays there for ever |
| Utf8.BoundaryIsNotTail | src/tracing_fmt.rs:107-120 | in text well-formed by section 4 of RFC 3629 the character boundaries are the positions not held by a continuation byte |
| Utf8.EncodedTextIsValid | src/tracing_fmt.rs:107-120 | every sequence of characters encoded by section 3 of RFC 3629 is well-formed by section 4, so the results below cover all text |
| Utf8.FloorFacts | src/util.rs:3-17 | the largest boundary at or below a limit is unique, loses at most three bytes, and cuts off well-formed text |
| Utf8.Utf8FloorBytes | src/tracing_fmt.rs:112-120 | walking back over continuation bytes finds that boundary |
| Utf8.FloorCharBoundary | src/util.rs:8-17 | so does the string version, for every position |
| Utf8.ExtractionCutIsFloor | src/document_extraction/mod.rs:103-112 | so does the last character start at or below the limit |
| Utf8.FlushEvent | src/tracing_fmt.rs:122-173 | a short event is unchanged; a long one is cut at that boundary, less a newline there, and the total is noted; well-formed text stays well-formed |
| Utf8.SuffixTellsTotal | src/tracing_fmt.rs:133 | the noted total is the decimal of the byte count and reads back as it |
| EnvFile.EscapedIsOnePass | src/bootstrap/migration.rs:122-124 | the two chained replaces escape each character once |
| EnvFile.EscapeRoundTrip | src/bootstrap.rs:148-160 | whatever the value, reading up to the first unescaped quote gives it back and stops at the quote that was written |
| EnvFile.AppendEntries | src/bootstrap.rs:157-162 | one line per variable, in order, after what was there |
| EnvFile.SaveBootstrapEnv | src/bootstrap.rs:152-166 | the new file is exactly those lines |
| EnvFile.SaveRoundTrip | src/bootstrap.rs:148-166 | a saved file reads back as the variables saved, in order, exactly when no key has an equals sign; values may hold anything |
| EnvFile.UpsertBootstrapVars | src/bootstrap.rs:178-218 | the loops, the same in the migration's copy, give the lines no key names and then the entries |
| EnvFile.UpsertedLines | src/bootstrap/migration.rs:134-166 | read as lines, the new file is the untouched old lines in order, each less one trailing carriage return, and then the entries |
| EnvFile.SpacesListed | src/bootstrap.rs:200 | what counts as white space is the twenty-five characters of the Unicode property White_Space, one by one |
| EnvFile.TrimExactly | src/bootstrap.rs:200 | trimming a key takes away white space at both ends and all of it |
| EnvFile.SpacedKeyIsReplaced | src/bootstrap.rs:196-207 | a line is replaced exactly when its key is written, however much white space is around it |
| EnvFile.LastLineIsWhole | src/bootstrap.rs:196 | a last line without a newline is kept whole |
| EnvFile.UpsertKeepsOtherLines | src/bootstrap.rs:168-218 | every line the keys do not name is kept in order, for all variables |
| EnvFile.UpsertForgetsOldValues | src/bootstrap.rs:168-218 | for all texts and variables: what the new file says about a written key depends on the variables alone |
| EnvFile.UpsertWritesEachKeyOnce | src/bootstrap.rs:168-218 | each written key ends up with one line per variable that names it, in order, however many it had |
| EnvFile.UpsertIdempotentExactly | src/bootstrap.rs:178-218 | for all texts and variables: a second upsert changes nothing exactly when no untouched line ends in a carriage return and every line written is one the keys name |
| EnvFile.CleanLeavesNothing | src/bootstrap.rs:209-213 | trimmed keys without `=` and no newlines meet the second condition |
| EnvFile.DoubleCrIsNotKept | src/bootstrap.rs:195-207 | a comment before two carriage returns loses one each time |
| EnvFile.NewlineValueIsNotReplaced | src/bootstrap.rs:195-213 | a value with a newline leaves its second line behind |
| EnvFile.PlaceLine | src/bootstrap.rs:246-265 | the loop with the `found` flag puts the line in place of the first old one and drops the others |
| EnvFile.UpsertBootstrapVar | src/bootstrap.rs:231-270 | the single upsert of a key and a value on the file's text |
| EnvFile.UpsertOneKeepsOtherLines | src/bootstrap.rs:220-270 | for all texts, keys and values: the other lines stay in order, and what the file says about the key is the entry alone |
| EnvFile.UpsertOneWritesOnceExactly | src/bootstrap.rs:220-270 | exactly one line starts with the key afterwards, and it is the new one, exactly when key and value have no newline |
| EnvFile.UpsertOneIdempotentExactly | src/bootstrap.rs:231-270 | for all texts, keys and values: the single form is idempotent exactly when no line it keeps ends in a carriage return and every line written is one the key names |
| EnvFile.FormsAgreeExactly | src/bootstrap.rs:198-260 | the two forms keep the same other lines exactly when no line has white space around the key |
| PidLock.StepKeepsInv | src/bootstrap/pid_lock.rs:52-90 | every step of every process keeps one holder per file |
| PidLock.HoldersHaveDistinctFiles | src/bootstrap/pid_lock.rs:52-90 | in every run two holders have different files, so at most one has the file the path names |
| PidLock.StaleGrantExactly | src/bootstrap/pid_lock.rs:61-90 | all granted locks stay on the file the path names exactly when a step is not a grant on a file it no longer names |
| PidLock.RemovedUnderOpenExactly | src/bootstrap/pid_lock.rs:61-90 | all files opened and not yet locked stay the one the path names exactly when a step does not remove the path under them |
| PidLock.OneInstanceRuns | src/bootstrap/pid_lock.rs:12-18 | in every run without such a removal at most one instance runs |
| PidLock.RemovalLosesSingle | src/bootstrap/pid_lock.rs:61-90 | in every reachable state such a removal makes two instances possible, with no further removal of that kind |
| PidLock.OneInstanceExactly | src/bootstrap/pid_lock.rs:52-90 | a run is safe at every moment and in all continuations without further such removals exactly when it has none itself |
| PidLock.TwoInstances | src/bootstrap/pid_lock.rs:41-90 | from every start a state with two instances is reachable |
| PidLock.AttemptExactly | src/bootstrap/pid_lock.rs:52-83 | an uninterrupted attempt succeeds exactly when the file it opens is not locked, and otherwise leaves everything as it was |
| PidLock.StoppedHolderIsReplaced | src/bootstrap/pid_lock.rs:43-46 | when a holder stops without removing the file the next attempt gets the lock |
| PidLock.LockIsGivenBack | src/bootstrap/pid_lock.rs:68-90 | closing, a failed attempt and a stop give the lock back, and the next attempt on that file gets it |
| PidLock.ShutdownThenStart | src/bootstrap/pid_lock.rs:52-90 | after a shutdown the next attempt gets a new file, or the old one if the removal failed |
| Learner.EstimationLearner.constructor | src/estimation/learner.rs:47-53 | no models, alpha 0.1, five samples needed |
| Learner.EstimationLearner.RecordSample | src/estimation/learner.rs:56-95 | the category's model, made if there was none, takes the sample in; the others are unchanged |
| Learner.EstimationLearner.ChangeAlpha | src/estimation/learner.rs:136-138 | alpha is clamped between 0.01 and 0.5 |
| Learner.CostFactorInHull | src/estimation/learner.rs:56-95 | over every run of samples, alpha changes and clears a category's cost factor lies in any interval that holds 1 and its own cost ratios |
| Learner.TimeFactorInHull | src/estimation/learner.rs:56-95 | and its time factor in any that holds 1 and its own time ratios |
| Learner.AdjustmentIsSafe | src/estimation/learner.rs:98-123 | an adjusted time is never negative; confidence lies between 0.2 and 1 and reaches one half exactly when there are enough samples |
| Learner.RatioScalesEstimate | src/estimation/learner.rs:68-81 | the ratio is what the estimate has to be multiplied with to give the actual, and 1 without an estimate |
| Learner.SteadyCost | src/estimation/learner.rs:56-95 | while alpha stays and all samples of a category have one cost ratio, n of them leave (1 - alpha)^n of the factor's distance to it and of the error rate's distance to its error, whatever the samples are and whatever other categories record |
| Learner.SteadyTime | src/estimation/learner.rs:56-95 | the same of the time factor, its error rate and one time ratio |
| Learner.SamplesAreCounted | src/estimation/learner.rs:64-65 | a model counts its category's records and exists once there is one |
| Learner.AdjustFollowsRatio | src/estimation/learner.rs:98-109 | an estimate is left alone until there are enough samples, and after n samples of one ratio is multiplied by that ratio less what is left of the distance from 1 |
| Learner.ConfidenceExactly | src/estimation/learner.rs:112-123 | with enough samples: full exactly with a hundred of them and no error, 0.003 per sample, and a tenth of both errors taken away |
| Learner.SettingsTakeEffect | src/estimation/learner.rs:136-148 | clearing forgets every category and a new minimum decides at once which are known |

## Left out

- Configuration, command line, boot screen, channels, web server, database connections and the
  forwarders: lookups, wiring and plumbing.
- Scheduler, routine engine, thread operations, compaction and pairing.
- File reading, writing and permissions, and the `dotenvy` parser: files are text, and the
  decoder is the inverse of the escaping that is written. A missing file is the empty text.
- The bodies of the SQL migrations and V16's column inspection: each is one effect. A recorded
  version under another name, which makes V16 fail, is covered only as a stop.
- Floating-point and decimal rounding: real arithmetic. The u64 bound on cents is kept.
- Clocks, dates and random ids are parameters; fresh ids come from a counter.
- Logging, warnings, hooks and the text of error messages, and the PID reported by a refused
  lock attempt.
- Which sessions a prune picks: it may remove any set of users, then their mappings, then any
  set of undo managers. `last_active_at` is not modelled.
- Job titles, costs, token counters and their width, the job summaries and list queries, and
  the token counts per model.
- `last_n` and `clear` of the conversation memory, the action records beside it, and
  `truncate_for_preview`, which is `floor_char_boundary` and three dots.
- Tool call arguments and message parts beyond role and text; the recogniser of announced tool
  calls and the text of the nudge are parameters.
- UpsertWritesEachKeyOnce: for trimmed keys without `=`, and no newlines, as the known keys are;
  `UpsertForgetsOldValues`, `UpsertKeepsOtherLines` and `UpsertIdempotentExactly` have no such
  condition.
- DenialIsPermanent: every recorded call follows a passed check, as it does in the agent's
  delegates; the bound on the hourly rate assumes this too.
- PidLock: locks inherited by child processes and other programs that touch the file.
