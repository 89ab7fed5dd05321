# GraphHelm tooling, modelled and proved

This project models the decision-making core of the GraphHelm repository's tools in Dafny and proves what those
tools are trusted for: a test scheduler that loses no step and never calls a red run passed, a result cache that only
vouches for real clean executions, a Rust lexer, evidence keys, token accounting over untrusted logs, four
crash-safe protocols, test selection, version precedence, a bootstrap verdict and brace expansion.

Everything outside the tools (child processes, git, HTTP, clocks, memory readings, file contents) is a parameter
that may take any value, so every result holds for all answers of the environment. `dafny verify dfyconfig.toml`
checks the whole project.

| module | models |
|---|---|
| `Lists` | Python list operations shared by the others |
| `BatchReply`, `ReachedPlan`, `ReachedRun`, `ReachedSession`, `ReachedReuse` | the reached-test orchestrator: reply validation, plan and order, the work loop, verdict and shared report file, reuse of a passed run |
| `ParallelRun` | the bounded side-by-side runner |
| `RustLexer`, `EvidenceKey` | comment and literal removal; include closure, evidence key and reuse decision |
| `TokenUsage`, `ThreadForest`, `CodexTree`, `ClaudeTree` | token accounting over native session logs |
| `AdoptionJournal` | the adoption journal and its active pointer |
| `Nightly`, `NightlyRisk`, `NightlyProgress` | the nightly run: lock, receipts, re-executed child, last-green; exactly when its chain can break; the lock comes free |
| `FrozenAttempts`, `FrozenProgress` | attempts in a frozen order: reservations, receipts, provider stop; what a cohort can get done |
| `TaskRecord`, `TaskHistory` | the idempotent retry client and the history paging loop |
| `TestSelection` | bundle steps, dependency closures, grouping of selections |
| `SemVer`, `ReleaseGroup` | version precedence; release check and release writer |
| `PairedInference` | the paired bootstrap verdict and the Pareto frontier |
| `BraceExpansion` | innermost-first brace expansion |

## How the modules are built

- Sequential code that updates variables in a loop is a `method` with the loop, proved against a specification that
  does not mention the loop. Objects with fields (the report file, the journal store and record, the Runtime) are
  classes.
- The two protocols with interleaved processes (`Nightly`, `FrozenAttempts`) are state machines: `Step` is one atomic
  file operation of one process, `Run` a whole history, and a crash is an action that may come between any two steps.
- SHA-256 digests are taken to be injective, so a digest is represented by what it is taken of;
  `TaskRecord.KeyTextsAgree` relates that to the key text that is sent. Floating-point numbers are `real`.

## Where the code differs from what its comments say

- `main_whole_run.py:394` computes `"passed" if report passed and returncode == 0 else report status`. When the report
  says passed and the return code is not 0, the second branch yields `passed` as well, so the return code has no
  influence. The model follows the code: `Nightly.GreenDespiteReturncode` proves that last-green moves whatever the
  code, and `Nightly.TimeoutTurnsGreen` reaches a state where a timed-out run has moved it.
- The chain of green ranges does not survive a parent that dies before its re-executed child:
  `Nightly.OrphanBreaksTheChain` reaches such a state, `Nightly.GreenRangesLeaveNoGap` proves the chain for every
  history without one, and `NightlyRisk.BreaksExactly` says of every reachable state whether its chain can still
  break: exactly if a live child is waited for by nobody, or a live process holds a baseline that was overtaken.
- `sync_with_hook` publishes the snapshot before it reads it back, so a record that `read` refuses can replace the
  readable snapshot of the active transaction. `AdoptionJournal.Store.Sync` states for every interruption exactly when
  the active transaction stays readable, and `AdoptionJournal.VerifiedSyncHidesActive` exhibits one that does not.
- The release writer only looks at the first base manifest. After a write the release check passes exactly for groups
  whose base manifests agree (`ReleaseGroup.WriteThenCheck`; `ReleaseGroup.SplitBaseIsRefused` is a split group).
- A bundle module whose name begins with a dash would be read by libtest as an option. Rust has no such module names;
  `TestSelection.PartitionExactly` states exactly when the steps still partition the tests.

## Model

| member | source | states |
|---|---|---|
| `BatchReply.Validate` | tools/reached-tests/run_reached.py:576-611 | a slot reply is accepted if and only if its children are the first commands in order, the remaining list is exactly the rest, and stop reason, return code and exit codes fit; an accepted reply has a failing code only as the last child of a child failure |
| `ReachedPlan.ExecutionOrderIsPermutation` | tools/reached-tests/run_reached.py:293-301 | the execution order is a permutation of the plan's indices |
| `ReachedPlan.FormatChecksRunFirst` | tools/reached-tests/run_reached.py:293-301 | in batch mode no batchable step comes before a format check |
| `ReachedPlan.GroupSize` | tools/reached-tests/run_reached.py:1295-1299 | a slot call takes from the front as many batchable entries of one directory as stand there, at most four, and any other entry alone |
| `ReachedPlan.CommandsExactly` | tools/reached-tests/run_reached.py:249-290 | the two tests on commands recognise exactly a pinned cargo command, its formatting check, and a vitest command in the Studio |
| `ReachedPlan.KeyIsTheWork` | tools/reached-tests/run_reached.py:1035-1037 | two steps share a proof key if and only if tree, tools, environment, command, directory and slot agree |
| `ReachedRun.ParallelLimit` | tools/reached-tests/run_reached.py:384-389 | the largest number of executables from one to four that free memory covers above the reserve at 3 GB each; one when it covers none or is unknown |
| `ReachedRun.SingleVerdict` | tools/reached-tests/run_reached.py:1523-1541 | an entry the loop walks past without recording a red is clean |
| `ReachedRun.SingleExactly` | tools/reached-tests/run_reached.py:1498-1541 | what was observed of a step run alone decides, outcome by outcome, whether the loop goes on, is red, or stops and with which status |
| `ReachedRun.SideExactly` | tools/reached-tests/run_reached.py:1330-1341 | a member of a batch is built for later if and only if it can be split, memory covers two executables at once and it will have company |
| `ReachedRun.BuiltWaitForTheBatch` | tools/reached-tests/run_reached.py:1426-1447 | after an accepted reply everything built runs side by side, unless the batch stopped at a lease boundary with members left |
| `ReachedRun.BatchExactly` | tools/reached-tests/run_reached.py:1398-1489 | the answers and codes of a batch decide, outcome by outcome, whether the loop goes on, is red, or stops and with which status, and what stands in front of the queue |
| `ReachedRun.TurnWithoutResult` | tools/reached-tests/run_reached.py:1290-1406 | out of budget, not started and unaccepted end a turn with the status each calls for, and nothing recorded but a timeout |
| `ReachedRun.RecordKeeps` | tools/reached-tests/run_reached.py:1499-1522 | moving an index from pending to completed keeps conservation, keys and ownership |
| `ReachedRun.PutBackKeeps` | tools/reached-tests/run_reached.py:1305-1315 | putting reused results back when a Studio preparation appears late keeps conservation, makes exactly the reused indices pending again, and drops every key |
| `ReachedRun.Children` | tools/reached-tests/run_reached.py:1407-1425 | exactly the built positions that exited 0 are deferred, and every other position gets an entry with its own step and code |
| `ReachedRun.ChildrenKeep` | tools/reached-tests/run_reached.py:1407-1425 | after any number of children, the deferred, the rest of the group and the pending list still account for each index once |
| `ReachedRun.ChildrenReport` | tools/reached-tests/run_reached.py:1407-1425 | every entry added for a batch names a child of the group and carries that child's own exit code |
| `ReachedRun.ChildrenWeight` | tools/reached-tests/run_reached.py:1407-1425 | deferring spends one unit of a step's weight and recording at least one |
| `ReachedRun.RunBuilt` | tools/reached-tests/run_reached.py:1445-1448 | a step run side by side has code 0 if and only if every executable of it spawned and exited 0 |
| `ReachedRun.LocateKeeps` | tools/reached-tests/run_reached.py:1426-1442 | builds whose executables are named wait, the others queue again as serial; nothing is lost and the measure does not rise |
| `ReachedRun.FlushRecords` | tools/reached-tests/run_reached.py:1443-1471 | after the built executables ran side by side, whether the loop goes on or breaks, every index is accounted for once and none of the built ones is pending |
| `ReachedRun.SettleKeeps` | tools/reached-tests/run_reached.py:1472-1489 | unfinished members of a group go back to the front and every invariant holds |
| `ReachedRun.TurnKeeps` | tools/reached-tests/run_reached.py:1290-1541 | whatever the environment answers, a turn keeps conservation, ownership, keys and the red mark, and stops or lowers the measure |
| `ReachedRun.TurnWitnesses` | tools/reached-tests/run_reached.py:1290-1541 | every entry a turn adds, passing or failing, says what the turn observed of that very step: out of budget; alone, with the observed return code, tests, observer, evidence and error; as its own child of an accepted reply with that exit code; or side by side with code 0 exactly when all its executables spawned and exited 0 |
| `ReachedRun.FailureShows` | tools/reached-tests/run_reached.py:1290-1541 | a turn answered with any failure leaves a red or stops the loop |
| `ReachedRun.TurnStays` | tools/reached-tests/run_reached.py:1305-1541 | no turn takes out what ran, and a step without an observer leaves an entry that says so |
| `ReachedRun.Iterate` | tools/reached-tests/run_reached.py:1290-1541 | one turn of the work loop is exactly the turn its answers determine, the codes of what ran side by side being those of the parallel runner; each index stays in exactly one place, keys fit, no red is recorded silently, and the weighted measure falls when the loop continues |
| `ReachedSession.EachIndexOnce` | tools/reached-tests/run_reached.py:1284-1546 | a planned index is in exactly one of pending, completed and skipped, once |
| `ReachedSession.CompletesAtMostOnce` | tools/reached-tests/run_reached.py:1284-1546 | no index completes twice |
| `ReachedSession.WorkLoop` | tools/reached-tests/run_reached.py:1284-1546 | for every sequence of answers the loop terminates and every turn is the one its answers determine; when work runs out no built executable is left unrun and only put-back indices are pending |
| `ReachedSession.EntriesWitnessed` | tools/reached-tests/run_reached.py:1284-1546 | every entry at the end of a run, passing or failing, was there at its start or carries what one of the turns reported for its step |
| `ReachedSession.SideBySideAllGood` | tools/reached-tests/run_reached.py:1443-1471 | passed implies that every executable of every step run side by side, in whatever turn, spawned and exited 0 |
| `ReachedSession.FailureIsNeverPassed` | tools/reached-tests/run_reached.py:1284-1574 | a run is never passed once any of its turns was answered with a failure: a failing code, no test run, bad evidence, an unacceptable reply, a failing child or executable, a timeout, or no observer |
| `ReachedSession.PassedIsExecuted` | tools/reached-tests/run_reached.py:1284-1579 | in a passed run every entry that was not reused goes back to a turn that executed that very step well, in terms of the answers alone |
| `ReachedSession.LostIsNeverPassed` | tools/reached-tests/run_reached.py:1301-1315 | a run that met a late Studio preparation, or began with an identity incomplete beyond its cleanup, is never passed |
| `ReachedSession.CleanRepliesPass` | tools/reached-tests/run_reached.py:1284-1574 | a run that is never answered with a failure, in time and with nothing skipped, concludes passed, batches cut at lease boundaries included |
| `ReachedSession.SomeRunPasses` | tools/reached-tests/run_reached.py:1284-1546 | from every startable state there is such a run |
| `ReachedSession.WorkIsPending` | tools/reached-tests/run_reached.py:1283-1284 | the initial queue holds every pending index exactly once |
| `ReachedSession.ReuseAll` | tools/reached-tests/run_reached.py:1265-1275 | exactly the pending steps whose key the previous report vouches for are completed as reused |
| `ReachedSession.Prepare` | tools/reached-tests/run_reached.py:1226-1287 | skips, reuse and queue leave a state the loop may start from: nothing red or returned, identity and cleanup as given, the queue and skips those of the plan, and only vouched entries completed |
| `ReachedSession.PassedExactly` | tools/reached-tests/run_reached.py:1542-1574 | a run is passed if and only if the loop drained unblocked with nothing red, pending, skipped or unobserved, identity complete or only its cleanup failed, HEAD and worktree unchanged and the budget kept |
| `ReachedSession.PassedIsSound` | tools/reached-tests/run_reached.py:1498-1579 | passed implies that every planned step has exactly one entry with return code 0 and no error, zero-test or unobserved mark |
| `ReachedSession.RedIsNeverPassed` | tools/reached-tests/run_reached.py:1528-1548 | a red recorded in any turn under keep-going ends failed or incomplete, whatever the later turns answer |
| `ReachedSession.ReportKeepsResults` | tools/reached-tests/run_reached.py:1549-1579 | the verdict and the reusable marks change no result of the loop |
| `ReachedSession.ReuseIsVouched` | tools/reached-tests/run_reached.py:1253-1276 | a reused entry has an earlier run over the same tree, tools and environment in which the same command in the same directory was executed well, and which ended unchanged and clean |
| `ReachedSession.MarkedIsVouched` | tools/reached-tests/run_reached.py:1575-1579 | every entry a later run may reuse, itself reused or not, goes back to such a witnessed execution |
| `ReachedSession.MarksAreExact` | tools/reached-tests/run_reached.py:1575-1579 | of a run that was not cut short exactly the passes are offered, and only if HEAD and tree did not change, the identity is complete and every entry has its key |
| `ReachedSession.AcceptsExactly` | tools/reached-tests/run_reached.py:1053-1062 | an entry is accepted if and only if it is a marked, keyed pass, with vitest evidence that some tests passed and none failed where it is a vitest step |
| `ReachedSession.FreshIsWitnessed` | tools/reached-tests/run_reached.py:1290-1579 | every entry of a report that is not reused, passing or failing, carries what a turn of its run reported for its step |
| `ReachedSession.ReportFile.ReusableResults` | tools/reached-tests/run_reached.py:1040-1063 | exactly the marked, keyed, error-free entries (for vitest with passing evidence) are offered, by key |
| `ReachedSession.ReportFile.Run` | tools/reached-tests/run_reached.py:1150-1583 | over any number of runs sharing one report file: the run added to the history has exactly the given plan, identity, cleanup and answers; the report is what that run concludes and accounts for every step once; each reused step was executed well before, as the same command on the same tree with the same tools and environment; with incomplete identity or a late preparation nothing is offered; the file stays sound; and passed means that every step was reused or executed well and no turn failed |
| `ReachedReuse.PassedOffersAll` | tools/reached-tests/run_reached.py:1040-1063 | a run that began with a complete identity, met no late preparation and passed offers every step of its plan |
| `ReachedReuse.VouchedRunsNothing` | tools/reached-tests/run_reached.py:1265-1287 | with every step vouched for and nothing skipped a run executes nothing and is passed on an unchanged, clean tree |
| `ReachedReuse.RunTwice` | tools/reached-tests/run_reached.py:1150-1583 | of two runs in a row with one plan, if the first passed with a complete identity the second executes nothing, reuses every step, and is passed too |
| `ReachedSession.IdentityStaysLost` | tools/reached-tests/run_reached.py:1290-1546 | identity that is incomplete before some turn of a run, or lost in it to a late preparation, is incomplete when the run ends |
| `ReachedSession.IncompleteOffersNothing` | tools/reached-tests/run_reached.py:1549-1579 | a run that started with incomplete identity, or met a late Studio preparation in some turn, leaves no reusable entry, and none with a key unless an exception cut it short |
| `ParallelRun.StartLoop` | tools/reached-tests/run_reached.py:529-553 | filling stops exactly where the fates and readings say, and only because nothing is left, the limit is reached or a reading is too low; if nothing runs afterwards nothing is left to start |
| `ParallelRun.StartPhaseKept` | tools/reached-tests/run_reached.py:529-553 | filling keeps the attempts in order and within the limits, and stops for one of the three reasons only |
| `ParallelRun.PollAll` | tools/reached-tests/run_reached.py:554-573 | polling removes exactly the ended processes, keeps exactly the others, settles the jobs' codes, and every process loses a poll |
| `ParallelRun.RunParallel` | tools/reached-tests/run_reached.py:516-573 | for every list of executables, fates and readings the run ends; it is a sequence of rounds each determined by the one before, and a job ends with 0 if and only if all its executables spawned and exited 0 |
| `ParallelRun.NeverTooManyNeverStalled` | tools/reached-tests/run_reached.py:529-573 | in every round of every run at most the limit of processes run, and while executables are left something runs |
| `ParallelRun.EachOnceWithinLimits` | tools/reached-tests/run_reached.py:516-573 | a finished run has attempted every executable exactly once, in order, below the limit, and beside a running one only after its own memory reading of at least the reserve and 3 GB |
| `ParallelRun.CodesExactly` | tools/reached-tests/run_reached.py:554-573 | after every finished run a job has code 0 if and only if all its executables spawned and exited 0 |
| `ParallelRun.FirstFailureStays` | tools/reached-tests/run_reached.py:546-567 | a job's first failing code stays to the end of the run and is the exit code of one of its own executables, or 1 for a failed spawn |
| `RustLexer.BlockCommentExactly` | tools/keel-effect/evidence_key.py:226-237 | the depth counter accepts exactly the renderings of balanced nested comments |
| `RustLexer.StringEndExactly` | tools/keel-effect/evidence_key.py:244-256 | a string ends exactly at its first unescaped quote |
| `RustLexer.RegionsCoverText` | tools/keel-effect/evidence_key.py:215-276 | the regions are consecutive and concatenate to the input |
| `RustLexer.RegionsWellFormed` | tools/keel-effect/evidence_key.py:215-276 | every comment, literal and lifetime region has the form its kind demands; a character literal is one character or an escape up to the first later quote |
| `RustLexer.OutputHasNoComment` | tools/keel-effect/evidence_key.py:215-276 | the output contains neither a line comment opener nor a block comment opener |
| `RustLexer.UnlexableExactly` | tools/keel-effect/evidence_key.py:223-273 | the lexer gives up at a position if and only if an opener stands there that no prefix of the rest closes |
| `RustLexer.RefusedExactly` | tools/keel-effect/evidence_key.py:215-276 | a text is refused if and only if its regions lead to such an opener |
| `RustLexer.RefusedByRegions` | tools/keel-effect/evidence_key.py:215-276 | a refused text is cut into well-formed regions up to that opener |
| `RustLexer.CloseComment` | tools/keel-effect/evidence_key.py:227-236 | the loop over a block comment computes the nesting scan |
| `RustLexer.CloseString` | tools/keel-effect/evidence_key.py:245-255 | the loop over a string computes its end or finds none |
| `RustLexer.StripNoise` | tools/keel-effect/evidence_key.py:215-276 | the text is cut into the tokens that stand one after another, and refused if and only if they lead to a position where none stands, equivalently to an opener that nothing closes; otherwise the output is exactly what they leave: nothing of a line comment, a space of a block comment, an empty literal of any literal, lifetimes and code as they are; and it opens no comment |
| `RustLexer.NextExactly` | tools/keel-effect/evidence_key.py:215-276 | at every position at most one token stands, by the form of its text and by what opens there, and the lexer finds exactly it |
| `RustLexer.StrippedOnce` | tools/keel-effect/evidence_key.py:215-276 | a text leaves at most one stripped text |
| `EvidenceKey.ClosureBlobs` | tools/keel-effect/evidence_key.py:153-174 | the result is the least map that holds the start and follows its own includes; unknown is exactly every opaque site and every include absent from the revision, and empty if and only if the map is closed under literal includes; the scan gives up only when every such map has more than 5000 Rust sources |
| `EvidenceKey.PathsExactly` | tools/keel-effect/evidence_key.py:153-174 | the tests on paths recognise exactly Rust sources and what lies at or below a path |
| `EvidenceKey.EncodeInjective` | tools/keel-effect/evidence_key.py:177-181 | the path NUL blob LF encoding is injective |
| `EvidenceKey.KeyIsTheMap` | tools/keel-effect/evidence_key.py:177-181 | two closures have equal keys if and only if they are the same map |
| `EvidenceKey.DecideExactly` | tools/keel-effect/evidence_key.py:347-362 | reuse if and only if the maps are equal and nothing is unknown; an invalidation names exactly the paths that are new, gone or different, or exactly the unknown ones |
| `ThreadForest.CheckSpawns` | tools/token-bench/native_session_evidence.py:224-227 | the check passes if and only if the children's agent paths are the spawned names as a multiset |
| `ThreadForest.Visit` | tools/token-bench/native_session_evidence.py:220-229 | a successful visit covers exactly threads below its start with matching spawns, and a visit of an acyclic matching subtree succeeds and covers all of it |
| `ThreadForest.VisitAll` | tools/token-bench/native_session_evidence.py:218-233 | the visit reaches every thread if and only if the parent links form one tree rooted at the given thread and all spawns match |
| `CodexTree.ReadTotals` | tools/token-bench/native_session_evidence.py:185-193 | cumulative counters are accepted if and only if all parse, there is one, and they never move backwards |
| `CodexTree.ReadTurns` | tools/token-bench/native_session_evidence.py:162-184 | accepted if and only if every turn starts once, completes once after its own counters, and all started turns completed |
| `CodexTree.ReadLog` | tools/token-bench/native_session_evidence.py:138-213 | one log is accepted if and only if it is a finished thread; its counter is the last one and the component-wise maximum |
| `CodexTree.OwnRowsExactly` | tools/token-bench/native_session_evidence.py:152-164 | the thread's own rows are everything without a second header, and otherwise what follows the one place where its own settings were applied |
| `CodexTree.ReadLogs` | tools/token-bench/native_session_evidence.py:138-213 | all logs are read unless one is unacceptable or a thread id repeats |
| `CodexTree.CodexTotal` | tools/token-bench/native_session_evidence.py:129-237 | observed if and only if the logs are finished threads that form one tree from the root, match their spawns and agree with stdout; and then each of the four counters of the total is the plain sum of that counter over all threads |
| `TokenUsage.SumAddsUp` | tools/token-bench/native_session_evidence.py:121-122 | a total adds up counter by counter if and only if it is the component-wise sum |
| `ClaudeTree.ReadBackground` | tools/token-bench/native_session_evidence.py:391-402 | background starts and completions are tabled if and only if none repeats |
| `ClaudeTree.Link` | tools/token-bench/native_session_evidence.py:403-439 | the linkage loop succeeds if and only if every event fits what came before, and tables exactly what was seen |
| `ClaudeTree.EventsExactly` | tools/token-bench/native_session_evidence.py:403-439 | the events of the linkage loop are exactly those of the rows |
| `ClaudeTree.FinishedExactly` | tools/token-bench/native_session_evidence.py:414-434 | a result is final if and only if the agent completed at once or one background run of it was started and completed |
| `ClaudeTree.LinkedIsBijective` | tools/token-bench/native_session_evidence.py:440-441 | equal tables and equal sizes make calls, answers and child identities a bijection |
| `ClaudeTree.BijectiveIsLinked` | tools/token-bench/native_session_evidence.py:403-441 | any bijective linkage passes the comparisons and is the one found |
| `ClaudeTree.LinkAgents` | tools/token-bench/native_session_evidence.py:386-441 | the one bijection of calls and child identities is returned if and only if there is one |
| `ClaudeTree.CollectIsCollected` | tools/token-bench/native_session_evidence.py:454-465 | each distinct message id of a transcript is counted once, with its latest counters |
| `ClaudeTree.ReadChildren` | tools/token-bench/native_session_evidence.py:445-471 | transcripts are accepted if and only if they are one complete own transcript for each expected child |
| `ClaudeTree.ClaudeTotal` | tools/token-bench/native_session_evidence.py:368-487 | observed if and only if the session succeeded under one cumulative pipeline, the linkage is a bijection, the children are covered, and counter by counter the pipeline is the main agent and every child together |
| `AdoptionJournal.Store.ReadJournal` | adapters/host-adoption/src/journal.rs:139-199 | a journal is accepted if and only if its identity, schema, entries and digests are in order and it claims no verified result |
| `AdoptionJournal.Store.EnsureIdle` | adapters/host-adoption/src/journal.rs:119-138 | idle if and only if there is no active transaction, or it is readable and is the candidate or has ended |
| `AdoptionJournal.Store.Sync` | adapters/host-adoption/src/journal.rs:200-248 | wherever it is interrupted: other transactions are untouched, this one is the old or the new snapshot whole, the pointer moves only on an initial sync to a snapshot read back; Ok exactly when nothing strikes and the record is readable, and then the stored record has that sequence; the active transaction stays readable if and only if the record is readable, another transaction is active, or nothing was published |
| `AdoptionJournal.VerifiedSyncHidesActive` | adapters/host-adoption/src/journal.rs:162-235 | a sync of the active transaction with a verified state replaces its readable snapshot with one that is refused |
| `AdoptionJournal.Attempt` | adapters/host-adoption/src/journal.rs:119-248 | one call leaves exactly the files described; the pointer stays or an initial sync moves it from nothing, from itself or from a readable transaction that had ended; only the caller's own journal is written; success exactly when let through, unharmed and readable |
| `AdoptionJournal.Perform` | adapters/host-adoption/src/journal.rs:119-248 | any sequence of calls, interrupted anywhere, leaves exactly the files obtained call by call, answers each call as its files allow, and every one of its moves is fair |
| `AdoptionJournal.CallsAreFair` | adapters/host-adoption/src/journal.rs:119-248 | after any number of interrupted calls the active transaction has a journal, and no call made another one active while the active one had not ended |
| `Nightly.VerdictIgnoresReturncode` | tools/reached-tests/main_whole_run.py:394 | a night is passed if and only if its report says passed, whatever the return code |
| `Nightly.GreenDespiteReturncode` | tools/reached-tests/main_whole_run.py:394-403 | from any announced state, a run whose report says passed writes a passed receipt and moves last-green to its head whatever its return code |
| `Nightly.TimeoutTurnsGreen` | tools/reached-tests/main_whole_run.py:373-403 | a reachable state in which a run that ended with return code 124 has moved last-green |
| `NightlyProgress.ErrorIsRecorded` | tools/reached-tests/main_whole_run.py:409-420 | an error at any later step ends the process, frees its lock, leaves last-green alone, and leaves an incomplete receipt that names the announced head |
| `NightlyProgress.RefusedPreflightIsRecorded` | tools/reached-tests/main_whole_run.py:313-321 | a preflight that does not allow the night leaves a blocked receipt and a free lock, and last-green alone |
| `NightlyProgress.LockComesFree` | tools/reached-tests/main_whole_run.py:270-420 | after any history the lock comes free by ordinary steps of its holder and its child alone, with no crash, kill or error, unless the holder has just killed its child |
| `Nightly.SoleWriter` | tools/reached-tests/main_whole_run.py:288-403 | while one process is about to move last-green, no other process of its date writes a receipt |
| `Nightly.OneActing` | tools/reached-tests/main_whole_run.py:323-350 | with no orphan, at most one process acts on a head it has read |
| `Nightly.StepKeeps` | tools/reached-tests/main_whole_run.py:270-420 | every action of every process, crashes included, keeps lock, receipt, date, last-green and chain invariants |
| `Nightly.RunKeeps` | tools/reached-tests/main_whole_run.py:34-420 | every history of interleaved processes keeps them |
| `Nightly.OneRunPerDate` | tools/reached-tests/main_whole_run.py:288-312 | in every history a date is reserved at most once, and two live processes of one date past the reservation are a waiting parent and its child |
| `Nightly.GreenOnlyAfterPassed` | tools/reached-tests/main_whole_run.py:394-403 | in every history each write of last-green finds a passed receipt for the same head on disk |
| `Nightly.ChainCovers` | tools/reached-tests/main_whole_run.py:323-337 | a chain of ranges covers each commit between its ends exactly once |
| `Nightly.GreenRangesLeaveNoGap` | tools/reached-tests/main_whole_run.py:323-403 | in every history without an orphaned child each green run's base is the previous green head, and every commit up to last-green lies in exactly one green range |
| `Nightly.OrphanBreaksTheChain` | tools/reached-tests/main_whole_run.py:341-403 | a reachable state in which an orphaned child has moved last-green back |
| `NightlyRisk.StaleBreaks` | tools/reached-tests/main_whole_run.py:327-403 | a live process whose baseline was overtaken can break the chain |
| `NightlyRisk.LooseBreaks` | tools/reached-tests/main_whole_run.py:341-403 | beside any live child nobody waits for, the lock can become free, a later night can pass, and the child then breaks the chain |
| `NightlyRisk.RunKeepsCalm` | tools/reached-tests/main_whole_run.py:270-420 | from a state with neither, no run in which every parent outlives its child breaks the chain |
| `NightlyRisk.BreaksExactly` | tools/reached-tests/main_whole_run.py:270-420 | after any history with an unbroken chain, some continuation in which no further parent dies before its child breaks it if and only if a live child is waited for by nobody or a live process holds an overtaken baseline |
| `FrozenAttempts.SelectedSole` | tools/token-bench/methodology.py:366-370 | a selected attempt is named at exactly one position of the order |
| `FrozenAttempts.OpenCellBlocks` | tools/token-bench/methodology.py:371-381 | a reserved cell without a receipt leaves no other cell that could be reserved |
| `FrozenAttempts.StepKeeps` | tools/token-bench/methodology.py:364-423 | every file operation, failure, crash and lock deletion keeps the order invariants and at most one open reservation |
| `FrozenAttempts.RunKeeps` | tools/token-bench/methodology.py:364-423 | every run keeps them |
| `FrozenAttempts.ReceiptsArePrefix` | tools/token-bench/methodology.py:371-374 | in every run the receipts form a prefix of the frozen order |
| `FrozenAttempts.LaunchesFollowTheOrder` | tools/token-bench/methodology.py:364-423 | in every run agents are launched in the frozen order, no cell twice, and none before the receipt of every earlier launch is on disk, even if the lock file is deleted |
| `FrozenAttempts.LostReservationBlocks` | tools/token-bench/methodology.py:378-381 | once a reservation has lost its process, nothing is ever reserved, launched or published again |
| `FrozenAttempts.NoLaunchAfterStop` | tools/token-bench/methodology.py:376-377 | in every run no agent is launched after the provider-stop file appears |
| `FrozenAttempts.ReceiptsAreDecided` | tools/token-bench/methodology.py:364-423 | in every run a passed receipt has an accepted evaluation of that very cell, a failed one an evaluation that was not accepted, an incomplete one the error handler |
| `FrozenProgress.OneAtATime` | tools/token-bench/methodology.py:364-423 | as long as nobody deletes the lock file, at most one process is live, whatever crashes |
| `FrozenProgress.DeletedLockLetsTwoIn` | tools/token-bench/methodology.py:364-423 | with the lock file deleted by hand two can be |
| `FrozenProgress.TurnGoesForward` | tools/token-bench/methodology.py:364-423 | nothing is tried twice: a process only goes to later stages, is about one cell only, and once it has to leave does nothing else |
| `FrozenProgress.EveryCellCompletes` | tools/token-bench/methodology.py:364-423 | whatever the evaluations say, some run carries every cell of a plan to its verdict, in the frozen order |
| `FrozenProgress.FailureStops` | tools/token-bench/methodology.py:364-423 | after a provider or cleanup failure the cell can still be evaluated, but the stop file is there |
| `FrozenProgress.TroubleStops` | tools/token-bench/methodology.py:364-423 | after a caught error the cell can be recorded as incomplete, with the stop file |
| `FrozenProgress.CrashSticks` | tools/token-bench/methodology.py:364-423 | a process that dies while its agent runs leaves a reservation nobody owns |
| `FrozenAttempts.Report` | tools/token-bench/methodology.py:426-455 | one row per cell; complete if and only if every cell has a passed or failed receipt |
| `FrozenAttempts.ReportShape` | tools/token-bench/methodology.py:426-440 | in every run the report is a block of observed cells, at most one unfinished cell, then cells not run |
| `TaskRecord.KeyIsContent` | tools/task-record/task_record.py:1272-1280 | two records share a key if and only if lane, kind and content without the timestamp agree, shortened names included |
| `TaskRecord.JoinedInjective` | tools/task-record/task_record.py:1275-1276 | the hashed text tells lane, kind and content apart, line feeds in the lane included |
| `TaskRecord.ProofTextsApart` | tools/task-record/task_record.py:1277-1280 | no record's key text, cut or not, is the key text of a proof |
| `TaskRecord.KeyTextsAgree` | tools/task-record/task_record.py:1272-1280 | two key texts, cut to 64 characters or not, are equal if and only if the keys are, provided the hash does not collide on the two records |
| `TaskRecord.TimestampKeepsKey` | tools/task-record/task_record.py:1272-1280 | stamping a record anew keeps its key |
| `TaskRecord.AnswerKeeps` | tools/keel-effect/plant_defects.py:40-74 | the Runtime appends at most the request itself and never a second record under one key |
| `TaskRecord.Runtime.Send` | tools/task-record/task_record.py:1270-1337 | with lost requests, lost replies and racing writers: the log only grows, keys stay unique, 0 or 2 implies the record is stored, an unrefused 1 implies it is not, a calm rerun answers whether it had landed, an ordinary record is sent up to three times until a calm attempt answers, and Exited follows when every attempt times out |
| `TaskRecord.Runtime.Deliver` | tools/task-record/task_record.py:1303-1328 | a lost or raced attempt is followed by another: three in all, two for a review activity, one for a proof |
| `TaskRecord.Runtime.FindStored` | tools/task-record/task_record.py:1340-1369 | finds a stored record if and only if one with the same lane, kind and content is in the log |
| `TaskRecord.StoredOnce` | tools/task-record/task_record.py:1270-1337 | with unique keys a record is stored at most once, whatever its timestamps |
| `TaskHistory.CheckGapless` | tools/task-record/task_record.py:1167-1169 | accepts exactly consecutive sequence numbers |
| `TaskHistory.ReadHistory` | tools/task-record/task_record.py:1152-1187 | a history is returned if and only if some number of good pages, each asked for after the events before it, is complete, and it is their concatenation |
| `TaskHistory.CompleteIsGapless` | tools/task-record/task_record.py:1165-1187 | a complete history has exactly the sequence numbers 1 to the head, at most 10 000 |
| `TaskHistory.CompleteOnce` | tools/task-record/task_record.py:1170-1187 | only one number of pages is complete, so the result is determined |
| `TaskHistory.ServedIsComplete` | tools/task-record/task_record.py:1152-1187 | a Runtime that serves a gapless log within the bound has that very log returned |
| `TestSelection.ParseStep` | tools/reached-tests/reached_tests.py:1034-1039 | the generated arguments are read back as the earlier modules skipped and the own module as the filter, and refused exactly when the own path looks like an option |
| `TestSelection.StepRuns` | tools/reached-tests/reached_tests.py:1034-1039 | a step runs a test if and only if its module is the first whose path occurs in the name and does not look like an option |
| `TestSelection.BundleSteps` | tools/reached-tests/reached_tests.py:1024-1040 | the steps are one per module, skipping the earlier ones, and the rest; for any modules, overlapping names included, exactly one step runs each test if and only if every module that looks like an option has its path covered by an earlier one; in particular always for module names |
| `TestSelection.PartitionExactly` | tools/reached-tests/reached_tests.py:1034-1040 | the steps partition all test names if and only if that condition holds |
| `TestSelection.OptionLeavesTest` | tools/reached-tests/reached_tests.py:1034-1040 | otherwise a test name that no step runs |
| `TestSelection.Closure` | tools/reached-tests/reached_tests.py:481-487 | the breadth-first rounds end in the least set that holds the start and is closed under dependents |
| `TestSelection.Dependents` | tools/reached-tests/reached_tests.py:314-324 | the least closed set plus exactly the packages with a dev-dependency in it |
| `TestSelection.Tabulate` | tools/reached-tests/reached_tests.py:1118-1125 | the table asks for exactly the tests the selections ask for |
| `TestSelection.GroupSingle` | tools/reached-tests/reached_tests.py:1112-1140 | grouping loses no selected test and adds none, except that the command line tool's two executables, when both are selected by modules only, run under the filters of both |
| `SemVer.NumeralsDiffer` | tools/reached-tests/plugin_version_guard.py:46-50 | different numeric identifiers without leading zeros have different values |
| `SemVer.NumeralExists` | tools/reached-tests/plugin_version_guard.py:46-50 | every number has a numeral without leading zeros |
| `SemVer.TuplesCompare` | tools/reached-tests/plugin_version_guard.py:141-149 | tuples compare item by item: a proper prefix is smaller, and items of two types have no order |
| `SemVer.IdsAgree` | tools/reached-tests/plugin_version_guard.py:146-149 | comparing encoded identifiers is the identifier order of section 11 of Semantic Versioning 2.0.0 |
| `SemVer.ListsAgree` | tools/reached-tests/plugin_version_guard.py:141-149 | for prerelease lists of any length tuple comparison is the list order of section 11, and never mixes types |
| `SemVer.PrecedenceAgrees` | tools/reached-tests/plugin_version_guard.py:141-149 | comparing `_version_precedence` tuples never fails and is exactly the precedence of section 11 |
| `SemVer.BelowTransitive` | tools/reached-tests/plugin_version_guard.py:141-149 | that precedence is transitive |
| `SemVer.BelowTotal` | tools/reached-tests/plugin_version_guard.py:141-149 | of two versions exactly one of below, equal and above holds |
| `ReleaseGroup.Highest` | tools/reached-tests/plugin_version_guard.py:172-176 | the chosen base version is below none of the others |
| `ReleaseGroup.GroupCheck` | tools/reached-tests/plugin_version_guard.py:152-183 | passes if and only if nothing shipped, or all manifests agree on a version that is new, or not below any base version, or in a release above the one base version |
| `ReleaseGroup.WriteGroup` | tools/reached-tests/plugin_version_guard.py:273-284 | a finished release write leaves one agreed version above the first base manifest's, the next patch unless the tree was raised already, rewrites exactly the manifests that differ, and leaves a raised, new or unchanged group alone; it fails if and only if the first base manifest or a current one cannot be read or set |
| `ReleaseGroup.WriteThenCheck` | tools/reached-tests/plugin_version_guard.py:152-284 | after a release write the release check passes if and only if the base manifests agree |
| `ReleaseGroup.WriteTwice` | tools/reached-tests/plugin_version_guard.py:273-284 | a second release write rewrites no version |
| `ReleaseGroup.SplitBaseIsRefused` | tools/reached-tests/plugin_version_guard.py:178-284 | with 1.0.0 beside 1.1.0 at the base the writer leaves 1.0.1, which the check refuses |
| `PairedInference.IntervalCounts` | tools/token-bench/doless.py:727-732 | the interval ends lie below a bound if and only if at least 4875, respectively at least 125, of the 5000 values do |
| `PairedInference.Refusal` | tools/token-bench/doless.py:693-709 | nothing is computed if and only if the cohort is partial, has fewer than two tasks, an unknown cost or an arm without a pass, and the reason is the first of these |
| `PairedInference.SumConcat` | tools/token-bench/doless.py:714-717 | sums are additive, and as many times the mean as there are values is their sum |
| `PairedInference.Judge` | tools/token-bench/doless.py:732-742 | the branches on interval ends give the verdict obtained by counting means |
| `PairedInference.Infer` | tools/token-bench/doless.py:690-742 | for every task list and every sequence of draws: computed exactly for eligible tasks, with the verdict by counting |
| `PairedInference.UniformGainIsSupported` | tools/token-bench/doless.py:690-742 | if every task gets cheaper by more than the gain and none regresses past the margin, the verdict is supported whatever is drawn |
| `PairedInference.VerdictNeedsWitness` | tools/token-bench/doless.py:690-742 | a regression verdict implies a task that regressed past the margin, support implies a task that got cheaper by more than the gain, and if all regress the verdict is a regression |
| `PairedInference.SupportIsMonotone` | tools/token-bench/doless.py:733-739 | a smaller gain or a wider margin never takes support away |
| `PairedInference.MarkFrontier` | tools/token-bench/doless.py:1042-1055 | marks exactly the placed arms nobody dominates, changes nothing else, and every dominated arm is dominated by a marked one |
| `PairedInference.DominatesExactly` | tools/token-bench/doless.py:1042-1055 | an arm dominates another if and only if it is no worse and the other one is |
| `BraceExpansion.LeadsWrap` | tools/diff-hygiene/diff_hygiene.py:71-77 | expanding text whose first complete group is brace-free puts each stripped part in its place |
| `BraceExpansion.StripExactly` | tools/diff-hygiene/diff_hygiene.py:71-77 | stripping takes off exactly the white space around the text, and leaves nothing only of blanks |
| `BraceExpansion.StrippedExactly` | tools/diff-hygiene/diff_hygiene.py:71-77 | the meaning of an alternative is one of its meanings without the white space around it |
| `BraceExpansion.TextIn` | tools/diff-hygiene/diff_hygiene.py:71-77 | in any context in which nothing has closed yet, a text can be replaced by the strings it means |
| `BraceExpansion.ExpandIsMeaning` | tools/diff-hygiene/diff_hygiene.py:71-77 | for well-formed braces nested to any depth, innermost-first expansion yields exactly the strings of the outermost-first meaning, alternatives stripped at each level |
| `BraceExpansion.BalancedIsCovered` | tools/diff-hygiene/diff_hygiene.py:71-77 | every string with balanced braces is such a text |
| `BraceExpansion.CoveredIsBalanced` | tools/diff-hygiene/diff_hygiene.py:71-77 | and only strings with balanced braces are |
| `BraceExpansion.OnePairPerCall` | tools/diff-hygiene/diff_hygiene.py:71-77 | whatever the text, each recursive call has exactly one opening brace fewer |

## Left out

- Cryptographic strength, credentials, permissions and symbolic-link checks; digests are injective by assumption.
- Floating-point rounding and overflow in `doless.py`; means and percentiles are computed over real numbers, and the random generator is any sequence of draws.
- Process spawning, git, HTTP, clocks and memory readings are environment answers; which executables a build log names and which commands are plain `cargo test` (`_test_split`, `_test_executables`) are answers too.
- Log text, summaries, timings, queue telemetry and `--plan` output of `run_reached.py`, and exceptions raised before its work loop.
- `drop_test_bodies`, `includes` and the effect scan of `evidence_key.py`: the include scan of one file is a parameter, and the package closure over manifests is the same fixpoint as `TestSelection.Closure`.
- `claude_pipeline`, archive verification and `required_operations` of `native_session_evidence.py`: conjunctions of field tests.
- `save_payload`, `payload` and `original_once` of `journal.rs`: single reads and writes of content-addressed files.
- JSON syntax: records, receipts and manifests are values. In `Nightly` the last-green and receipt files are readable whenever they exist, and a receipt was written by this program; in `TaskRecord` compact JSON is any injective text without line feeds; in `ReleaseGroup` a valid version text is its parsed version and build part, and the version field is where the rewriting pattern finds it.
- `main` is a line in `Nightly`: a commit is its position, and history is not rewritten. P0 issues, logs and the interval-driven mode of `main_whole_run.py` are not modelled.
- `FrozenAttempts` does not model the contents of receipts beyond their outcome, nor the mismatch refusal of `report`.
- TaskRecord.Runtime.Send: for `proof_recorded` an answer of 2 promises only that the key is taken, because that key is not made of the record's content; the resend of `send_opening` is not modelled.
- `git fetch` and the reading of the fetched head are one step in `Nightly`; reading last-green is another.
- TaskHistory.ReadHistory: the evidence documents read after paging are not modelled.
- TestSelection.BundleSteps: libtest options that carry a value after `=` are not told apart from other refused options.
- The long rule table of `reach`, the source-text heuristics of `core_module_cli` and `expand_whole_packages`: single-branch facts.
- Golden files and contribution digests of the release writer, `_changed_paths`, and how a changed path is assigned to a group: `shipped` and `changed` are inputs.
- Unicode digits in version numbers and identifiers, which the version pattern lets through; digits are ASCII in `SemVer`.
- `wilson_interval` and pair admission in `doless.py`; packaging, observers, launchers and the Studio server.
