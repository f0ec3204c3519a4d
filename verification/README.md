# Verified model of EvoAgent

EvoAgent is a code-review runtime that reviews pull requests with several cooperating agents and evolves its own
prompts and rules.  This project models its algorithms and durable protocols in Dafny and proves what they are for:
which findings are credited, what survives a crash, what a gate guarantees over any number of proposals.  Everything
is stated for all inputs, all runs or all interleavings.  `dafny verify dfyconfig.toml` checks the whole project.

## What is modelled

- **Evaluation.**  `Matching` is the augmenting-path matcher of the evaluation harness, in its own recursive form over
  a shared owner table, proved to be of maximum size by a vertex cover that ghost sets carry through the search, and to
  match the nearest first.  `Evaluation` scores cases with it.  `Replay` is the second, greedy evaluator that the
  activation gates use, and `Ratchet` is what those gates guarantee over any sequence of proposals.
- **Parsing and analysis.**  `DiffParser` reads unified diffs and is proved against rendered edit scripts (the
  "Diff -u or -U Output Format" of the POSIX diff utility), `DiffText` with `Lines` on the text of a diff, which is split
  at more characters than end a line of a file; `Taint` is the in-place fixed-point iteration; `Fixer` is the bottom-up
  edit loop against a simultaneous rewrite.
- **Context.**  `Utf8` defines UTF-8 as RFC 3629 does and proves the truncation; `Context` packs the records of an
  agent-loop iteration under one budget; `HunkPacking` compresses a diff hunk by hunk.
- **Durable protocols.**  `Runtime` and `Harness` are checkpointed execution and the review workflow on it, with a
  crash possible at every point of every attempt; `Deliveries` has several runs of one task at once.  `TaskQueue`,
  `Chat` and `EvolutionJobs` are state machines over shared tables: each SQL or Redis statement is one atomic step, and
  workers, requests and crashes interleave freely.  `EvolutionJobs` has the control operations twice, undivided and
  with their read and their write apart, and says when the second form comes to the first.
- **Life cycles.**  `SkillArtifacts` and `Rollout` are the tables of skill versions and deployments; in `Rollout` the
  read and the write of an advance are two steps.
- **Agents.**  `Agents` is critique, revision, verification and arbitration.

Code that changes things step by step is modelled by classes and methods with loops, proved against functions on
values; the properties are lemmas about those functions.  `Models` and `Ordering` hold shared records and sorting.

## Where the code does less than it says

Each of these is a lemma, with the exact condition where there is one.

- An augmented assignment is read with the value of the assignment visited before it: sources on its right are missed,
  clean names are reported, and one before all others fails (`Taint.SourceMissed`, `Taint.CleanTainted`,
  `Taint.CollectTainted`).  `Taint.RightWhateverIsAdded` says when the result is right all the same.
- Added text that starts with `++` is not reported, and removed text that starts with `--` shifts the numbers after it
  (`DiffParser.ParseOfRender`).  A form feed or another such boundary cuts added text and shifts the numbers after it
  (`DiffText.ParseOfText`, `DiffText.FormFeedInAddition`), and a timestamp joins the path (`DiffParser.StampJoinsPath`).
- Two deliveries of a task that overlap can lose a completed checkpoint, though never falsify one
  (`Deliveries.KeptExactly`, `Deliveries.OverlapLoses`).
- A reconciliation that runs beside a live confirmation frees its claim (`Chat.ReconcileFreesClaim`,
  `Chat.ClaimIsExclusive`), and a reject that read the draft overwrites a confirmed insight
  (`Chat.RejectOverConfirmed`); there is still only one case.
- A late worker and a control operation decided earlier overwrite a finished job (`EvolutionJobs.TerminalIsFinal`),
  retries that read the same job each buy an execution (`EvolutionJobs.StaleRetriesOverdraw`), and a job can be queued
  twice for one event once the base key is finished (`EvolutionJobs.EvolutionController.Enqueue`).
- A status change of the flagged version leaves its flag (`SkillArtifacts.AgreementExactly`); so a rolled-back version
  is still served (`SkillArtifacts.RollbackKeepsServing`), and archived or rejected versions, described as never
  activated (evoagent/skill_lifecycle.py:20-22), are activated exactly when an earlier run activated them
  (`SkillArtifacts.ArchivedActivation`).
- The final guard of `compose` does cut contexts whose parts keep to their budgets (`Context.SharesDoNotFit`).
- The fallback of `build` ignores the header and slices characters instead of octets, so that even a diff without
  headers exceeds the budget (`HunkPacking.FallbackFitsExactly`, `HunkPacking.WideLineExceeds`); a path split in two
  pays for its header twice (`HunkPacking.SplitPathPaysTwice`).
- A repair may edit one line more than its limit, and a rule that follows the print rule on a line hits the next line
  (`Fixer.OneEditMore`, `Fixer.SafeInEveryOrder`, `Fixer.SecondRuleHitsNextLine`).
- When specialists report one key more than once, the last finding is verified and the first reported
  (`Agents.FirstReportedLastVerified`).
- The replay matching is not maximum when an any-rule expectation comes first (`Replay.MaximumExactly`).
- Prompts are evaluated unstripped and stored stripped, so the ratchet holds for stripped proposals
  (`Ratchet.RaisesExactly`).
- A stale advance revives a rolled-back deployment, shrinks running traffic and ignores a pause
  (`Rollout.RunGoesOnExactly`, `Rollout.StaleAdvanceRevives`, `Rollout.StaleAdvanceShrinks`, `Rollout.PauseOvertaken`).
- Full canary traffic ends the canary lane, which is only for running deployments, and needs no number of tasks
  (`Rollout.LastStageNeedsNoTasks`).

## Model

| member | source | states |
|---|---|---|
| `Matching.CandidateEdges` | evoagent/evaluation_harness.py:122-144 | For every truth, exactly the admissible predictions (same normalised path, same CWE, within the tolerance), each with its distance to the range, ordered by distance and then index. |
| `Matching.TestEdge` | evoagent/evaluation_harness.py:133-142 | An edge exists exactly for an admissible pair, with the distance zero inside the range and the nearer end outside it. |
| `Matching.AdmissibleExactly` | evoagent/evaluation_harness.py:122-142 | A prediction may be credited exactly if the normalised paths agree, the weakness is the same but for case, by the table or by its own name, and some line of the expected range is within the tolerance. |
| `Matching.PathNormalized` | evoagent/evaluation_harness.py:117-119 | A path comes to the same with white space around it and behind either prefix of a diff. |
| `Matching.Matcher.constructor` | evoagent/evaluation_harness.py:151-152 | The search starts with no prediction owned. |
| `Matching.Matcher.Assign` | evoagent/evaluation_harness.py:154-163 | An augmenting search: on success exactly one more truth is paired and no paired truth loses its partner; on failure nothing changes and the predictions visited form, with those of earlier failures, a set closed under the edges of the truths reached.  Edges are tried in order: everything before the edge a truth is paired along leads to a prediction that is taken. |
| `Matching.FailureBlocks` | evoagent/evaluation_harness.py:154-168 | What a failed search visited blocks every later search, so the pieces of the certificate survive later augmentations. |
| `Matching.CoverMakesMaximum` | evoagent/evaluation_harness.py:147-168 | A pairing with such a blocked set is at least as large as every pairing along the edges, by a vertex cover of the same size. |
| `Matching.SearchOrder` | evoagent/evaluation_harness.py:166 | Every truth is searched from exactly once, the one with fewer options first, and of equal ones the earlier. |
| `Matching.MaximumPairing` | evoagent/evaluation_harness.py:165-168 | After the search from every truth no pairing along the edges is larger, no truth could have a nearer prediction that is free, and each truth left out has, with some paired truths tried before it, fewer options than there are of them. |
| `Matching.FailureCrowds` | evoagent/evaluation_harness.py:154-168 | A failed search finds such a group: the truth and the owners of all it visited. |
| `Matching.PairingsAreOneToOne` | evoagent/evaluation_harness.py:147-177 | The pairings along the candidate edges are exactly the one-to-one pairings of admissible truths and predictions. |
| `Matching.MatchList` | evoagent/evaluation_harness.py:170-176 | One match for every owned prediction, none left out, with the distance of the edge used. |
| `Matching.NearestMatched` | evoagent/evaluation_harness.py:143-177 | For every match, each admissible prediction with a smaller distance, or as near and listed earlier, is matched too. |
| `Matching.OthersLeftOut` | evoagent/evaluation_harness.py:165-177 | A truth goes unmatched only when it and some matched truths that go before it have fewer admissible predictions between them than there are of them. |
| `Matching.OneToOneMatch` | evoagent/evaluation_harness.py:147-177 | For all expected and predicted findings: every match is an admissible pair at its distance, no truth or prediction occurs twice, the matches are sorted, no admissible one-to-one pairing is larger, a nearer admissible prediction of a matched truth is matched as well, and truths left unmatched are crowded out by truths that go before them. |
| `Evaluation.ScoreMatches` | evoagent/evaluation_harness.py:350-391 | The counts of a case: true positives plus misses are the expected findings, true positives plus false alarms the predictions; severity hits, high-risk hits, repairs tried and repairs passed are exactly the credited matches that are such; a repairer that raises ends the case at its match; and a case is an end-to-end success exactly when every expected finding was matched and repaired. |
| `Evaluation.RunCase` | evoagent/evaluation_harness.py:320-394 | The same for any reviewer outcome; with a working reviewer the matches are those of the matcher, as many as possible and nearest first, with a failing one everything expected is missed. |
| `Evaluation.HighCountExactly` | evoagent/evaluation_harness.py:331-333 | The high total is the number of high and critical expected findings. |
| `Evaluation.TotalsAreSums` | evoagent/evaluation_harness.py:397-417 | Over any results each of the fourteen totals is the sum of its own count. |
| `Evaluation.TotalsConserve` | evoagent/evaluation_harness.py:405-417 | Over any results the totals conserve expected and predicted findings and every hit count stays within its total. |
| `Evaluation.RatioInUnit` | evoagent/evaluation_harness.py:421-422 | A rate lies in the unit interval, is one exactly at equality and zero exactly at none. |
| `Evaluation.F1InUnit` | evoagent/evaluation_harness.py:426-428 | The F1 value lies in the unit interval and is one exactly when precision and recall both are. |
| `Evaluation.RatesMean` | evoagent/evaluation_harness.py:419-446 | Each of the nine rates is the quotient of its own two totals, or the value stated for an empty denominator, F1 is the harmonic mean of precision and recall, and all lie in the unit interval. |
| `Evaluation.PerfectF1` | evoagent/evaluation_harness.py:419-446 | A dataset with expected findings reaches F1 one exactly when nothing was missed and nothing else was reported. |
| `DiffParser.ReadLine` | evoagent/diff_parser.py:25-48 | One turn of the parsing loop, branch for branch, is one step of the parser on the kind of the line. |
| `DiffParser.ParseUnifiedDiff` | evoagent/diff_parser.py:17-50 | The text is split as str.splitlines does, and the whole loop is the run of the parser over the classified lines. |
| `DiffParser.HeaderReads` | evoagent/diff_parser.py:14 | Every hunk header that can be rendered, with or without counts and with any section heading, is read back as the new-file start it was rendered from. |
| `DiffParser.HeaderForm` | evoagent/diff_parser.py:14 | The converse: only lines of that form are read as hunk headers, with the new-file start they give. |
| `DiffParser.HeaderPathReads` | evoagent/diff_parser.py:25-28 | A new-file line names its path whatever white space stands around it: behind b/ the path itself, and without a prefix the path as it is, exactly unless the path starts with b/. |
| `DiffParser.AddedLinesIndexTheNewFile` | evoagent/diff_parser.py:40-42 | Each number expected for an addition is the place of that content in the new file that the edit script produces. |
| `DiffParser.RenderClassified` | evoagent/diff_parser.py:25-48 | Every line of a rendered script is recognised as what it is, apart from additions starting with two pluses, removals starting with two minuses, and stray lines that splitting leaves. |
| `DiffParser.ParseOfRender` | evoagent/diff_parser.py:17-50 | From the lines of a script, stray ones included, the parser reports exactly the added lines, in order and with their places in the new files, if and only if no added text starts with two pluses, no stray line is taken for an addition, and neither a removed text that starts with two minuses nor a stray line that counts is followed by an addition in its hunk. |
| `DiffParser.FilesOfRender` | evoagent/diff_parser.py:25-32 | The files reported are those the script leaves in existence, each once. |
| `DiffParser.StampJoinsPath` | evoagent/diff_parser.py:25-31 | A timestamp behind a tab, as the POSIX diff utility writes it in the new-file line, is taken for part of the path. |
| `Lines.LineEnds` | evoagent/diff_parser.py:24 | A line ends at its first boundary, which is dropped, a line feed behind a carriage return with it, and splitting goes on behind. |
| `Lines.SplitInvertsJoin` | evoagent/diff_parser.py:24 | Splitting gives joined lines back if and only if none of them holds one of the characters that str.splitlines takes for a line boundary. |
| `DiffText.SplitText` | evoagent/diff_parser.py:24 | The lines of the text of a script are the rendered lines of the script with every line cut at its first boundary and the rest left as stray lines. |
| `DiffText.WrongTexts` | evoagent/diff_parser.py:24-47 | For every script: if the report on its text is right, no added text starts with two pluses or holds a line boundary. |
| `DiffText.ParseOfText` | evoagent/diff_parser.py:17-50 | From the text of a script the parser reports exactly the added lines if and only if no added text holds a line boundary and the script that splitting makes of it meets the condition on lines. |
| `DiffText.ParseOfUnbrokenText` | evoagent/diff_parser.py:17-50 | Where no rendered line holds a boundary, the condition on lines alone is the exact one for the text. |
| `DiffText.FormFeedInAddition` | evoagent/diff_parser.py:24-47 | Lines one and two are added as a, form feed, b and as c: the report has a at one and c at three. |
| `DiffText.FormFeedInContext` | evoagent/diff_parser.py:24-47 | A form feed in a kept line pushes up the number of the addition after it. |
| `Taint.AddTargets` | evoagent/ast_analysis.py:142-149 | The set grows by exactly the names of the targets, and the flag says whether it grew. |
| `Taint.VisitNode` | evoagent/ast_analysis.py:125-149 | One visit inside a pass, with the value variable carried from node to node: sound for reachability, and quiet only where nothing is left to add. |
| `Taint.Pass` | evoagent/ast_analysis.py:124-149 | One walk, during which the set grows: it fails exactly when an augmented assignment precedes every other one, stays within the reachable names, and changes nothing only at a closed set. |
| `Taint.CollectTainted` | evoagent/ast_analysis.py:119-150 | Terminates; fails exactly when an augmented assignment precedes all other assignments; otherwise returns the least set closed under the rules the loop applies, that is the names reached from a source through chains of plain assignments and of augmented ones read with the value carried over from the assignment visited before them. |
| `Taint.ClosedHoldsChains` | evoagent/ast_analysis.py:119-150 | Every closed set holds every name a chain of assignments reaches. |
| `Taint.FiringReaches` | evoagent/ast_analysis.py:139-148 | A name added because of tainted names is reached by a longer chain. |
| `Taint.AddedIgnored` | evoagent/ast_analysis.py:133-139 | The right-hand sides of any number of augmented assignments have no influence on the analysis. |
| `Taint.NothingMissed` | evoagent/ast_analysis.py:133-148 | Against the program as it is written, with each augmented assignment read by its own right-hand side: nothing is missed exactly when every augmented assignment whose right-hand side is tainted as written has its names reported. |
| `Taint.NothingSpurious` | evoagent/ast_analysis.py:133-148 | The other direction: nothing clean is reported exactly when the carried value is tainted only at augmented assignments to names tainted as written. |
| `Taint.PlainIsAll` | evoagent/ast_analysis.py:133-148 | When the plain assignments taint every name assigned by an augmented one, analysis, program as written and plain assignments agree. |
| `Taint.RightWhateverIsAdded` | evoagent/ast_analysis.py:133-148 | For all lists of assignments: the analysis is right, without failing, whatever stands on the right of the augmented ones if and only if none of those precedes every other assignment and the plain assignments alone taint every name assigned by one. |
| `Taint.SourceMissed` | evoagent/ast_analysis.py:133-139 | A source added to a clean variable is not reported. |
| `Taint.CleanTainted` | evoagent/ast_analysis.py:133-148 | A constant added to a clean variable after a source was assigned to another one makes it reported. |
| `Runtime.CheckpointStore.SaveCheckpoint` | evoagent/runtime.py:220-223 | A save replaces the row of its node and nothing else. |
| `Runtime.AgentRuntime.Attempt` | evoagent/runtime.py:204-238 | One handler call with the checkpoint write after it, refused, committed or cut off by a crash before or after: the row it leaves, and exactly when the node is done, is tried again, or the run stops with the error or dies. |
| `Runtime.AgentRuntime.RunNode` | evoagent/runtime.py:198-256 | The attempts at one node: all but the last were retried, numbers count on from the checkpoint, there is at most one attempt more than the retries, and why they end is settled by the last event, the retries, the budget and cancellation. |
| `Runtime.AgentRuntime.Visit` | evoagent/runtime.py:191-256 | A completed checkpoint is restored without a call; otherwise the node runs. |
| `Runtime.AgentRuntime.Execute` | evoagent/runtime.py:161-257 | Every run, interrupted anywhere, is a good run: if it finishes it ends in the state of the uninterrupted run with every checkpoint completed; each call answers its event and is a retry exactly when the call before it failed in a way that may be retried; it stops with an error exactly on a failure that may not be retried, a refused row or exhausted retries, and otherwise only for a crash, a cancellation or a spent budget; it keeps to max_steps, leaves exactly the rows its events wrote, and neither loses nor falsifies a completed checkpoint. |
| `Runtime.RowsAdvance` | evoagent/runtime.py:219-234 | Completed rows stay right, stay completed, and stay a prefix of the nodes. |
| `Runtime.CallsExtended` | evoagent/runtime.py:191-205 | Calls skip only restored nodes and move on only after a normal return. |
| `Runtime.TriesFollow` | evoagent/runtime.py:197-201 | The attempts at the next node continue a run and stay within its retries. |
| `Runtime.RunDetermined` | evoagent/runtime.py:161-257 | The checkpoints a run loads and the events it meets determine its calls, how it ends and the rows it leaves: any two good runs on them are the same. |
| `Runtime.ExhaustedFailed` | evoagent/runtime.py:198-256 | A node whose retries are exhausted had no clean return among those attempts. |
| `Runtime.PatientRunFinishes` | evoagent/runtime.py:198-256 | A run that meets only clean returns and failures that may be retried with their rows stored, never more in a row than the retries of any node, finishes, if the steps suffice for one clean return a node and all failures. |
| `Runtime.Lifetime` | evoagent/runtime.py:161-257 | Any number of runs on one store, each interrupted in its own way: each is a good run on what the earlier ones left, completed checkpoints stay a prefix, and saved attempt numbers strictly increase. |
| `Runtime.NeverCalledAgain` | evoagent/runtime.py:191-196 | A handler whose checkpoint was completed is not called in any later run, and its row does not change. |
| `Harness.ReviewHarness.Transition` | evoagent/harness.py:202-214 | A transition succeeds exactly when it is to the current state or allowed, and then adds one event with the next step number. |
| `Harness.AllowedExactly` | evoagent/harness.py:18-23 | A task that has not ended may move one step on, fail or be cancelled; one that has ended may not move. |
| `Harness.ReviewHarness.Announce` | evoagent/harness.py:147-200 | The transitions the three handlers ask for in one run are all legal from the seeded state, and each stores its state once, at the first call of its node that announces it. |
| `Harness.ReviewHarness.Run` | evoagent/harness.py:77-139 | One delivery: a good run of the runtime, no illegal transition, trace steps increase, the trace grows by the states announced and by the one that closes the run, namely success, cancelled or failed according to its outcome and none for a crash; a finished run succeeds with the uninterrupted result from the reviewing state, a patient one finishes, and success is final. |
| `Harness.NextDepth` | evoagent/harness.py:91-106 | The first call of a run is for the node after the completed ones; later calls repeat a node or go to the next. |
| `Harness.AnnounceNext` | evoagent/harness.py:147-200 | The next announcement of a run is legal, and changes the state exactly if it is the first of its node. |
| `Harness.EndsReviewing` | evoagent/harness.py:100-116 | A run that passed every node is in the last state, so success is a legal end. |
| `Harness.FootprintRepeatable` | evoagent/harness.py:147-200 | A handler that does not read the key it writes gives the same output when run again on its own result. |
| `Harness.ReviewResumable` | evoagent/harness.py:147-200 | The three review handlers therefore meet what resuming needs. |
| `Harness.Life` | evoagent/harness.py:77-139 | Over any history of failures, crashes, cancellations and deliveries the invalid-transition error is unreachable, completed checkpoints are a prefix of the three nodes, trace steps strictly increase, and nothing runs after success. |
| `Deliveries.EveryInterleavingRight` | evoagent/runtime.py:161-257 | Any number of deliveries of one task in any interleaving, each failing or dying anywhere: every completed checkpoint holds the right output, and a run past every node has the result of the uninterrupted run. |
| `Deliveries.KeptExactly` | evoagent/runtime.py:191-234 | In every continuation, further deliveries included, a completed checkpoint stays completed if and only if every run that is alive has passed its node or has loaded it as completed. |
| `Deliveries.OneAtATimeKeeps` | evoagent/task_queue.py:149-161 | Delivered one at a time, any number of times, a task loses no completed checkpoint. |
| `Deliveries.DeliveredAgain` | evoagent/runtime.py:161-257 | A delivery that dies anywhere, whatever others do, can be made again: it starts from the checkpoints stored by then and can get to the result of the uninterrupted run. |
| `Deliveries.OverlapLoses` | evoagent/runtime.py:219-234 | For every task: of two deliveries that load before either saves, the second fails at the first node over the completed checkpoint of the first. |
| `TaskQueue.StepKeepsInv` | evoagent/task_queue.py:97-189 | Every atomic step of every worker, and every submission and replay, keeps the invariant: an acknowledgement is due only when the submission is handled, dead-lettered or superseded by a newer entry of its own. |
| `TaskQueue.AckKeeps` | evoagent/task_queue.py:142-147 | Acknowledging such an entry leaves every submission as safe as it was. |
| `TaskQueue.NoTaskLost` | evoagent/task_queue.py:84-189 | In every interleaving of submissions, replays of dead letters, workers, faults, reclaims and outcomes each single submission, whatever became of others of the same message, was handled, is in the dead letters, or has an unacknowledged entry. |
| `TaskQueue.MessagesKept` | evoagent/task_queue.py:97-109 | Every entry and every dead letter carries the message of the submission it belongs to. |
| `TaskQueue.RetriesBounded` | evoagent/task_queue.py:98-111 | Stream entries always carry fewer attempts than the maximum, and a submission is given up only after that many real handler calls for it or a refusal for good. |
| `TaskQueue.OutcomeDecides` | evoagent/task_queue.py:97-117 | From the actions: after a handler returned, refused for good or failed, whatever other workers do meanwhile, its worker acknowledges, dead-letters as permanent, puts the task back with the attempt counted or, at the last attempt, dead-letters it as not permanent, or else dies. |
| `TaskQueue.OutcomesFound` | evoagent/task_queue.py:97-117 | The converse: every entry with attempts behind it was put there by a delivery whose handler failed with attempts left; every permanent dead letter by one whose handler refused for good, every other one by a failure at the last attempt. |
| `TaskQueue.ReadOnce` | evoagent/task_queue.py:126-166 | An entry is read as new once it is in the stream, only once, and given to nobody after it was acknowledged. |
| `TaskQueue.CallsCounted` | evoagent/task_queue.py:97-100 | The calls counted for a submission are the handler starts for it among the actions. |
| `TaskQueue.CanStillBeHandled` | evoagent/task_queue.py:123-166 | From every reachable state each submission that is not settled can be taken up by a new worker and handled. |
| `TaskQueue.SubmissionHandled` | evoagent/task_queue.py:84-117 | From every reachable state a submission is taken as one more, and can be handled by a new worker. |
| `TaskQueue.CalledAgain` | evoagent/task_queue.py:142-166 | A worker that dies before it acknowledges, even after the handler returned, leaves an entry for which the handler is called again. |
| `TaskQueue.ReplaysNewest` | evoagent/task_queue.py:175-188 | A message can be replayed exactly while one of its dead letters is among the newest five hundred. |
| `TaskQueue.MemoryQueue.Submit` | evoagent/task_queue.py:84-95 | A submission starts with no attempts; after closing it is refused. |
| `TaskQueue.MemoryQueue.Handle` | evoagent/task_queue.py:97-117 | One delivery counts one attempt and moves the submission to done, dead or waiting according to the outcome and the attempts. |
| `TaskQueue.MemoryQueue.Resubmit` | evoagent/task_queue.py:112-121 | A timer puts the submission back with its attempts, or drops it after closing. |
| `TaskQueue.MemoryQueue.Serve` | evoagent/task_queue.py:84-121 | Over any events, every submission is where its own events, one by one, have taken it, and was handled as often; no submission is handled more than the maximum number of times, and none disappears unless the queue was closed while it waited. |
| `Chat.StepKeepsInv` | evoagent/service.py:1591-1728 | Every atomic statement of confirm, edit, reject and reconcile, every error and every crash keeps: at most one case an insight, and a confirmed insight names its own. |
| `Chat.ExactlyOnce` | evoagent/service.py:1623-1728 | Under any interleaving an insight never has two failure cases, a confirmed one names the case recorded for it, and no other names one. |
| `Chat.ConfirmationCompletes` | evoagent/service.py:1623-1695 | From every reachable state a confirmation of a draft that nothing disturbs ends with the insight confirmed by its user, with the case there is or a new one, and nothing else changed. |
| `Chat.CrashIsRecovered` | evoagent/service.py:1623-1721 | A confirmation that dies anywhere after its claim can be finished: after a reconciliation, and another confirmation where no case was recorded, the insight is confirmed with one case. |
| `Chat.FailureReleases` | evoagent/service.py:1692-1695 | An error after the claim puts the insight back to draft. |
| `Chat.RejectCompletes` | evoagent/service.py:1483-1493 | An undisturbed reject leaves a draft rejected and changes nothing else. |
| `Chat.StepExclusive` | evoagent/postgres_store.py:758-768 | From a state in which at most one confirmation holds an insight, and holds it out of draft, any step keeps that exactly when it is not the write of a reconciliation that found no case while some confirmation holds the insight. |
| `Chat.ClaimIsExclusive` | evoagent/service.py:1623-1728 | In every interleaving, reconciliations included, the claim is exclusive throughout exactly when no such write ever comes while a confirmation holds the insight. |
| `Chat.StartUpReconciliation` | evoagent/service.py:1697-1721 | A reconciliation that is over before the first confirmation begins leaves the claim exclusive throughout. |
| `Chat.ReconcileFreesClaim` | evoagent/service.py:1708-1721 | A reconciliation beside a live confirmation frees its claim, so that two confirmations hold one insight. |
| `Chat.ConfirmedLeft` | evoagent/postgres_store.py:731-741 | A confirmed insight stops being confirmed exactly by the write of a reject, of a release or of a reconciliation that found no case. |
| `Chat.ReconciledRightly` | evoagent/service.py:1708-1721 | Beside any other requests, what a reconciliation writes is confirmed with its case if it found one and draft otherwise, and is right exactly when it found one or none was recorded since it looked. |
| `Chat.RejectOverConfirmed` | evoagent/service.py:1483-1493 | A run in which a confirmed insight with its case is rejected by a request that had read the draft. |
| `Chat.ChatService.RecordFailureCase` | evoagent/postgres_store.py:500-518 | The case under the source key is found or added, once. |
| `Chat.ChatService.ConfirmChatInsight` | evoagent/service.py:1623-1695 | A draft is confirmed with its case, confirming again changes nothing and names the same case, a failure puts the draft back, and at most one case is added in all. |
| `Chat.ChatService.RejectChatInsight` | evoagent/service.py:1483-1493 | One request at a time: exactly drafts are rejected, and nothing else changes. |
| `Chat.ChatService.ReconcileChatState` | evoagent/service.py:1697-1721 | One request at a time: each listed insight leaves confirming, for confirmed exactly when its case exists and then with that case; no other insight changes. |
| `EvolutionJobs.ExecutionsPaidFor` | evoagent/evolution_controller.py:139-269 | With reads and writes undivided: in every run the retry count stays within the budget and the number of lease acquisitions is at most one plus retries plus resumes, with one still to come while the job is pending. |
| `EvolutionJobs.BoundedExecution` | evoagent/evolution_controller.py:139-269 | So a job never resumed is executed at most max_retries + 1 times, with any number of crashed and late workers. |
| `EvolutionJobs.BoundReached` | evoagent/evolution_controller.py:247-269 | The bound is met: when every lease expires the job runs exactly that often and then fails. |
| `EvolutionJobs.TerminalChanges` | evoagent/evolution_controller.py:139-269 | With the read and the write of each control operation apart: exactly which steps change the status of a completed or cancelled job. |
| `EvolutionJobs.TerminalIsFinal` | evoagent/evolution_controller.py:139-269 | From any state, a completed or cancelled job keeps its status in every continuation if and only if no worker is alive that could report and no control operation still under way would write another status; workers and operations that have died do not count. |
| `EvolutionJobs.CanSettle` | evoagent/evolution_controller.py:139-269 | From every state workers and writes under way can come to an end without changing the job, so the condition for finality can always be reached. |
| `EvolutionJobs.PauseReopens` | evoagent/evolution_controller.py:197-204 | A pause that has read a running job undoes its completion. |
| `EvolutionJobs.LateReportReopens` | evoagent/evolution_controller.py:165-173 | Any completed job with a worker left may fail, and then a retry runs it again exactly if it has retries left. |
| `EvolutionJobs.SplitIsAtomic` | evoagent/evolution_controller.py:197-269 | An interleaved run in which every control write finds the job as it was read is a run of undivided operations, with the same job and as many executions. |
| `EvolutionJobs.FreshExecutionsBounded` | evoagent/evolution_controller.py:139-269 | So the execution bound holds for such interleaved runs. |
| `EvolutionJobs.ClaimsPaidFor` | evoagent/evolution_controller.py:139-269 | In every interleaving, stale writes included, the retry count stays within the budget and each execution beyond the first is paid for by a write that puts the job back in the queue. |
| `EvolutionJobs.StaleRetriesOverdraw` | evoagent/evolution_controller.py:225-238 | With stale writes the budget bounds nothing: for every n there is a run with n + 1 executions, no resume and a retry count of at most one. |
| `EvolutionJobs.EvolutionController.Control` | evoagent/evolution_controller.py:139-238 | Each control operation, undivided, succeeds exactly under its guard, changes its own row as specified and no other. |
| `EvolutionJobs.EvolutionController.Enqueue` | evoagent/evolution_controller.py:78-118 | The existing job is returned exactly when the row under the base key is active; otherwise a new one is made, after which its event has a single active job exactly if it had none before. |
| `EvolutionJobs.OneMoreActive` | evoagent/evolution_controller.py:99-114 | A new active job is the only one of its event exactly if there was none, under whatever key. |
| `EvolutionJobs.EvolutionController.RecoverExpired` | evoagent/evolution_controller.py:247-269 | Every listed job is written as its retry count at listing says, whatever has happened to it since, and none is expired afterwards; where nothing has happened this is the undivided recovery; no other row changes. |
| `SkillArtifacts.SkillArtifactStore.MaxVersion` | evoagent/postgres_store.py:1575-1579 | On numbered versions the maximum is their number. |
| `SkillArtifacts.SkillArtifactStore.SaveSkillArtifact` | evoagent/postgres_store.py:1552-1604 | The new version gets the next number, and an activating save takes the flag from the version that had it. |
| `SkillArtifacts.SavedSound` | evoagent/postgres_store.py:1573-1596 | A save keeps the versions numbered from 1 to n with at most one active. |
| `SkillArtifacts.EnteredFrom` | evoagent/skill_lifecycle.py:40-56 | Where each status is entered from: active from validated and canary only, rolled back only while it runs, archived for good. |
| `SkillArtifacts.SkillArtifactStore.TransitionSkillArtifact` | evoagent/postgres_store.py:1670-1756 | With the life cycle on or off, a transition succeeds exactly under its gate and changes the rows as specified. |
| `SkillArtifacts.TransitionedSound` | evoagent/postgres_store.py:1670-1756 | Every transition keeps the numbering and at most one active version. |
| `SkillArtifacts.SaveKeepsAgreement` | evoagent/postgres_store.py:1564-1596 | After a save flag and status agree exactly when the given status fits the activate flag. |
| `SkillArtifacts.TransitionKeepsAgreement` | evoagent/postgres_store.py:1687-1747 | After a transition they agree exactly when it is not a status change of the active version and, with the life cycle off, took the flag from nobody. |
| `SkillArtifacts.AnsweredAgrees` | evoagent/postgres_store.py:1552-1756 | One request keeps the agreement exactly when it is careful: a save whose status fits its flag; a move that is refused, or does not change the status of the flagged version and, with the life cycle off, takes the flag from nobody. |
| `SkillArtifacts.AgreementExactly` | evoagent/postgres_store.py:1552-1756 | Over any history, status changes through validated, shadow and canary included, flag and status agree throughout if and only if every request is careful when it comes. |
| `SkillArtifacts.SkillArtifactStore.Serve` | evoagent/postgres_store.py:1552-1756 | Over any history of saves, runs, moves and switches each skill keeps versions 1 to n and at most one active, and flag and status agree after every request exactly when every request is careful when it comes. |
| `SkillArtifacts.SkillArtifactStore.PromoteCandidate` | evoagent/rollout.py:70-93 | A promotion goes one stage on exactly for an actor and a version that may, through the store gate. |
| `SkillArtifacts.SkillArtifactStore.RollbackCandidate` | evoagent/rollout.py:95-107 | A rollback sets the status and leaves the flag. |
| `SkillArtifacts.PromotedOrRolledBack` | evoagent/candidate_lifecycle.py:42-79 | Only the deployment controller promotes, a stage at a time, and only the administrator and the rollback policy roll back, a version that runs. |
| `SkillArtifacts.PromotedThrice` | evoagent/rollout.py:70-93 | Three promotions take a validated version into service and retire the one before it; the first two leave service as it was. |
| `SkillArtifacts.RollbackKeepsServing` | evoagent/postgres_store.py:1714-1724 | A rollback never changes which version has the flag, so rolling back the active one breaks the agreement, and only that does. |
| `Utf8.DecodeOfEncode` | evoagent/context_manager.py:257-268 | Every text is decoded from its encoding (sections 3 and 4 of RFC 3629). |
| `Utf8.EncodeOfDecode` | evoagent/context_manager.py:257-268 | Every well-formed sequence is the encoding of what it decodes to, so well-formed sequences are exactly the encodings. |
| `Utf8.TruncateUtf8` | evoagent/context_manager.py:257-268 | The result is the longest well-formed prefix within the limit, for any octets and any limit. |
| `Utf8.BeyondFit` | evoagent/context_manager.py:262-267 | No longer prefix within the limit is well formed: a cut inside a character never decodes. |
| `Utf8.CutKeepsWholeCharacters` | evoagent/context_manager.py:257-268 | On an encoded text it keeps exactly the whole characters that fit, the whole text if it fits, and otherwise ends at most three octets short of a positive limit. |
| `Context.Append` | evoagent/context_manager.py:166-186 | A line is kept whole when it fits, dropped when optional or almost no room is left, else cut to whole characters and closed. |
| `Context.AppendAll` | evoagent/context_manager.py:194-232 | Optional records are packed greedily in order, and the count is that of the records kept. |
| `Context.KeptInOrder` | evoagent/context_manager.py:173-180 | Later records never displace earlier ones. |
| `Context.KeptAll` | evoagent/context_manager.py:173-180 | Everything is kept exactly when everything fits. |
| `Context.RuntimeFits` | evoagent/context_manager.py:161-186 | The runtime part exceeds its octet budget by at most one, and not at all unless the assignment was cut. |
| `Context.HoldsRuntime` | evoagent/context_manager.py:188-234 | What was collected is the specified runtime text, and the truncation flag says exactly that not everything fitted. |
| `Context.ContextManager.constructor` | evoagent/context_manager.py:66-72 | The budgets a context manager accepts. |
| `Context.ContextManager.CollectRuntime` | evoagent/context_manager.py:161-234 | The runtime part in packing order, with the number kept of each kind of record. |
| `Context.ContextManager.Compose` | evoagent/context_manager.py:147-255 | For every input the estimated tokens are within max_tokens, kept plus dropped records are all of them, the text is the composed one cut to whole characters at most, and it is marked compressed exactly when something did not fit. |
| `Context.GuardedFits` | evoagent/context_manager.py:238-245 | The final guard bounds the tokens and ends at most three octets short. |
| `Context.GuardIdle` | evoagent/context_manager.py:235-244 | The final guard leaves the text alone exactly when runtime part, label and diff fit together. |
| `Context.SharesFit` | evoagent/context_manager.py:156-160 | A diff within its share and records fifteen octets short of theirs are never cut. |
| `Context.SharesDoNotFit` | evoagent/context_manager.py:236-240 | Without that slack they are: each part within its own budget, the guard still cuts. |
| `HunkPacking.MarkLines` | evoagent/context_manager.py:343-354 | The priority lines are the first, the risky and their neighbours; the optional ones are the other added lines. |
| `HunkPacking.PriorityExactly` | evoagent/context_manager.py:343-354 | A line comes first exactly if it opens the hunk or is at most one line away from a risky one. |
| `HunkPacking.AddOptional` | evoagent/context_manager.py:355-362 | Optional lines are chosen in order up to the first that exceeds the allowance. |
| `HunkPacking.CompactHunk` | evoagent/context_manager.py:337-378 | Never over the byte budget; quotes selected lines in the order of the hunk, all of them up to the first that does not fit, with a marker in every gap where one fits; nothing below 128 octets. |
| `HunkPacking.QuoteLine` | evoagent/context_manager.py:366-377 | One quoted line keeps order, budget and markers. |
| `HunkPacking.FirstLineOpens` | evoagent/context_manager.py:343-377 | A compacted hunk is nonempty exactly when its first line fits, because that line is always selected and always first. |
| `HunkPacking.CompactedOnce` | evoagent/context_manager.py:337-378 | Lines, budget and risk terms determine the compacted text. |
| `HunkPacking.PickOne` | evoagent/context_manager.py:100-118 | One turn of the greedy loop: the whole hunk exactly when it fits with its header, else its compacted text exactly when 128 octets and its first line fit, else nothing. |
| `HunkPacking.PickHunks` | evoagent/context_manager.py:100-118 | The loop with its early end is the greedy choice over the whole ranked queue. |
| `HunkPacking.HigherFirst` | evoagent/context_manager.py:100 | Every hunk is offered once, the higher score first and of equal scores the earlier. |
| `HunkPacking.FullTakesNothing` | evoagent/context_manager.py:117-118 | Ending at a full budget loses nothing the loop would have taken. |
| `HunkPacking.GreedyTakesAll` | evoagent/context_manager.py:100-108 | When all hunks fit with their headers, all are picked whole. |
| `HunkPacking.GreedyIsSound` | evoagent/context_manager.py:100-118 | Every pick is an excerpt of its hunk, no hunk is picked twice, and used bytes, headers counted once, stay within the budget. |
| `HunkPacking.RenderText` | evoagent/context_manager.py:129-136 | The rendered text has the header of a path wherever the path changes. |
| `HunkPacking.RenderGrows` | evoagent/context_manager.py:129-136 | Before each hunk stands the header of its file, unless the hunk before it is of the same file. |
| `HunkPacking.RenderSize` | evoagent/context_manager.py:129-136 | For all picks the text is as long as its texts, each path's header once, and the headers of the paths returned to. |
| `HunkPacking.RepeatedExactly` | evoagent/context_manager.py:129-136 | No header is repeated if and only if the picks of every path with a header stand together. |
| `HunkPacking.Build` | evoagent/context_manager.py:79-145 | A diff within the budget is returned as it is; otherwise the text is the rendering of the choice, and the omitted files and hunks are those not shown. |
| `HunkPacking.ChosenOnce` | evoagent/context_manager.py:94-128 | Hunks, headers, budget and risk terms determine what a compressed bundle shows. |
| `HunkPacking.BestShown` | evoagent/context_manager.py:100-108 | The best hunk is shown whole whenever it fits with its header. |
| `HunkPacking.BundleWithinBudget` | evoagent/context_manager.py:94-136 | With something picked the hunks stand in diff order, what was counted is within the budget, the text is longer by exactly the headers repeated, and it is at most one octet over the budget when none is, as with one block a path. |
| `HunkPacking.SplitPathPaysTwice` | evoagent/context_manager.py:131-135 | When all hunks fit by what is counted, headers are repeated exactly when the hunks of some path with a header are split by another path. |
| `HunkPacking.NothingFits` | evoagent/context_manager.py:100-118 | Nothing is picked exactly when no hunk fits whole with its header and none has room for 128 octets and its first line. |
| `HunkPacking.FallbackChosen` | evoagent/context_manager.py:120-136 | Exactly then the bundle is the header of the best hunk and its compacted text or first characters. |
| `HunkPacking.FallbackFitsExactly` | evoagent/context_manager.py:120-127 | When that keeps to the budget: with an excerpt exactly if the excerpt made for the whole budget leaves the header its room, which takes a header that leaves less than 128 octets and yet enough for the first line; with first characters exactly if there is no header and the characters taken are in ASCII. |
| `HunkPacking.BundleFitsExactly` | evoagent/context_manager.py:94-136 | With one block a path, the text before stripping keeps to the budget if and only if some hunk fits whole or by its first line, or else the fallback does. |
| `HunkPacking.WideLineExceeds` | evoagent/context_manager.py:124 | One line of 1024 characters of two octets, without a header, gives 2049 octets for a budget of 1024, because characters are sliced. |
| `Fixer.EditLines` | evoagent/ast_fixer.py:115-147 | The bottom-up loop, with its shifting line numbers, as a function of the lines and the confirmed targets. |
| `Fixer.LoopIsRewrite` | evoagent/ast_fixer.py:120-147 | From any point on, while no rule follows the print rule on its line, the loop is the simultaneous rewrite of the original lines. |
| `Fixer.EditsAreRewrite` | evoagent/ast_fixer.py:115-147 | The same for the whole loop. |
| `Fixer.EditInPlace` | evoagent/ast_fixer.py:137-140 | Editing at or above all earlier edits is the same in place and in the rewrite. |
| `Fixer.RewrittenAt` | evoagent/ast_fixer.py:137-140 | Every line not deleted is in the rewrite at its place among the remaining ones, verbatim if not edited. |
| `Fixer.PlanIsBounded` | evoagent/ast_fixer.py:141-147 | Only confirmed lines are edited, at most max_lines + 1 of them. |
| `Fixer.Apply` | evoagent/ast_fixer.py:90-163 | The repaired file with any import it needs, or the original with the reason when it does not parse or compile. |
| `Fixer.RepairIsRewrite` | evoagent/ast_fixer.py:115-151 | A repair is the simultaneous rewrite by at most max_lines + 1 edits of confirmed lines, each a repair of its rule that the rule no longer matches, with the import in front exactly if an edit asked for it and no line left has it. |
| `Fixer.OneEditMore` | evoagent/ast_fixer.py:141-147 | For any limit, file and targets: the limited loop makes as many edits as the unlimited one up to one more than the limit, and makes that one more exactly when the unlimited loop makes more than the limit; exactly then the repair is rejected for too many lines. |
| `Fixer.LoopExactly` | evoagent/ast_fixer.py:115-147 | For any file, rules and descending targets the loop is the simultaneous rewrite after every target if and only if no target for a deleted line finds something to edit in the line that has moved up. |
| `Fixer.SafeExactly` | evoagent/ast_fixer.py:115-147 | Descending targets are safe in this way for every file and all rules if and only if no rule follows the print rule on its line. |
| `Fixer.SafeInEveryOrder` | evoagent/ast_fixer.py:115-147 | For a set of confirmed targets, sorted by line alone: every order is safe for every file if and only if no line has the print rule and another. |
| `Fixer.SecondRuleHitsNextLine` | evoagent/ast_fixer.py:121-140 | After any targets, a rule for a deleted line is applied to the next line left in the file. |
| `Agents.CritiqueAll` | evoagent/agents.py:824-850 | After a round each critique is the verdict on the last finding with its key, and the findings to be revised are exactly those with objections, in order. |
| `Agents.Revise` | evoagent/agents.py:853-887 | A key is revised exactly when one of the answers to a request for it has that key, and then holds the first such answer to the last request that got one. |
| `Agents.RoundMade` | evoagent/agents.py:853-888 | From one round to the next each finding becomes that answer if there is one and otherwise stays as it is. |
| `Agents.Accepted` | evoagent/agents.py:253-284 | The critic accepts exactly the findings on an added line whose evidence stands in it, with an explanation of a dozen characters and a fix and a test of eight; the confidence goes down by 0.35 or up by 0.08 or 0.03, and a grave finding of one source needs more evidence. |
| `Agents.RevisionKeepsAccepted` | evoagent/agents.py:853-888 | With unique keys a revision leaves alone what the critic accepts. |
| `Agents.Deliberate` | evoagent/agents.py:817-893 | The findings of every round: the specialists' in the first, and, while there are objections and rounds left, the answers to the objections in place in the next.  The sequence of keys is kept, the critiques on exit are the verdicts on the findings returned, an early end means no objections, and with unique keys accepted findings stay as they were. |
| `Agents.Reproduce` | evoagent/agents.py:895-904 | Each reproduction is about the last finding with its key. |
| `Agents.ReproducesExactly` | evoagent/agents.py:289-310 | A finding is reproduced by the signature of its rule on the first added line at its place, and without a signature if its evidence stands in that line. |
| `Agents.VerifyAll` | evoagent/agents.py:906-929 | So is each decision, with favourable inputs for stages that were skipped. |
| `Agents.VerifiedSoundly` | evoagent/agents.py:347-362 | A decision approves exactly what the stages that ran accept, with confidence from 0.55 to one, and gives as its reasons exactly what they object to. |
| `Agents.DecisionsSound` | evoagent/agents.py:895-929 | All decisions of a review are of that kind. |
| `Agents.Arbitrate` | evoagent/agents.py:368-382 | The report has one entry for every approved identity, the first finding with it, most severe first and then by path and line, and ties in the order in which they were found. |
| `Agents.SortedKeeps` | evoagent/agents.py:381-382 | Sorting the report orders it and keeps every entry. |
| `Agents.SortedTies` | evoagent/agents.py:381-382 | The sort is stable. |
| `Agents.Review` | evoagent/agents.py:454-474 | The pipeline under any policy: keys kept, sound decisions and their report in order with one entry a key, or the findings themselves without a verifier; with every stage on each reported finding lies on an added line with confidence from 0.55 to 1, and quotes it if the specialists reported no key twice. |
| `Agents.ReportIsVerified` | evoagent/agents.py:368-382 | With all stages on every reported finding lies on an added line with confidence from 0.55 to 1, and with unique keys it quotes its line and is one all agents accept. |
| `Agents.EntryQuotesAsFirst` | evoagent/agents.py:368-382 | Each reported entry quotes its line exactly when the first finding of its key does. |
| `Agents.FirstReportedLastVerified` | evoagent/agents.py:368-382 | For any list of findings everything reported quotes its line if and only if, wherever the last finding of a key is approvable, the first finding of that key quotes. |
| `Replay.Collect` | evoagent/evolution.py:105-111 | One prediction for each key reported, with the highest severity it was reported with. |
| `Replay.MatchOne` | evoagent/evolution.py:116-129 | An expected finding takes the most severe fitting prediction left, if one is left. |
| `Replay.ScoreCase` | evoagent/evolution.py:114-134 | The counts of the greedy matching, with misses, false alarms and severity hits. |
| `Replay.ReplayCase` | evoagent/evolution.py:94-169 | A replay is scored by such a matching of its predictions; a failed one misses everything expected. |
| `Replay.HitsExactly` | evoagent/evolution.py:128-134 | Severity hits are the matched expectations met with at least their minimum severity, high hits those of them that are high or critical, and the high total counts all that are. |
| `Replay.GreedyIsMaximum` | evoagent/evolution.py:116-129 | With particular rules listed before any-rule expectations no matching serves more. |
| `Replay.WildcardTakesRule` | evoagent/evolution.py:121-128 | In every other list there are predictions for which the greedy matching serves fewer. |
| `Replay.MaximumExactly` | evoagent/evolution.py:116-129 | So it is maximum for all predictions exactly when no any-rule expectation precedes another at its place. |
| `Replay.ReplayAccounted` | evoagent/evolution.py:135-169 | Every replay, failed or not, conserves expected and predicted findings. |
| `Replay.TotalsConserve` | evoagent/evolution.py:94-169 | So do the totals, and they are perfect exactly when every case is. |
| `Replay.TotalsAreSums` | evoagent/evolution.py:94-169 | Each total of a dataset is the sum of its own count. |
| `Replay.DatasetCounts` | evoagent/evolution.py:95-97 | How many cases are positive or clean depends on the dataset alone. |
| `Replay.MetricsBounded` | evoagent/evolution.py:171-201 | All rates and the score lie in the unit interval. |
| `Replay.MetricsMean` | evoagent/evolution.py:171-201 | Each rate is the quotient of its own two totals or the value stated for none; the score is thirteen parts F1, three parts severity accuracy and four parts clean accuracy, of those that apply, times the share of replays that worked. |
| `Replay.ScorePerfect` | evoagent/evolution.py:187-197 | The score of a nonempty dataset is one exactly when there was no error, false positive, miss or severity miss. |
| `Replay.Run` | evoagent/evolution.py:79-231 | The metrics of any dataset and reviewer outcomes, with all of the above. |
| `Ratchet.EvolutionEngine.Propose` | evoagent/evolution.py:396-508 | A proposal is decided by the gates against the active prompt, saved, and made active exactly when activated. |
| `Ratchet.EvolutionEngine.ProposeAll` | evoagent/evolution.py:396-508 | Any sequence of proposals, with the number of activations. |
| `Ratchet.ActivatedExactly` | evoagent/evolution.py:396-488 | The gates both ways, metric by metric: a proposal passes exactly if it is new, safe, measured without errors on datasets that are ready, better by min_improvement, on both datasets within max_metric_regression of the baseline in score, precision, recall and high-severity recall, in severity accuracy where there are positive cases and in clean accuracy where there are clean ones, and passed by the quality gates if they are on; in production it is validated, otherwise activated. |
| `Ratchet.CandidateRaises` | evoagent/evolution.py:457-484 | What one passed gate adds: the least improvement to the score, at most one tolerated loss to each protected metric. |
| `Ratchet.EachActivationRaises` | evoagent/evolution.py:396-508 | For every evaluator, if the proposals carry no surrounding white space: after k activations the active validation score is up by at least k times min_improvement, and on validation and holdout cases score, precision, recall, high-severity recall and, where they apply, severity and clean accuracy are each down by at most k times max_metric_regression. |
| `Ratchet.ActivationsBounded` | evoagent/evolution.py:461-485 | So there are at most 1 / min_improvement activations, however many proposals. |
| `Ratchet.UntrimmedLowers` | evoagent/evolution.py:453-508 | The prompt is evaluated as proposed but stored stripped: for every safety check and every prompt with white space around it that passes it, some evaluator lets its activation lower the active score. |
| `Ratchet.RaisesExactly` | evoagent/evolution.py:453-508 | For any safety check: an activated prompt raises the active score under every evaluator if and only if it is stripped already, is the active prompt, or is refused by the check. |
| `Rollout.NextStage` | evoagent/canary.py:10-15 | The first stage above the current percentage. |
| `Rollout.LastStageNeedsNoTasks` | evoagent/canary.py:5-32 | Only the step to full traffic needs no number of tasks. |
| `Rollout.ReleaseManager.ConfigureDeployment` | evoagent/rollout.py:109-117 | A valid configuration replaces the deployment and resets its counters. |
| `Rollout.ReleaseManager.ReadStage` | evoagent/rollout.py:19-31 | The read of an advance: the next stage exactly when a running, unpaused canary may go there. |
| `Rollout.ReleaseManager.WriteStage` | evoagent/postgres_store.py:2061-2081 | Its write: the percentage, and active at full traffic, whatever the deployment has become. |
| `Rollout.ReleaseManager.AdvanceCanary` | evoagent/rollout.py:14-34 | With nothing between the two, a running, unpaused canary goes one stage on exactly when it may. |
| `Rollout.ReleaseManager.RollBack` | evoagent/postgres_store.py:2082-2101 | A rollback stops all traffic. |
| `Rollout.ReleaseManager.RecordResult` | evoagent/postgres_store.py:2103-2123 | A canary result is counted, and the deployment rolled back exactly when it is then over its error budget. |
| `Rollout.ObservedExactly` | evoagent/postgres_store.py:2103-2123 | A result counts one sample, and one error if it failed; a running deployment with enough samples and more errors than its rate allows is then rolled back, and nothing else changes. |
| `Rollout.ReleaseManager.RecordShadow` | evoagent/postgres_store.py:2125-2175 | A shadow observation is counted, and the candidate promoted exactly when all its conditions hold. |
| `Rollout.ShadowObservedExactly` | evoagent/postgres_store.py:2125-2175 | A shadow observation counts one sample, and one disagreement if there was any; a running deployment that meets every condition then serves the candidate, and nothing else changes. |
| `Rollout.StepKeepsSound` | evoagent/postgres_store.py:2021-2175 | Every step, the write of a stale advance included: errors never exceed samples, disagreements never shadow samples, and a running deployment has too few samples to judge or is within its error budget. |
| `Rollout.EveryObservationCounted` | evoagent/postgres_store.py:2103-2175 | Over any interleaving without a configuration each observation is counted exactly once. |
| `Rollout.StepGoesOn` | evoagent/rollout.py:14-165 | One step goes on, from a status to itself or onward, with running traffic not shrunk and a stopped deployment without traffic left so, exactly unless it is a harmful write of an advance. |
| `Rollout.RunGoesOnExactly` | evoagent/rollout.py:14-165 | Over any interleaving of requests, reads and writes without a configuration, and from any advances under way: a deployment only goes on if and only if no advance writes a smaller percentage to a running deployment, 100 per cent to a stopped one, or any to a stopped one without traffic. |
| `Rollout.SharesServed` | evoagent/rollout.py:119-130 | Exactly the configured shares of the hundred buckets are in the canary lane and shadowed while the deployment runs, and none otherwise. |
| `Rollout.CanaryLaneIsSticky` | evoagent/rollout.py:119-130 | Over the same runs, every key in the canary lane stays there while the deployment runs if and only if no advance writes a smaller percentage to a running deployment. |
| `Rollout.StaleAdvanceRevives` | evoagent/rollout.py:19-33 | Any advance that has read a deployment before a rollback revives it: active at full traffic, or rolled back with traffic. |
| `Rollout.StaleAdvanceShrinks` | evoagent/rollout.py:19-33 | Of two advances that read 5 per cent, the later write takes running traffic from 50 back to 20, and bucket 30 leaves the lane. |
| `Rollout.PauseOvertaken` | evoagent/rollout.py:22-33 | A pause does not stop an advance that has read the deployment before. |

## Left out

- Splitting text into lines: fixer and hunk compaction start from lines.  Python splits at more characters than a
  syntax tree counts lines by, so the numbers of the fixer can be off in such files.
- `DiffText.ParseOfText`: for texts in which no stray line looks like a file or hunk header, because such a line can
  move the numbers anywhere, right ones included; for all texts `DiffText.WrongTexts` gives what is necessary.  File names
  without line boundaries, which diff programs quote.
- Regular expressions, rule tables, Python's own parser and compiler, the safety check and the quality gates are
  parameters; so are hash buckets.  Finding keys are taken to be injective in path, line and rule.
- Upper-casing in the matcher is that of ASCII letters, and the table from rules to CWE numbers is a parameter.
- Rounding: scores are exact reals.  The 85 per cent of the compaction allowance is rounded down exactly.
- JSON rendering of records: `Context` starts from rendered texts without lone surrogates.
- Diff headers, hunks and their scores: `HunkPacking` starts from the parsed hunks in diff order; scores count quarters.
- Omitted files are a set; their order is not modelled.
- SQL and Redis: a statement is an atomic step.  A store write that commits but reports an error is not modelled.
- The Redis, chat and job protocols are modelled on values, not on shared objects, because what matters there is the
  interleaving of many processes; the same operations one at a time are also modelled as classes.
- Malformed queue envelopes, and the recovery manager, whose updates may change a state.
- `Runtime.Lifetime`, `Harness.Life`: runs of a task follow one another; runs that overlap, as they may when a lease
  expires under a live worker, are in `Deliveries`, without their trace steps and attempt numbers.
- `Rollout.ReleaseManager.AdvanceCanary`: the read and the write with nothing in between; what comes in between is in
  `Rollout.RunGoesOnExactly` and `Rollout.CanaryLaneIsSticky`.
- `SkillArtifacts.SkillArtifactStore.PromoteCandidate`, `SkillArtifacts.SkillArtifactStore.RollbackCandidate`: the status is
  read and the gated move made with nothing in between; the store checks its gate again under its lock, and
  `SkillArtifacts.AgreementExactly` has moves in any order.
- `Ratchet.EvolutionEngine.Propose`: one engine, whose lock (evoagent/evolution.py:393) keeps proposals apart; two
  processes on one store are not modelled.
- `Runtime.AgentRuntime.Attempt`: an event sink that raises is not modelled; after a completed write it would have the
  row rewritten as failed.  The review harness passes no event sink (evoagent/harness.py:100-110).
- `Chat.ChatService.RejectChatInsight`: one request at a time; the unguarded write beside other requests is in
  `Chat.ConfirmedLeft` and `Chat.RejectedWithCase`.
- `Chat.ChatService.ReconcileChatState`: one request at a time; a case recorded between look-up and write is in
  `Chat.ReconciledRightly`.
- `EvolutionJobs.ExecutionsPaidFor`, `EvolutionJobs.BoundedExecution`: for undivided control operations, because both
  fail otherwise, as `EvolutionJobs.StaleRetriesOverdraw` shows; `EvolutionJobs.SplitIsAtomic` says when they carry over.
- `EvolutionJobs.EvolutionController.Control`: the read and the write of one operation with nothing in between; what
  comes in between is in `EvolutionJobs.TerminalIsFinal` and `EvolutionJobs.ClaimsPaidFor`.
- `Ratchet.EachActivationRaises`: for proposals without surrounding white space only, because an activation of any
  other can lower the score, as `Ratchet.RaisesExactly` shows.
- Clocks: a lease is expired, a run out of time or cancelled when a step says so.
- Findings are values.  The arbiter sets the confidence of a shared object; here it sets that of the entry it reports.
- Revision answers are a function of round and place; agents that cannot be asked answer nothing.
- Configuring a deployment directly as rolled back with traffic left on; assignment sends it none in any case.
- `Agents.ReportIsVerified`: quoting is proved for unique keys only, because it is false otherwise, as
  `Agents.FirstReportedLastVerified` shows.
- The skill evolution engine, whose gates repeat those of the prompt engine, reflection, memory, policies and tools.
- The agent loop inside one specialist, planning and reassignment of specialists.
- HTTP, login, GitHub and model clients, the sandbox, report rendering, metrics and tracing.
