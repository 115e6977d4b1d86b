# Verified model of the coding-agent service

A Dafny 4.11 model of the parts of the repository where state outlives a process: the leased job queue, the agent
loop and its feature workflow, the patch engine, token accounting, and the ingestion of GitLab events into issue
sessions. Each part is modelled with the branches, guards and constants of its source, in the source's own form:
classes whose methods update tables and fields, proved against functions on values, and lemmas about every run of
those functions.

`dafny verify dfyconfig.toml` checks everything.

## Parts

| files | source | subject |
|---|---|---|
| `JobModels`, `JobStore`, `JobClients` | `src/gca/jobs/` | job objects, the transition table, the SQLite job table, the queue, the runner and the merge clean-up as its clients |
| `JobSystem`, `JobLaws`, `JobRefinement`, `LeaseTiming` | `src/gca/jobs/store.py`, `src/gca_service/worker.py` | the table under concurrent clients with stale copies: fencing, exclusion, histories, attempts, heartbeats; what each transaction writes; the store as an implementation of the system |
| `Text`, `PatchParse`, `PatchPrint`, `PatchRoundTrip` | `src/gca/tools/patch.py` | reading unified diffs, and a printer the reader is proved to undo |
| `PatchForms`, `PatchWrapping`, `PatchReading` | `src/gca/tools/patch.py` | every other form a diff may take and whatever surrounds it |
| `PatchApply`, `PatchFiles`, `PatchBalance`, `PatchDiff` | `src/gca/tools/patch.py` | locating and splicing hunks, whole patches on a workspace, what they add and remove, diffs of trees |
| `AgentSystem`, `AgentRuns`, `AgentOutcome`, `AgentEnds`, `Agent` | `src/gca/agent.py` | conversations, the loop as steps with crashes, what a run saves as a function of model and tools, how it ends, and the loop itself as a run of those steps |
| `FeatureModels`, `Feature` | `src/gca/orchestrator.py` | planning, implementation and review under one step budget, with restarts after any save |
| `Usage` | `src/gca/usage.py` | token totals |
| `IssueModels`, `IssueIngestion`, `IssueStore`, `IssueSystem`, `IssueLaws`, `IssueWork` | `src/gca/issue_sessions/` | the issue-session tables and indexes, one event in one transaction, every run of the transactions, and what each command, hook and comment does and who may give it |

## How the parts are stated

- One SQL transaction is one step. A client of the job table is a copy with the place in the commit log it was read at;
  the log is written by every commit and read by no step. Every call on the store class is proved to be such a step
  (`JobRefinement`).
- Time is a real number that never goes back. Identifiers are values: for jobs they are given, for issue sessions they
  come from a counter that belongs to the database, so a rolled-back transaction gives its ids back.
- The model, the tools, the publisher and the phase agents are functions or values passed in, and the theorems hold for
  all of them. The agent's calls are assumed to have new, distinct, non-empty ids, as the source relies on. What a phase
  agent may save (`AgentRuns.SavesOf`) is proved of what the agent saves (`AgentOutcome.RunSavesWell`, `AgentLoop.Agent.Run`),
  and the agent of the code is shown to be one of those the workflow is proved for (`Feature.CodeAgentObeys`).
- The printed format is the unified format of POSIX.1-2017 `diff`, section "Diff -u or -U Output Format".

## Where the code does not do what it says

- `SqliteJobQueue.enqueue` is described as queueing new, paused or failed jobs. The transition table also lets it take
  running and publishing jobs from their workers (`JobSystem.EnqueueTakesAnyUnfinishedJob`,
  `JobSystem.RunningJobIsTaken`).
- A patch is described as atomic. Deleting one file twice stops after the first deletion, and that is the only exception
  (`PatchFiles.AllOrNothing`, `PatchFiles.DoubleDeletion`).
- Two patches for one path do not compose (`PatchFiles.LastPatchWins`, `PatchFiles.FirstIsLost`,
  `PatchBalance.FirstIsLostUnlessBalanced`).
- A hunk without old lines goes one line earlier than POSIX puts it (`PatchApply.InsertionPlace`, `PatchApply.InsertedBefore`).
- A removed line that starts with `-- ` reads as a file header, and trailing blanks of the last line are lost
  (`PatchRoundTrip.RoundTrip`, `PatchRoundTrip.DashesAreLost`, `PatchRoundTrip.BlankIsLost`).
- A file that would end in an empty line loses it (`PatchApply.TextFollowsLines`, `PatchApply.EmptyLineIsLost`).
- A failed pipeline never queues a turn by itself: the branch for it stands behind a branch that answers first
  (src/gca/issue_sessions/ingestion.py:575-578, `IssueSystem.PipelineHasNoSay`, `IssueSystem.FailedPipelineQueuesNothing`).
- Remediation asks whether the generation awaits its merge before its transaction and not again within it, so it can
  queue a turn for a session that completed in between (`IssueSystem.RemediationRevives`, `IssueSystem.RevivedAfterMerge`).

## Model

| member | source | states |
|---|---|---|
| JobModels.TransitionJob | src/gca/jobs/lifecycle.py:34-51 | A move is refused exactly when the table has no such edge and the job is untouched; otherwise status, error, time and lease fields change together, and leaving the active states drops the lease |
| JobModels.Job.Reclaim | src/gca/jobs/store.py:345-353 | A worker loses its job to the queue while attempts remain and to failure after the last one, with the matching error |
| JobStore.SqliteJobStore.Create | src/gca/jobs/store.py:61-123 | Invalid arguments are refused; a key in use answers with the stored job if its specification is the same and with a conflict otherwise, and changes no row; with no key, or one no row has, the job is inserted, field by field, and returned, unless its id is taken |
| JobStore.SqliteJobStore.FindByIdempotency | src/gca/jobs/store.py:171-178 | Finds a row with the key, and reports none only when no row has it |
| JobStore.SqliteJobStore.Save | src/gca/jobs/store.py:125-160 | Commits exactly when the row has the version of the copy; an active save leaves both lease columns to the heartbeats; a refused save changes no row |
| JobStore.SqliteJobStore.ClaimNext | src/gca/jobs/store.py:254-287 | Claims the oldest due queued row of an idle repository, and claims nothing only when no row is claimable |
| JobStore.SqliteJobStore.Claim | src/gca/jobs/store.py:289-321 | Claims the named row exactly when it is queued, due and its repository idle |
| JobStore.SqliteJobStore.ClaimRow | src/gca/jobs/store.py:513-555 | The guarded update writes row and JSON image together, or nothing |
| JobStore.SqliteJobStore.RequeueExpired | src/gca/jobs/store.py:323-374 | The loop of guarded updates equals taking every expired row at once, and counts the rows it took |
| JobStore.SqliteJobStore.ExpireRow | src/gca/jobs/store.py:344-372 | One row of the sweep is taken exactly when it is expired and its version unchanged |
| JobStore.SqliteJobStore.TouchLease | src/gca/jobs/store.py:389-434 | Renews column and JSON deadline without a version bump, exactly for the worker that holds an active row |
| JobStore.SqliteJobStore.ReleaseLease | src/gca/jobs/store.py:436-492 | Gives a row back exactly when this worker holds it; any other row is left alone |
| JobStore.SqliteJobStore.ForceRequeue | src/gca/jobs/store.py:494-511 | An operator takes any active row through an ordinary optimistic save, and fails otherwise without a change |
| JobClients.SqliteJobQueue.Enqueue | src/gca/jobs/queue.py:46-56 | Requeues exactly the jobs that the transition table lets back into the queue, with the new due time; everything else is refused unchanged |
| JobClients.SqliteJobQueue.Claim | src/gca/jobs/queue.py:58-62 | Sweeps expired rows first, then claims the oldest due row of what the sweep left |
| JobClients.SqliteJobQueue.Ack | src/gca/jobs/queue.py:76-83 | Clears the lease of a finished or paused job, and refuses queued and active ones |
| JobClients.JobRunner.Execute | src/gca/jobs/runner.py:104-157 | A worker that holds its job to the end always leaves it settled and unleased, in the status its work calls for, whatever fails on the way; one that had lost it, or is overtaken between two saves, changes no row from then on and sees an exception |
| JobClients.JobRunner.SaveJob | src/gca/jobs/runner.py:129-130 | A save of the run lands exactly when no other client has committed to the row since |
| JobClients.JobRunner.Prepare | src/gca/jobs/runner.py:112-137 | Each stage saves from the copy; reaching the result means the job is still held |
| JobClients.JobRunner.ApplyResult | src/gca/jobs/runner.py:256-369 | Every outcome, with draft publication on pause, settles the job or breaks off with the row still consistent with the copy |
| JobClients.JobRunner.HandleFailure | src/gca/jobs/runner.py:371-387 | A transient failure with attempts left goes back to the queue after the retry delay, any other one fails the job, and a lost job stays untouched |
| JobClients.CancelForMerge | src/gca/jobs/merge_cleanup.py:77-92 | A merge cancels a matched job exactly when its copy is current and the table allows it; publishing jobs are never cancelled |
| JobClients.FirstFailureEnds | src/gca/jobs/runner.py:104-148 | The stages of a run fail in their order: checkout, setup, agent |
| JobClients.ResultEnds | src/gca/jobs/runner.py:256-369 | What each result of the agent comes to, with and without publication: completed, paused, failed, or the exception that broke it off |
| JobLaws.EveryMove | src/gca/jobs/lifecycle.py:7-27 | The transition table, edge by edge |
| JobLaws.MoveWrites | src/gca/jobs/lifecycle.py:34-51 | What a move writes: status, time, error and, when it leaves the active states, an empty lease |
| JobLaws.ClaimWrites | src/gca/jobs/store.py:513-555 | A claim is granted exactly to a due queued job of an idle repository, counts an attempt, clears the error and sets owner and deadline; otherwise no row changes |
| JobLaws.SweepWrites | src/gca/jobs/store.py:323-374 | A sweep takes exactly the active jobs whose deadline has passed, to the queue or to failure with its error, and spares the others |
| JobLaws.ReleaseWrites | src/gca/jobs/store.py:436-492 | A worker gives back exactly the job it holds, to the queue or to failure, with the matching error |
| JobLaws.TouchWrites | src/gca/jobs/store.py:389-434 | A heartbeat moves the deadline in column and image for the holder, and nothing else |
| JobLaws.ForceWrites | src/gca/jobs/store.py:494-511 | An operator takes any active job, whoever holds it, to the queue or to failure, with the matching error |
| JobLaws.SaveWrites | src/gca/jobs/store.py:125-160 | A save that lands writes the copy and leaves the lease columns of an active row to the heartbeats; one that does not changes no row |
| JobSystem.OneRowPerKey | src/gca/jobs/store.py:75-118 | Idempotency: in every run a key has at most one row |
| JobSystem.MutualExclusion | src/gca/jobs/store.py:254-321 | In every reachable state at most one job per repository is active |
| JobSystem.OnlyClaimsActivate | src/gca/jobs/store.py:513-555 | Only a claim of that job turns an inactive row active, whatever stale or edited copies are saved |
| JobSystem.SaveLandsIffOnlyTouched | src/gca/jobs/store.py:125-160 | Fencing: in every run a save commits exactly when nothing but heartbeats committed since the copy was read or last saved |
| JobSystem.FencedForever | src/gca/jobs/store.py:139-158 | Once something else has committed behind a copy, no write of it lands in any continuation until the job is read again |
| JobSystem.TakingFences | src/gca/jobs/store.py:323-374 | Expiry, release, a new claim or a foreign save fences every copy that is out |
| JobSystem.EqualVersionsAgree | src/gca/jobs/store.py:125-160 | Two copies of one job read at the same version agree on everything heartbeats do not write |
| JobSystem.ColumnsAgree | src/gca/jobs/store.py:139-158 | In every run the columns of a row agree with its JSON image, and active means both lease columns are set |
| JobSystem.HistoryIsPath | src/gca/jobs/lifecycle.py:7-27 | A commit history, unsaved moves of its writers included, is a path in the transition table |
| JobSystem.EveryHistoryIsPath | src/gca/jobs/lifecycle.py:7-27 | In every run each row ends a path through the transition table that began in the queue, although three writers set statuses directly |
| JobSystem.FinalForever | src/gca/jobs/lifecycle.py:25-26 | Completed and cancelled jobs never change status again, whatever copies exist |
| JobSystem.AttemptsBounded | src/gca/jobs/store.py:521-524 | The attempt counter counts the claims, and exceeds the maximum only by explicit re-enqueues |
| JobSystem.EnqueueTakesAnyUnfinishedJob | src/gca/jobs/queue.py:46-56 | Where code and comment differ: an undisturbed enqueue queues every job but completed and cancelled ones, running ones included |
| JobSystem.RunningJobIsTaken | src/gca/jobs/queue.py:46-56 | A run of that family: a job is claimed, enqueued, and its worker has lost it |
| JobRefinement.TrackedStore.Create | src/gca/jobs/store.py:61-123 | The table after any calls on the store is that of a run of the job system: a creation is its creation step exactly when the arguments are valid and neither key nor id is taken, and a key in use has one row, which decides the answer |
| JobRefinement.TrackedStore.Save | src/gca/jobs/store.py:125-160 | A save from an object that is a client's copy is the saving step of that client, refused saves included, and the object is still the copy afterwards |
| JobRefinement.TrackedStore.Transition | src/gca/jobs/lifecycle.py:34-51 | A validated move of an object, refused or not, is an edit step of its client |
| JobRefinement.TrackedStore.ClaimNext | src/gca/jobs/store.py:254-287 | Claiming the oldest due job is the claim step of that job, and the worker gets the client's copy |
| JobRefinement.TrackedStore.Claim | src/gca/jobs/store.py:289-321 | Claiming a named job is its claim step, granted or not |
| JobRefinement.TrackedStore.RequeueExpired | src/gca/jobs/store.py:323-374 | The sweep is the expiry step |
| JobRefinement.TrackedStore.TouchLease | src/gca/jobs/store.py:389-434 | A heartbeat is the touch step, granted or not |
| JobRefinement.TrackedStore.ReleaseLease | src/gca/jobs/store.py:436-492 | A release is the release step, granted or not |
| JobRefinement.TrackedStore.ForceRequeue | src/gca/jobs/store.py:494-511 | The operator's reclaim is a read, an edit and a save of one client with nothing in between, or no step |
| JobRefinement.TrackedStore.OneWorker | src/gca/jobs/store.py:254-321 | After any calls on the store at most one job per repository is active in its rows |
| LeaseTiming.JsonTrailsColumn | src/gca/jobs/store.py:139-158 | For one lease length the JSON deadline never exceeds the column, which is the last beat plus the lease |
| LeaseTiming.SlackIsTwoThirds | src/gca_service/worker.py:62-65 | The heartbeat interval leaves at least two thirds of the lease as slack |
| LeaseTiming.PunctualWorkerKeepsJob | src/gca_service/worker.py:62-81 | A worker whose heartbeats commit less than the lease minus the interval late never loses its job to a sweep, for any number of beats and saves |
| PatchParse.NormalizeDiffText | src/gca/tools/patch.py:80-98 | The clean-up loop computes the specified normal form of fences, preamble and blanks |
| PatchParse.ParseUnifiedDiff | src/gca/tools/patch.py:101-180 | The index-driven loop with its hunk buffers computes the recursive reading of the lines, errors included |
| PatchParse.FlushHunk | src/gca/tools/patch.py:112-118 | With an open hunk and a current file, only that file changes and gains exactly this hunk at its end; otherwise nothing changes |
| PatchPrint.PathReadsBack | src/gca/tools/patch.py:68-77 | A printed path, or /dev/null, is read back |
| PatchPrint.HeaderReadsBack | src/gca/tools/patch.py:183-195 | The start line of a printed hunk header is read back, whatever its other three numbers |
| PatchPrint.FilesReadBack | src/gca/tools/patch.py:101-180 | Printed files are read back to their paths, start lines and both sides, after any prefix of the walk |
| PatchPrint.HiddenHeaderShows | src/gca/tools/patch.py:123-135 | With a removed line that starts with `-- ` the parser cannot report as many files as were printed |
| PatchPrint.LinesRoundTrip | src/gca/tools/patch.py:101-180 | Line by line, parsing undoes printing if and only if no removed line starts with `-- ` |
| PatchRoundTrip.ParsesTrimmed | src/gca/tools/patch.py:80-104 | For every printed diff, parsing the text reads the edits that are left after trimming its end |
| PatchRoundTrip.TrimmedMeaning | src/gca/tools/patch.py:98 | Trimming keeps the meaning of a diff exactly when its last line does not end in white space |
| PatchRoundTrip.RoundTrip | src/gca/tools/patch.py:80-195 | Parsing the printed text gives back the edits if and only if no removed line starts with `-- ` and the last line does not end in white space |
| PatchRoundTrip.DashesAreLost | src/gca/tools/patch.py:123-135 | Every diff with a removed line that starts with `-- ` anywhere is misread |
| PatchRoundTrip.BlankIsLost | src/gca/tools/patch.py:98 | Every diff that ends in a blank line of context is misread |
| PatchForms.MarkReads | src/gca/tools/patch.py:68-77 | A path is read with either prefix or with none, and /dev/null as no path |
| PatchForms.HeaderReads | src/gca/tools/patch.py:183-195 | The start line is read from a hunk header with or without a count and whatever follows the first range, headings included |
| PatchForms.FormLinesRead | src/gca/tools/patch.py:101-180 | Line by line, blank context lines left empty, backslash remarks, prose between files and any header are read as they are meant, if and only if no removed line starts with `-- ` |
| PatchForms.ReadingFails | src/gca/tools/patch.py:119-180 | A diff cannot be read exactly when some old header has no new one, some hunk header has no number or stands before any file, or there is no file header |
| PatchWrapping.WrappersVanish | src/gca/tools/patch.py:80-104 | A code fence, git's extended headers anywhere and breaks of two characters make no difference to what is parsed |
| PatchReading.TrimCosts | src/gca/tools/patch.py:98 | Trimming the end of a body loses something of its sides exactly when its last line is no remark and ends in white space |
| PatchReading.AnyFormReads | src/gca/tools/patch.py:80-195 | Any form of a diff in any wrapping is read as it is meant if and only if no removed line starts with `-- ` and its last line, remarks aside, does not end in white space |
| PatchApply.Locate | src/gca/tools/patch.py:198-216 | The search loop computes the specified place |
| PatchApply.LocatedMeaning | src/gca/tools/patch.py:198-216 | The place is the guess if the lines stand there, else their first place in the window; the search fails exactly when there is none; an empty needle is clamped |
| PatchApply.ApplyHunks | src/gca/tools/patch.py:219-233 | The in-place loop with its running offset computes the specified text |
| PatchApply.SequentialIsSimultaneous | src/gca/tools/patch.py:224-229 | For ascending hunks that stand at their declared starts the loop replaces all ranges of the original at once |
| PatchApply.SwappedRestores | src/gca/tools/patch.py:219-229 | Swapping the sides of the hunks, with shifted starts, restores the original lines |
| PatchApply.InsertionPlace | src/gca/tools/patch.py:201-202 | A hunk without old lines agrees with the POSIX place if and only if it is at the top or every inserted line equals the line it is put before |
| PatchApply.InsertedBefore | src/gca/tools/patch.py:201-202 | A line to go after the only line of a file ends up before it |
| PatchApply.RenderedReadsBack | src/gca/tools/patch.py:222-233 | Reading a written file gives its lines back if and only if the last line is not empty |
| PatchApply.TextFollowsLines | src/gca/tools/patch.py:219-233 | Patching a file of whole lines is patching its lines, if and only if the new file does not end in an empty line |
| PatchApply.UnfinishedStays | src/gca/tools/patch.py:219-233 | A file that does not end in a line feed is patched line by line and does not gain one |
| PatchApply.EmptyLineIsLost | src/gca/tools/patch.py:230-233 | A file whose only line becomes empty is left without any line |
| PatchFiles.Workspace.ApplyPatch | src/gca/tools/patch.py:243-287 | Parse, plan and write together give the specified disk and summary |
| PatchFiles.Workspace.Plan | src/gca/tools/patch.py:249-273 | A planned change is about the target of the file patch, deletes exactly for deletions, names a file that is there unless it is created, and writes accepted content that the hunks make of the text on disk; each refusal has its exact reason |
| PatchFiles.Workspace.WriteAll | src/gca/tools/patch.py:275-287 | The write loop gives the specified disk and notes, and stops where a file to delete is gone |
| PatchFiles.SummaryTells | src/gca/tools/patch.py:275-287 | The summary has one note for each change in order, and tells files that were there from new ones |
| PatchFiles.WritesFail | src/gca/tools/patch.py:277-281 | The writes stop exactly when a deletion meets a file that is missing or deleted before and not written since |
| PatchFiles.AllOrNothing | src/gca/tools/patch.py:243-287 | A patch succeeds or leaves the disk as it was if and only if it is not the case that every file patch can be planned and one file is deleted twice; with distinct targets it always does |
| PatchFiles.DoubleDeletion | src/gca/tools/patch.py:277-281 | The patch that deletes one file twice fails with the file gone |
| PatchFiles.LastPatchWins | src/gca/tools/patch.py:247-287 | Each named file is what the last patch about it makes of the original disk, and every other file is as before |
| PatchFiles.AnyOrder | src/gca/tools/patch.py:243-287 | With distinct targets a patch equals its file patches applied singly in any order |
| PatchFiles.FirstIsLost | src/gca/tools/patch.py:249-273 | Of two patches that each replace one line of a file the first is lost; the batch equals applying them singly if and only if the first changes nothing |
| PatchBalance.LinesBalance | src/gca/tools/patch.py:219-233 | Wherever hunks go, the patched file has the lines of the old one, less those the hunks take out and with those they put in, each as often |
| PatchBalance.TextBalance | src/gca/tools/patch.py:219-233 | The same of texts: of every line but the empty one the written file has as many as the old file, less those taken out and with those put in, whatever breaks and final newline the file had |
| PatchBalance.FirstIsLostUnlessBalanced | src/gca/tools/patch.py:249-273 | Any two patches of any file: the batch equals applying them singly only if the first takes out every line but the empty one as often as it puts it in; a first patch that adds or removes any other line is lost |
| PatchDiff.DiffApplies | src/gca/tools/patch.py:219-229 | The hunks of a diff of two files turn the lines of the first into those of the second |
| PatchDiff.DiffUpgrades | src/gca/tools/patch.py:243-287 | Printing the diff of two trees of files and applying the text turns the first tree into the second |
| PatchDiff.ThereAndBack | src/gca/tools/patch.py:243-287 | Applying a printed diff and then its reverse leaves the workspace as it was |
| AgentSystem.PendingIsOpen | src/gca/agent.py:160-172 | The pending calls are exactly the unanswered tail of the last block, in order |
| AgentSystem.ScansAsBlocks | src/gca/agent.py:104-150 | Every conversation of the agent is a sequence of blocks, of which only the last may have open calls |
| AgentRuns.StepKeeps | src/gca/agent.py:90-204 | The invariant between memory, disk and effects survives every step, crashes included |
| AgentRuns.ExecutedOnce | src/gca/agent.py:174-204 | Over any run with crashes anywhere no call is executed twice, every executed call is answered on disk or in flight there, and none is pending again |
| AgentRuns.HistoriesAreBlocks | src/gca/agent.py:104-120 | Every history given to the model is its prompt and whole blocks of one assistant message and all its answers in order |
| AgentRuns.StepsAreTurns | src/gca/agent.py:110-132 | The step counter is the number of assistant messages and stays within the limits of the runs |
| AgentRuns.LosesAtMostOne | src/gca/agent.py:85-88 | A crash loses at most one message |
| AgentRuns.EndedStays | src/gca/agent.py:92-93 | A completed or failed session is never asked, executed or changed again |
| AgentRuns.InterruptedFails | src/gca/agent.py:94-101 | With a call in flight on disk nothing is asked or executed any more, and the session can only fail |
| AgentLoop.Agent.Run | src/gca/agent.py:90-150 | For every model that names its calls freshly, the loop stops, is a run of the step system, keeps to its step limit, and saves exactly the sessions that model and tools determine; which call ends it and how is stated tool by tool |
| AgentEnds.RunEnds | src/gca/agent.py:90-204 | Each call that is marked is answered by its tool; a fatal result and an accepted `fail_turn` fail the run, `needs_human` pauses it, `finish`, `changes_ready` and `no_safe_change` complete it, each at once and with its output as final message; no other call ends it, and otherwise it ends only with an answer without calls or the budget, when nothing is pending |
| AgentEnds.BatchCarried | src/gca/agent.py:174-204 | The same within a batch: it ends the run with the first call that may, or leaves the session active |
| AgentOutcome.RunSavesWell | src/gca/agent.py:90-204 | From any active session with a true step count, what a run saves are active sessions with growing step counts within the limit, and then its end |
| AgentOutcome.BatchEmpties | src/gca/agent.py:174-204 | A batch that does not end the run leaves no call pending, whatever the ids |
| AgentOutcome.ChatterNamesFresh | src/gca/agent.py:117-138 | There is a model that always calls a tool and names every call freshly |
| AgentLoop.Agent.RunToolCalls | src/gca/agent.py:174-204 | A batch is marked, executed, answered and saved call by call; it ends the run or leaves nothing pending, and ends it exactly with the calls that may, in their status |
| AgentLoop.Agent.Recover | src/gca/agent.py:85-88 | A crash loses only what was in memory |
| Feature.RunCoordinator.SavePhase | src/gca/orchestrator.py:60-86 | A phase save copies the child into its record, follows a failover in record and binding, re-sums the steps, merges the usage of the child and clears it |
| Feature.RunCoordinator.WorkAndSave | src/gca/orchestrator.py:60-86 | Between two saves the parent gains exactly the completions received, because the child was cleared at the save before |
| Feature.CodeAgentObeys | src/gca/orchestrator.py:500-513 | The agent of the code, with any models and tools, is one that the workflow is proved for |
| Feature.RunCoordinator.RunPhase | src/gca/orchestrator.py:433-516 | A phase takes at most its allotment of steps, a first implementation started with r steps left leaves min(reserve, r - 1), the record is last, and the usage added is exactly that of its completions however often it saves |
| Feature.RunCoordinator.RunAgent | src/gca/orchestrator.py:469-516 | The agent is run on the session of the record with its allotment as limit; every save of it is made and ends up in the record, with the extra save after it, which adds nothing |
| Feature.RunCoordinator.RunFeature | src/gca/orchestrator.py:321-431 | The loop always stops, every state it saves is durable and within the budget, and each ending has its reason: an approved review, a spent budget or paused run, a failed run or one that hands over neither the argument its phase is for nor, where that is missing, a final message; the workflow's final message says which |
| Feature.RunCoordinator.Proceed | src/gca/orchestrator.py:343-425 | After a phase the workflow ends for a reason, or it comes closer to its end in cycles, phases or steps |
| Feature.RunCoordinator.PauseOrResume | src/gca/orchestrator.py:343-365 | A paused review is resumed at once exactly when it has used steps and some are left; anything else pauses the workflow |
| Feature.RunCoordinator.FinishPhase | src/gca/orchestrator.py:369-425 | Planning and implementation end the workflow if and only if the finish argument, or the final message where it is missing, is blank; a review ends it if and only if it does not request changes with a summary or no rework cycle is left, and completes it if and only if it approves; otherwise the result is handed on to the next phase of the schedule |
| Feature.RunCoordinator.FinishPlanning | src/gca/orchestrator.py:369-377 | Planning fails exactly when the plan and, where it is missing, the final message are blank, and says so; otherwise the plan is handed to implementation and nothing else changes |
| Feature.RunCoordinator.FinishImplementation | src/gca/orchestrator.py:378-391 | Implementation fails exactly when the summary and, where it is missing, the final message are blank, and says so; otherwise the summary is handed to review and nothing else changes |
| Feature.RunCoordinator.Conclude | src/gca/orchestrator.py:405-425 | A review with a verdict and a summary completes the workflow, fails it when no rework cycle is left, or begins the next cycle with its feedback |
| Feature.AllotmentIs | src/gca/orchestrator.py:480-496 | Only the first implementation is cut short, by the reserve, and every phase may take a step |
| FeatureModels.LastArguments | src/gca/orchestrator.py:620-627 | The arguments of a phase are those of the last finish call of the last message that has one |
| Feature.RunCoordinator.Run | src/gca/orchestrator.py:125-147 | A completed or failed workflow is left alone |
| Feature.RunCoordinator.Restart | src/gca/orchestrator.py:321-431 | A process that dies after any save leaves a state from which all of this holds again |
| Feature.NewWorkflow | src/gca/orchestrator.py:169-184 | A new workflow is a state from which all of this holds |
| Feature.PhaseSavedKeeps | src/gca/orchestrator.py:60-86 | Every phase save keeps the schedule, the step sum, the records and the bindings in order |
| Feature.MovingOnKeeps | src/gca/orchestrator.py:369-425 | Moving to the next phase keeps every durable property |
| FeatureModels.PhaseOrder | src/gca/orchestrator.py:321-431 | The runs that have not failed are planning, implementation, review and then implementation and review by turns, with no more reviews than the cycles allow |
| Usage.MergeUsage | src/gca/usage.py:82-106 | Counts the completion counter by counter, nothing negative and a missing total as the sum, once in all and once for its model or as unknown, updating the buckets of the argument in place |
| Usage.MergeTotals | src/gca/usage.py:109-128 | The loop over buckets adds two totals model by model, and leaves both arguments alone |
| Usage.Conserved | src/gca/usage.py:82-106 | Each counter grows by the clamped sum of all completions, model by model, and totals that were sums of their buckets stay so |
| Usage.RollUp | src/gca/usage.py:109-128 | Counting into a child and merging it once equals counting into the parent |
| IssueStore.IssueSessionStore.InsertInboundEvent | src/gca/issue_sessions/store.py:485-516 | A second delivery id, or project, object and action, is refused; otherwise the event gets the next id |
| IssueStore.IssueSessionStore.InsertTurn | src/gca/issue_sessions/store.py:624-649 | The partial unique index refuses a second active turn of a generation |
| IssueStore.IssueSessionStore.SaveSession | src/gca/issue_sessions/store.py:548-571 | Saves exactly when the version is the stored one |
| IssueStore.IssueSessionStore.SaveGeneration | src/gca/issue_sessions/store.py:592-613 | Saves exactly when the version is the stored one |
| IssueStore.IssueSessionStore.CreateTurnJob | src/gca/issue_sessions/store.py:702-769 | One job per turn, under the turn's idempotency key |
| IssueStore.IssueSessionStore.Ingest | src/gca/issue_sessions/ingestion.py:74-138 | An error leaves the database as it was; on a sound database no error can arise and the outcome is the specified one, so a clash rolls back every partial insert, versioned saves are never stale and the turn index never fires |
| IssueStore.IssueSessionStore.StartSession | src/gca/issue_sessions/ingestion.py:140-244 | Session, generation, turn, job, event and note are inserted together, or a clash leaves nothing |
| IssueStore.IssueSessionStore.HandleExisting | src/gca/issue_sessions/ingestion.py:246-443 | Records the event and reacts as its command and the state of the generation call for |
| IssueStore.IssueSessionStore.React | src/gca/issue_sessions/ingestion.py:280-443 | Every branch for an existing session, in the order of the source, gives the specified database |
| IssueStore.IssueSessionStore.CompleteMerge | src/gca/issue_sessions/ingestion.py:445-490 | A merge completes session and generation together, with the reason the link gives |
| IssueStore.IssueSessionStore.ScheduleRemediation | src/gca/issue_sessions/remediation.py:128-168 | Queues one turn unless one is active, as one transaction |
| IssueStore.IssueSessionStore.GiveUpRemediation | src/gca/issue_sessions/remediation.py:77-96 | After the last attempt session and generation wait for a human and one note is queued, together or not at all |
| IssueStore.IssueSessionStore.RetrySession | src/gca_service/routes/issue_sessions.py:182-230 | An operator queues one turn of an idle generation of a session that is not completed, as one transaction, and nothing otherwise |
| IssueStore.IssueSessionStore.StartByOperator | src/gca_service/routes/issue_sessions.py:282-326 | An operator opens a session, or a new generation of one, with one turn and one job, together or not at all |
| IssueSystem.DeliverSound | src/gca/issue_sessions/ingestion.py:74-138 | Every delivery keeps the tables and their indexes consistent |
| IssueSystem.SchedulingAccounts | src/gca/issue_sessions/ingestion.py:359-443 | In every run, operators included, a generation has at most one active turn, turns and jobs pair off, a turn queued by an event consumes exactly one event, and any other turn none |
| IssueLaws.ConcernsResolved | src/gca/issue_sessions/ingestion.py:492-519 | An event is about the session of its issue, or else the one last linked to its merge request |
| IssueLaws.AuthorizedIs | src/gca/issue_sessions/ingestion.py:521-546 | Who may act: a label without an actor, an allowlisted user, and members of the minimum level, but never the bot; without known membership only comments and status requests |
| IssueLaws.LevelsRise | src/gca/issue_sessions/ingestion.py:532-540 | A higher access level never takes a right away |
| IssueLaws.StrangersChangeNothing | src/gca/issue_sessions/ingestion.py:74-443 | Who may not act changes no session, generation, turn or job with any event but the merge or closing of a merge request |
| IssueLaws.NothingToDo | src/gca/issue_sessions/ingestion.py:92-100 | Irrelevant events and events about completed sessions are recorded and ignored |
| IssueLaws.StatusAnswers | src/gca/issue_sessions/ingestion.py:288-311 | A status request is answered by one note, for anyone, and changes nothing |
| IssueLaws.CancelCancels | src/gca/issue_sessions/ingestion.py:313-332 | A cancellation by one who may act leaves session and active generation cancelled with the request set and everything else alone; by anyone else it is ignored |
| IssueLaws.MergeCompletes | src/gca/issue_sessions/ingestion.py:445-490 | A merge completes session and active generation, whoever merged, as mutated exactly when the link expects another head |
| IssueLaws.CloseWaits | src/gca/issue_sessions/ingestion.py:337-349 | A closed merge request leaves session and generation waiting for a human, whoever closed it |
| IssueWork.BusyWaits | src/gca/issue_sessions/ingestion.py:359-368 | While a turn is active any other event is accepted with that turn and queues nothing |
| IssueWork.FixRemediates | src/gca/issue_sessions/ingestion.py:548-556 | `/agent fix` queues one remediation turn with its job exactly for an authorized actor and a generation that awaits its merge |
| IssueWork.RunQueues | src/gca/issue_sessions/ingestion.py:370-443 | `/agent run` queues one turn with its job unless the generation awaits its merge or an answer; a failed or cancelled one without a merge request gives way to a new generation |
| IssueWork.NoteResumes | src/gca/issue_sessions/ingestion.py:548-579 | A note answers a question or wakes a session that waits for a human, with one turn and its job; no other event queues one |
| IssueWork.StartOpens | src/gca/issue_sessions/ingestion.py:102-244 | A label or `/agent run` by one who may act opens a session with one generation, turn and job for an issue that has none; nothing else does |
| IssueWork.AboutSessionOnRecord | src/gca/issue_sessions/ingestion.py:246-278 | An event about a session is recorded once, with its session, its generation and whether its actor may act |
| IssueWork.StrayOnRecord | src/gca/issue_sessions/ingestion.py:92-118 | An event about no session that starts none is recorded once, as authorized only if it is relevant and its actor may act |
| IssueWork.RemediationQueues | src/gca/issue_sessions/remediation.py:128-168 | A remediation queues one turn of 25 steps with its job and counts an attempt, unless a turn is active |
| IssueWork.GivingUpWaits | src/gca/issue_sessions/remediation.py:77-96 | Giving up leaves both rows to a human with one note, and no turn or job changes |
| IssueWork.RetryQueues | src/gca_service/routes/issue_sessions.py:182-230 | A retry queues one turn with its job for an idle generation of a session that is not completed and clears what it waited for |
| IssueWork.OperatorOpens | src/gca_service/routes/issue_sessions.py:282-326 | An operator gives an issue a new generation of 100 steps with one turn of 25 and its job, in its session or a new one |
| IssueSystem.RedeliveriesChangeNothing | src/gca/issue_sessions/ingestion.py:82-91 | However often events are delivered again, between any other transactions, the database is that of the first deliveries alone, if an id that comes with another event is stored by then |
| IssueSystem.CompletedIsFinal | src/gca/issue_sessions/ingestion.py:280-286 | Within ingestion no sequence of events changes a completed session, its generations or its turns |
| IssueSystem.RemediationRevives | src/gca/issue_sessions/remediation.py:128-148 | Across transactions completion is not final: remediation leaves a completed session completed if and only if a turn is active |
| IssueSystem.RevivedAfterMerge | src/gca/issue_sessions/remediation.py:71-148 | A run that shows it: a session is started, its turn succeeds, its merge request is opened, so that the generation awaits its merge with attempts left and passes the checks before the transaction; the merge completes it, and the transaction queues it again |
| IssueSystem.PipelineHasNoSay | src/gca/issue_sessions/ingestion.py:575-578 | Neither the type of an event nor the status of its pipeline decides whether a turn is queued |
| IssueSystem.FailedPipelineQueuesNothing | src/gca/issue_sessions/ingestion.py:548-579 | A failed pipeline event leaves turns and jobs as they were, whatever the state of the generation |

## Left out

- SQL text, connections, lock retries, schema migration and listing queries: a transaction is taken as one atomic step.
- Validation of run specifications (src/gca/jobs/store.py:608 on), worker heartbeat rows and queue counts: single-branch checks and reporting.
- `renew_lease` and `nack`: `renew_lease` has no caller in the modelled files, and `nack` would count as an explicit re-enqueue.
- JobStore.SqliteJobStore.Create: the search for the key and the insertion are one step; the second search after an integrity error, for a rival that inserted in between, is not modelled.
- The rows that `create_turn_job` inserts for issue-session turns (src/gca/issue_sessions/store.py:702-769) are outside `JobSystem`, which knows the rows of `SqliteJobStore.create` only; `IssueStore` has them as its own table.
- PatchBalance.FirstIsLostUnlessBalanced: a necessary condition; the exact one is proved for two one-line replacements (`PatchFiles.FirstIsLost`). Empty lines are not counted, because one at the end of a file is lost when it is written.
- JobClients.JobRunner.Execute: clone, configuration, executor and session files are outcomes passed in, its two stages of heartbeats before the agent are folded into `setup`, all its saves carry one time stamp, heartbeats of the lease between its saves are left to `LeaseTiming`, and at most one other client commits during a run.
- JobClients.CancelForMerge: how jobs are matched to a change request and the wiping of workspaces are not modelled.
- JSON encodings of jobs, sessions and events: field copying; the re-reading of over-escaped tool arguments is not modelled.
- PatchParse.ParseUnifiedDiff: `int` reads ASCII digits only; other Unicode digits in a hunk header are refused by the model.
- PatchFiles.Workspace.ApplyPatch: paths are names in one map, without confinement, directories or I/O errors, and the Python syntax check is a parameter.
- `search_replace`: a single replacement with little to prove.
- AgentLoop.Agent.Run: redaction, `provider_state`, `outcome_kind` and the step limit quoted in the budget message are not modelled; the tool registry is the function that answers a call.
- Feature.RunCoordinator.RunFeature: prompts, audit messages, `provider_states`, model selection and complexity scoring are not modelled; the fast workflow is one agent run.
- Feature.RunCoordinator.RunPhase: a crash between two saves loses the usage counted since the last one, and conservation is stated for the saves of one run.
- Usage.MergeUsage: cost in floating point is not modelled.
- IssueStore.IssueSessionStore.Ingest: task texts, branch names, event payloads and time stamps are not modelled.
- IssueStore.IssueSessionStore.ScheduleRemediation: the checks of status and attempts that precede the transaction are the predicate `MayRemediate`, which no step asks because other transactions may come between; the pipeline status, trace fetching and job retries are not modelled.
- `TurnOutcomeApplicator` and `OutboxProcessor`: with the cancel route present only as the steps `Settle`, `Restate` and `Link` of `IssueSystem`, which may set any status but never make a closed turn active.
- Git, Docker, HTTP routes, provider clients, webhook signatures, plugins and the command line: I/O.
