# Burnrate, verified

Burnrate is a daemon that works through a queue of coding tasks with an unattended CLI agent,
inside the quota windows of a subscription. This project models its core in Dafny and proves
what its parts promise each other.

## The lifecycle of tasks and runs

`Lifecycle` is one state machine over everything the daemon shares: task rows, run rows,
comments, human requests, the map of live goroutines, the rest of the scheduler's current
pass, and manual launches planned but not started. Each constructor of `Step` is one atomic
step of the scheduler, of a run's goroutine, or of an HTTP or MCP caller; planning and
launching are separate steps, so anything may happen between them, and a crash may happen
anywhere. A step that is not enabled changes nothing, so a run of the daemon is any sequence
of steps (`After`), and the main results hold after all of them:

- `Recovery`: no task is stranded, active rows always belong to a live goroutine, and the
  first reconcile after a crash settles the rest.
- `Threads`: a follow-up is retired only by a run that succeeded with it in its prompt, and a
  reply nobody was polling for is retired unread exactly when it came after the prompt.
- `Requests`, `Parking`: a settled request stays settled, and exactly when a parked task has
  something to wait for.
- `WorkerCap`: no interleaving of completions, suspensions and manual launches exceeds the
  workers.
- `Attempts`, `Retries`: exactly when attempts are bounded, and why every chain of retries is
  finite.
- `Effects`, `Beginnings`, `Endings`, `Passes`: what each step means, read off the columns of the
  tables before and after and not through the functions that define it: where a follow-up, a
  reply or a move sends a task, what a run's start and end write, what a pass may launch.
- `Safety`, `SafetySteps`, `SafetyRuns`, `Frames`: the invariant these rest on, step by step.
- `Histories`, `Overtaking`: short histories from the empty database that show which
  assumptions are needed.
- `Policy`, `PolicyLaws`: the scheduling decision, its loop proved against a declarative
  verdict, and the laws of that verdict, down to the readings and thresholds it compares.
- `Daemon`: the same steps as one mutable object, row by row and loop by loop as the source
  has them. Each method is proved to have exactly the effect of its step (`DoMove` is what
  `Next` does for `MoveTask`, and so on) and to fail exactly when it says, so what is proved
  about the steps holds of the object. The table below lists the methods whose contract says
  more than that.

The granularity is that of the source's transactions: a service method, a classification, and
a query followed by a locked reconcile are one step each. Store calls succeed. Until a daemon
has reconciled for the first time nothing but reconciling or crashing happens, although the
source starts its HTTP server beside its scheduler.

## The rest

- `Stream`, `LogTail`: the event loop around the CLI and the reading of a finished log.
- `Continue`: carrying a run past denied calls.
- `Await`, `Backoff`: waiting for a human, sitting out a spent week, pausing after a 429.
- `SqlSplit`, `Shell`: the statement splitter, and the resume command with a reader for it.
- `Streak`, `Lines`, `Analytics`, `Probe`: accounting loops against their definitions.
- `Workdir`, `Checkout`, `Reorder`: tearing a working directory down, switching branches in,
  reordering part of the queue.

## Where the code differs from what it says

- The attempt cap can be passed: a pass plans a queued task, manual launches of the same task fail
  their pre-flight up to the cap before the pass gets to it, and the pass's own launch then fails
  as attempt max + 1 (`Overtaking.OvertakenLaunchExceedsCap`; `Retries.BoundedIff` says exactly
  when the cap holds).
- With max_attempts 1 the cap is passed although no launch is overtaken
  (`Overtaking.OneAttemptIsExceeded`; `Retries.BoundedIff` covers it), with 0 by every row
  (`Retries.NoneWithinZero`). An overtaken resume can cost no attempt
  (`Overtaking.OvertakenResumeIsFree`; `Retries.EachRetrySpends` says exactly when).
- The comment on the weekly latch promises that a spent week is sat out although its reading dips.
  A reading that starts a new session clears the latch, and a latch still set from an older week
  is not moved (`Backoff.NewSessionReleases`, `Backoff.SecondWeekIsNotSatOut`;
  `Backoff.SatOutIff` says exactly when the week is sat out).
- A working directory kept for unbacked files has had its clean worktrees removed, although the
  comment says nothing is removed (`Workdir.UnbackedButRemoved`, `Workdir.UnbackedKeepsAllIff`).
- A checkpoint whose push fails still counts as clean, and a worktree without changes is never
  pushed (`Workdir.UnpushedButRemoved`, `Workdir.RemovedWorkIsAtOriginIff`).
- Deleting a task that ever ran fails on the foreign key of the run table
  (`Histories.RanTaskStays`; `Histories.DeletedIff` says exactly when a task is deleted).
- The branch of `CancelRun` that abandons a row directly is never taken once the daemon has
  reconciled (`SafetySteps.CancelRunSignals`).
- A reply to a request nobody polls, given while a run of its task is at work, is retired by
  that run's success without having been in its prompt (`Threads.ReplyRetiredUnread`,
  `Threads.RetiredUnreadIff`).
- Requests settled by approval, denial or expiry do not re-queue a parked task. A request may be
  filed by one task under the run of another, and then neither a reply to it nor retiring or
  deleting the task that filed it re-queues the task that waits. `Parking.StepParksIff` says
  exactly which steps strand a task, `Parking.SettlingStrandsTask`,
  `Parking.ForeignRequestStrandsTask`, `Parking.DeletionStrandsTask` and
  `Parking.GrantStrandsTask` are histories.
- Claims on a clone are kept by the spelling of the repository's name, which the search for the
  clone ignores, so a branch may be reported as checked out that is not
  (`Checkout.TwoNamesClaimOneClone`; `Checkout.CloneClaimedOnceIff` and
  `Checkout.ReportsHoldIff` say exactly when).

## Model

| member | source | states |
|---|---|---|
| Policy.Decide | internal/scheduling/scheduling.go:231-310 | the plan holds, for every candidate, the verdict of the declarative reference, suspends every running task exactly when the session window is spent, and reports the gate or the first held candidate as its one reason |
| Policy.Launches | internal/scheduling/scheduling.go:198-206 | the launches of a plan, in order, and none exactly when no decision launches |
| Policy.Failures | internal/scheduling/scheduling.go:209-217 | the failures of a plan, in order |
| Policy.Contains | internal/scheduling/scheduling.go:381-388 | true exactly for a member |
| PolicyLaws.GreedyAndWorkConserving | internal/scheduling/scheduling.go:254-284 | with the gate open the unforced launches number min(free workers, competitors), counted at every prefix of the candidates; with the gate closed there are none |
| PolicyLaws.FirstComeFirstServed | internal/scheduling/scheduling.go:254-284 | a slot goes only to a competitor, and never past an earlier competitor |
| PolicyLaws.LaunchesAreSafe | internal/scheduling/scheduling.go:254-284 | no launch goes to a running or suspended task or past the attempt cap, and with the gate closed only a forced one is made |
| PolicyLaws.ForcingIsMonotone | internal/scheduling/scheduling.go:254-284 | adding a forced task never turns another launch into a wait |
| PolicyLaws.WorkersAreMonotone | internal/scheduling/scheduling.go:254-284 | raising the worker count never turns a launch into a wait |
| PolicyLaws.GlobalExplains | internal/scheduling/scheduling.go:286-310 | "queue empty" is reported exactly with no candidates and an open gate; a blocking answer is the gate, or a full pool while nothing launches |
| PolicyLaws.UnforcedLaunchesFit | internal/scheduling/scheduling.go:254-284 | an unforced plan launches no more than the free workers |
| PolicyLaws.SuspendsIff | internal/scheduling/scheduling.go:239-252 | a plan suspends exactly the running tasks, and any only when the reading is current and the session utilization has reached the session threshold |
| PolicyLaws.ReasonsMean | internal/scheduling/scheduling.go:316-347 | each of the five blocking reasons is reported exactly when its own condition holds and none before it: no reading, a stale one, session at its threshold, week at its threshold, a running weekly backoff |
| PolicyLaws.DecisionMeans | internal/scheduling/scheduling.go:254-284 | an unforced launch has a current reading, session below the session threshold, week below the weekly one, no running backoff and a free worker; a failure is exactly a resume out of attempts; a candidate waits for a worker only when none is left |
| PolicyLaws.WindowMeans | internal/scheduling/scheduling.go:351-362 | saturated exactly at the session threshold, idle exactly with no use and no session end |
| Daemon.Daemon.constructor | internal/scheduler/scheduler.go:126-137 | a new daemon over an empty database is the initial state |
| Daemon.Daemon.ResetTaskAttempts | internal/store/tasks.go:197-211 | the reset point becomes the newest run and never moves backwards |
| Daemon.Daemon.HasInterruptedSession | internal/service/task_service.go:158-168 | true exactly when the newest run has a session and was rate limited, timed out or errored |
| Daemon.Daemon.UpdateTask | internal/service/task_service.go:84-102 | an edit resets the attempts and fails only for an unknown task |
| Daemon.Daemon.DeleteTask | internal/service/task_service.go:110-125 | a busy task is refused, and so is one that ever ran; otherwise its comments and requests go with it |
| Daemon.Daemon.PauseTask | internal/service/task_service.go:141-150 | pauses exactly the queued and the resumable |
| Daemon.Daemon.ResumeTask | internal/service/task_service.go:152-174 | a paused task goes back to its interrupted session if it has one, else to the queue, with a full budget |
| Daemon.Daemon.CompleteTask | internal/service/task_service.go:176-189 | done, with its pending requests cancelled, unless it is busy |
| Daemon.Daemon.DismissTask | internal/service/task_service.go:191-204 | dismissed, with its pending requests cancelled, unless it is busy |
| Daemon.Daemon.MoveTask | internal/service/task_service.go:206-247 | the whole effect of a user's move, refused exactly when the task is unknown or busy, the target is not a user's, or a resumable target has no session |
| Daemon.Daemon.ValidateStatusTransition | internal/service/task_service.go:253-271 | a running task never moves, and running, awaiting_human and pr_created are never targets |
| Daemon.Daemon.AddComment | internal/service/comment_service.go:29-71 | a follow-up is stored open and re-queues its task unless the task is in the backlog; a busy task refuses it |
| Daemon.Daemon.CancelRun | internal/service/run_service.go:71-95 | signals the goroutine of an active run; fails exactly for a run that is not among the newest 1000 or not active |
| Daemon.Daemon.CancelTask | internal/scheduler/scheduler.go:791-799 | cancels with the user as cause if a goroutine is live |
| Daemon.Daemon.CancelAll | internal/scheduler/scheduler.go:801-807 | every goroutine not cancelled yet is cancelled for shutdown |
| Daemon.Daemon.CreateRequest | internal/service/request_service.go:126-161 | a pending request, answered at once when the run has a standing approval |
| Daemon.Daemon.Respond | internal/service/request_service.go:185-233 | the reply is stored, retired when it was handed over in-band, and a parked task goes back to its session or the queue with a full budget |
| Daemon.Daemon.Approve | internal/service/request_service.go:238-254 | settles a pending request once, with a standing grant when asked for the whole run |
| Daemon.Daemon.Deny | internal/service/request_service.go:258-271 | settles a pending request once, as denied |
| Daemon.Daemon.Expire | internal/service/request_service.go:277-290 | settles a pending request as expired and leaves a settled one alone |
| Daemon.Daemon.FetchCandidates | internal/scheduler/scheduler.go:694-717 | the resumable tasks that have a session, then the queued ones, each in queue order |
| Daemon.Daemon.Plan | internal/scheduler/plan.go:73-105 | the policy's plan for exactly these candidates |
| Daemon.Daemon.Tickets | internal/scheduler/scheduler.go:646-665 | suspensions, then failures, then launches, each in the plan's order |
| Daemon.Daemon.Evaluate | internal/scheduler/scheduler.go:646-665 | a pass plans from the state as it is now |
| Daemon.Daemon.PerformNext | internal/scheduler/plan.go:122-224 | one suspension, failure or launch of the pass, whatever has happened since it was planned |
| Daemon.Daemon.RunNow | internal/scheduler/scheduler.go:727-773 | queues the candidate the plan would start for this task, and refuses exactly when there is none |
| Daemon.Daemon.Reconcile | internal/scheduler/scheduler.go:579-640 | errors every active row without a goroutine and moves its task on, leaving the tasks of this daemon alone |
| Daemon.Daemon.PreflightError | internal/runner/runner.go:1405-1427 | an errored row one attempt further; the task fails at the cap and is queued again below it |
| Daemon.Daemon.OpenRun | internal/runner/runner.go:182-260 | the row of a resume carries its session and the next attempt, that of a fresh start attempt 1 |
| Daemon.Daemon.BeginRun | internal/runner/runner.go:135-298 | the row, the status and the follow-ups a starting run is given |
| Daemon.Daemon.RequestCountsForRun | internal/store/requests.go:130-139 | positive exactly when the run raised a request, and when one of them is pending |
| Daemon.Daemon.Classify | internal/runner/runner.go:577-776 | the whole effect of a run's ending, by the first cause that applies |
| Daemon.ListIsBurial | internal/scheduler/scheduler.go:595-640 | walking the list of active rows read beforehand buries exactly the orphans |
| Safety.QuietTask | internal/scheduler/scheduler.go:579-640 | a task with no goroutine, or not mid-run, has no active row |
| SafetyRuns.StepKeepsCore | internal/runner/runner.go:123-133 | every step keeps the core invariant: resumable tasks have a session, active rows are the newest of their task and have a goroutine, goroutines own the row they believe in |
| SafetyRuns.CoreAlways | internal/runner/runner.go:123-133 | the core invariant holds in every reachable state |
| SafetyRuns.InsertingKeepsCore | internal/runner/runner.go:182-260 | inserting a row keeps the invariant |
| SafetyRuns.RewritingKeepsCore | internal/runner/runner.go:374-457 | rewriting the row a goroutine works on keeps the invariant while row and goroutine agree on the session |
| SafetyRuns.ClassifyFailureIsClassified | internal/runner/runner.go:640-776 | a run that did not succeed finishes its row, leaves every comment alone, and is resumable only with a session |
| SafetyRuns.ClassifySuccessIsClassified | internal/runner/runner.go:577-637 | a run that succeeded finishes its row and is re-queued only from a session or the queue |
| SafetySteps.CancelRunSignals | internal/service/run_service.go:71-95 | after the first reconcile cancelling an active run it can find always finds its goroutine too, so the row is never abandoned directly |
| SafetySteps.FinishingKeepsCore | internal/runner/runner.go:123-133 | finishing an active row and moving its task on keeps the invariant when a resumable task had a session |
| SafetySteps.Burial | internal/scheduler/scheduler.go:595-640 | reconcile errors exactly the orphans and changes no task of this daemon and no task without an active row |
| Recovery.NeverStranded | internal/store/runs.go:96-107 | in every reachable state each resumable task has a newest run with a session, and each resumable or queued task is a candidate |
| Recovery.OfferedOnce | internal/scheduler/scheduler.go:694-717 | no task is a candidate twice |
| Recovery.ActiveRowsAreTracked | internal/scheduler/scheduler.go:579-640 | after the first reconcile every active row is its task's newest and belongs to a goroutine working on exactly it; a goroutine that has returned leaves no active row |
| Recovery.LaterReconcilesAreIdle | internal/scheduler/scheduler.go:579-640 | after the first, a reconcile changes nothing |
| Recovery.FirstReconcileSettles | internal/scheduler/scheduler.go:579-640 | the first reconcile after a crash leaves no active row, keeps every session, and sends each orphan's task to resumable or failed by its session |
| Recovery.ManualLaunchRefusesOnlySpentTasks | internal/scheduler/scheduler.go:727-773 | a manual launch of a waiting task is refused exactly when it is resumable and has spent its attempts, whatever quota and workers say |
| Threads.ConsumedMeansServed | internal/runner/runner.go:577-637 | a consumed follow-up was consumed by a run of its task that succeeded and whose launch prompt contained it |
| Threads.OpenUntilServed | internal/service/comment_service.go:29-71 | until then it stays open through every step except the deletion of its task |
| Threads.ClassifyConsumes | internal/runner/runner.go:577-637 | a classification consumes every open comment of its task exactly when the run succeeded and no answer beat the parking |
| Threads.ThreadAlways | internal/store/comments.go:46-86 | in every reachable state each retired comment was retired by a run of its task that succeeded, and each goroutine at work was told exactly of the open comments that were there when its prompt was made |
| Threads.NextPromptCarriesFollowUps | internal/runner/runner.go:274-278 | the next run of a task is given every open comment that is not the agent's, follow-up or reply |
| Threads.SinceIsTheNextComment | internal/runner/runner.go:274-278 | what a run takes down when its prompt is made separates the comments stored before from those stored after |
| Threads.RetiredUnreadIff | internal/runner/runner.go:577-637 | a comment retired by a run, and not handed over to a poll, was in that run's prompt exactly when it was stored before the prompt was made |
| Threads.ReplyRetiredUnread | internal/service/request_service.go:185-233 | a history in which a reply is retired without having been in a prompt |
| Requests.StepAbsorbs | internal/store/requests.go:79-144 | no step changes the status or answer of a settled request, and ids are not handed out twice |
| Requests.SettledIsFinal | internal/store/requests.go:79-144 | a settled request keeps status and answer along every continuation, as long as its task exists |
| WorkerCap.PassOwes | internal/scheduler/plan.go:73-105 | a pass plans no more launches than workers are free |
| WorkerCap.CapAlways | internal/scheduler/plan.go:116-179 | live scheduled runs plus launches still owed never exceed the worker count, in every reachable state |
| WorkerCap.WorkersNeverExceeded | internal/scheduler/plan.go:116-179 | scheduled runs never exceed the workers, and all runs exceed them by no more than the manual ones |
| Attempts.PlannedFits | internal/scheduling/scheduling.go:264-266 | what a pass plans to launch had an attempt left and has it still if its task has not run since |
| Attempts.CountAlways | internal/domain/models.go:224-229 | in every reachable state with max_attempts at least 1, resets point at existing runs, and queued tasks and planned launches have an attempt left, except that with max_attempts 1 a queued task may have spent it |
| Retries.OnlyBeginInserts | internal/store/runs.go:14-27 | no step but a run's start adds a run row, and none renumbers one |
| Retries.StartedRunsFit | internal/runner/runner.go:182-260 | a run past its pre-flight is within max_attempts however stale its plan |
| Retries.SpentTasksAreGivenUp | internal/scheduling/scheduling.go:264-266 | a task that has used its budget up is not queued, and if resumable is failed by the next pass and not launched |
| Retries.EachRetrySpends | internal/domain/models.go:224-229 | with no reset, a run row costs its task an attempt always when the launch fails its pre-flight, and for a resume exactly when the attempt it resumes with is more than the task had spent by then |
| Retries.PromptResumeSpends | internal/runner/runner.go:182-200 | which is so for every resume not overtaken |
| Retries.ChainsAreFinite | internal/domain/models.go:224-229 | along any chain without a fresh budget a task gets at most the runs its remaining attempts allow, and at most max_attempts more for each overtaken launch |
| Retries.PreflightFits | internal/runner/runner.go:1405-1427 | a failed pre-flight is within max_attempts exactly when the task has an attempt left at that moment, and gives the task up exactly at the cap; with max_attempts at least 2 a launch not overtaken always has one left |
| Retries.BoundedIff | internal/runner/runner.go:1405-1427 | with max_attempts at least 1, every row's attempt is at most max_attempts exactly when every launch that failed its pre-flight found its task with an attempt left |
| Retries.NoneWithinZero | internal/runner/runner.go:1405-1427 | with max_attempts 0 every row is past the cap |
| Retries.AttemptsBounded | internal/runner/runner.go:1405-1427 | with max_attempts at least 2 the bound holds when no launch is overtaken by another run of its task |
| Await.ClampWait | internal/service/request_service.go:113-124 | a wait within budget and floor is granted as asked, all others get the budget or the floor |
| Await.AwaitResponse | internal/service/request_service.go:351-396 | the poll ends at the first second the request is settled or gone, the caller has left or the budget is spent, and reports a timeout exactly when it is still pending |
| Await.VerdictRoundTrips | internal/service/request_service.go:442-451 | the verdict folded into a reply is recovered exactly when it is one line without surrounding blanks, whatever the reply says |
| Await.NoVerdict | internal/service/request_service.go:442-451 | a reply without a verdict is read as having one exactly when it starts like one |
| Backoff.NextRateLimitDelay | internal/scheduler/scheduler.go:508-525 | doubled, capped, at least the retry-after, and within a tenth of that after jitter |
| Backoff.PausesGrow | internal/scheduler/scheduler.go:494-525 | over any series of 429 answers each pause reaches the guaranteed floor and stays within eleven minutes |
| Backoff.SeventhPauseIsLong | internal/scheduler/scheduler.go:494-525 | from the seventh on the pause is nine minutes or more |
| Backoff.SatOutIff | internal/scheduler/scheduler.go:475-490 | whatever the readings do until a spent week ends, every dip below the threshold is held exactly when none is the first reading of a new session and none comes after the time of an older latch still in force |
| Backoff.SpentWeekIsSatOut | internal/scheduler/scheduler.go:671-690 | while a dip is held the policy launches only what a user forces |
| Backoff.NewSessionReleases | internal/scheduling/reset.go:28-47 | a week spent with no latch set, whose first dip starts a new session: the waiting task is launched days before the week ends |
| Backoff.SecondWeekIsNotSatOut | internal/scheduler/scheduler.go:671-690 | two spent weeks in a row with no pass between them: the first week's latch is still in force and the task is launched before the second ends |
| Stream.Scan | internal/claude/invoke.go:290-376 | the loop reads to the end or to the first prefix that completes five idle cycles, and holds the folds of exactly the lines read |
| Stream.Invoke | internal/claude/invoke.go:132-429 | metadata, reported denials and outcome are functions of the lines read, and the lines read end where the loop stops |
| Stream.Positions | internal/claude/invoke.go:336-363 | the session is the first one named, the model the last, the figures those of the last result |
| Stream.DataMeans | internal/claude/invoke.go:336-363 | the loop's metadata is that declarative reading |
| Stream.DenialsMean | internal/claude/invoke.go:306-334 | the loop's count, message, seen calls and pending flag are their declarative readings |
| Stream.DenialsAreDistinctCalls | internal/claude/invoke.go:306-327 | the count is the number of distinct identified calls plus the unidentified denials |
| Stream.PendingIsCounted | internal/claude/invoke.go:306-334 | a pending denial has been counted |
| Stream.CyclesAreTheIdleTail | internal/claude/invoke.go:365-375 | the counter is at least n exactly when the last n lines that count are all idle |
| Stream.NeutralLinesAreInvisible | internal/claude/invoke.go:365-375 | system lines and noise neither add to the idle count nor reset it |
| Stream.LimitMeans | internal/claude/invoke.go:265-304 | the rate-limit message kept is the first of stdout and stderr |
| Stream.DeniedMeansWaiting | internal/claude/invoke.go:386-428 | with the watchdog silent an invocation ends denied exactly when a denial is pending and no rate limit, idle kill, timeout, cancellation or missing session applies |
| Stream.WorkClearsDenial | internal/claude/invoke.go:328-334 | a call issued or run with no denial after it leaves none pending |
| Stream.VerdictEnds | internal/claude/invoke.go:386-428 | each of the eight outcomes exactly when its own sign is there and none of a graver one: limit, idle loop, timeout, cancellation, missing session, denial, exit error, success; a clause of Invoke about the outcome it returns |
| Stream.VerdictCarries | internal/claude/invoke.go:386-428 | the first limit message, the last denial that is not a repeat, and the number of distinct denials |
| Stream.ResultReads | internal/claude/invoke.go:336-363 | the session is the first one a system event named, the model the last one named, the figures those of the last result, and what was never reported is empty; a clause of Invoke about the result it returns |
| LogTail.Tail | internal/claude/denial.go:390-402 | the last forty written lines |
| LogTail.LogEndedInterrupted | internal/claude/denial.go:383-424 | since the agent last worked: the last denial, else the first interrupt, else nothing |
| LogTail.EndsOnOne | internal/claude/denial.go:404-424 | a tail ends on one message only |
| LogTail.WarnedIffCutShort | internal/claude/denial.go:404-424 | the agent is warned exactly when it was denied or interrupted and has not worked since |
| LogTail.OnlyTheTailMatters | internal/claude/denial.go:383-424 | two logs that share their last forty written lines are answered alike |
| Continue.InvokeWithAutoContinue | internal/runner/runner.go:481-542 | over any oracle: cost and turns are the sums over all calls, session and model the last ones known, at most Max continuations, and it stops exactly when it may not go on |
| Continue.RunIsDetermined | internal/runner/runner.go:481-542 | the oracles determine the calls |
| Continue.SessionIsNeverLost | internal/runner/runner.go:484-487 | the session reported is empty only if none was asked for and none announced |
| Continue.ContinuationsCarryOn | internal/runner/runner.go:494-525 | each continuation follows a denial, its prompt is built from that denial, it resumes the latest known session, and with a deadline it has what is left of the window, at least the minimal one |
| Continue.NoWindowNoContinuation | internal/runner/runner.go:494-505 | with no room, a cancellation or a cap of zero the first call stays alone |
| Continue.WhereRunsStop | internal/runner/runner.go:494-505 | a run goes on unless its last call was not denied, the cap is used up, no session was ever known, it was cancelled, or too little of the window is left; the first call has the options asked for |
| SqlSplit.SplitStatements | internal/store/store.go:154-192 | the look-ahead loop computes the reading that toggles at every quote |
| SqlSplit.SplitIsIdempotent | internal/store/store.go:154-192 | joining the statements with ";" and splitting again gives the same list, for every input |
| SqlSplit.StatementsAreClean | internal/store/store.go:154-192 | a statement is not blank, has no blank end, and holds no ";" and no "--" outside its quotes |
| SqlSplit.CommentTextIsIgnored | internal/store/store.go:160-167 | after a text that ends outside quotes, what a comment says changes nothing |
| SqlSplit.LexIsCoherent | internal/store/store.go:160-176 | no comment and no unbalanced mark survives the reading |
| SqlSplit.Relex | internal/store/store.go:160-185 | what survives reads back as itself |
| SqlSplit.SkipLine | internal/store/store.go:162-164 | moves past the line or to the end of the text |
| SqlSplit.NothingIsLost | internal/store/store.go:154-192 | in order, the statements hold every character read but white space and separators, and no other |
| SqlSplit.ReadAsWritten | internal/store/store.go:154-192 | a text without two dashes in a row is read as it stands |
| Shell.ResumeCommand | internal/claude/resume.go:28-53 | the command is directory, environment, resume, each only when there is something to say |
| Shell.QuoteReads | internal/claude/resume.go:57-59 | a quoted string reads as exactly its characters wherever in a word it stands |
| Shell.QuotedIsOneWord | internal/claude/resume.go:57-59 | a shell reads shellQuote(s) as one word with exactly the characters of s, for every s |
| Shell.CommandReadsBack | internal/claude/resume.go:28-53 | without a token command the command reads back as exactly its words, whatever characters they hold |
| Shell.RoundTrip | internal/claude/resume.go:28-53 | directory, config directory and session come back exactly |
| Shell.CommandsAreDistinct | internal/claude/resume.go:28-53 | different targets give different commands |
| Streak.ComputeStreak | internal/store/streak.go:26-76 | totals over dated runs; the longest streak is the longest block of consecutive active days, the latest such block is reported, and the current streak is the block ending today or yesterday |
| Streak.Walk | internal/store/streak.go:52-74 | the single pass over the sorted days finds them |
| Streak.GatherWalk | internal/store/achievements.go:292-319 | the second walk finds the same longest and current |
| Streak.WalksAgree | internal/store/achievements.go:292-319 | whatever the two walks return, the two numbers agree |
| Streak.OneAnswer | internal/store/streak.go:26-76 | the active days determine both numbers |
| Streak.NoLongerStretch | internal/store/streak.go:26-76 | no stretch of consecutive active days is longer than the longest block |
| Streak.CurrentMeans | internal/store/streak.go:26-76 | the current streak day by day: none exactly when neither today nor yesterday was active, else the active days up to the later of the two and none before them |
| Lines.Ledger.RecordTaskPRLines | internal/store/task_prs.go:58-76 | the row takes the new total, the caller gets the growth clamped at zero, and an unknown branch is an error that changes nothing |
| Lines.Ledger.RecordRunLines | internal/runner/runner.go:1223-1250 | the run is credited with the growth of every branch it could measure |
| Lines.Ledger.UpsertTaskPR | internal/store/task_prs.go:17-44 | an existing branch keeps its line counts |
| Lines.BranchTelescopes | internal/store/task_prs.go:58-76 | over any history, what runs were credited with on a branch is its total now plus everything it ever shrank by |
| Lines.RunsTelescope | internal/store/task_prs.go:58-76 | over any history, the run rows add up to the branch rows plus everything a branch ever shrank by |
| Lines.RunsEqualBranches | internal/store/task_prs.go:58-76 | run rows and branch rows add up to the same exactly when no measurement shrank |
| Lines.RowsAreMeasurements | internal/runner/runner.go:1223-1250 | a run leaves each branch at its last measurement, one it did not measure as it was, and adds none |
| Analytics.AggregateCostEfficiency | internal/store/analytics.go:82-131 | one row per day and model that has eligible runs, in order, with exactly their runs, cost, lines and distinct tasks |
| Analytics.AggregateIsUnique | internal/store/analytics.go:82-131 | the rows do not depend on the order of the map |
| Analytics.TotalCostEfficiency | internal/store/analytics.go:135-160 | one row per model with the sums of its rows, tasks added up per day |
| Analytics.RollupConserves | internal/store/analytics.go:82-160 | a roll-up amounts to what it rolls up |
| Analytics.CostIsConserved | internal/store/analytics.go:82-160 | runs, cost and lines are conserved from eligible runs to rows to totals |
| Analytics.RunsAreCounted | internal/store/analytics.go:108-119 | each eligible run counts as one, with its cost and its lines |
| Analytics.ModelOrder | internal/store/analytics.go:65-77 | each model once, in the order of its first run |
| Analytics.OrderListsEachOnce | internal/store/analytics.go:65-77 | exactly the models ever run, each once |
| Analytics.OrderIsStable | internal/store/analytics.go:65-77 | newer runs never move a model |
| Analytics.WhoCounts | internal/store/analytics.go:82-100 | exactly the runs with a date, not before the cutoff and with money spent or lines changed, each as often as given |
| Analytics.RowsOfRuns | internal/store/analytics.go:82-131 | a row for a day and a model exactly when a run that counts was of that day and model, or named none and the model is the unknown one |
| Analytics.RowsMean | internal/store/analytics.go:165-173 | cost per task times tasks is the cost, and so is cost per line times lines changed; a zero denominator gives zero; rows go by day and then model |
| Probe.ProbeBackoff | internal/prstatus/prstatus.go:196-205 | min(age doubled per failure, one day), and no value on the way above two days or the age |
| Probe.BackoffIsMonotone | internal/prstatus/prstatus.go:196-205 | more failures never shorten the wait |
| Probe.ShouldProbeNow | internal/prstatus/prstatus.go:168-183 | open pull requests with a URL, gone ones only when forced, and not before the backoff |
| Probe.Refresh | internal/prstatus/prstatus.go:103-155 | each row due is written as its answer says and the others are left alone, up to a cancellation; the count is of the rows that changed state |
| Probe.SettledIsLeftAlone | internal/prstatus/prstatus.go:168-183 | what GitHub settled is not asked about again, and a failure never changes what is known |
| Probe.ProbesKeepDistance | internal/prstatus/prstatus.go:103-205 | under any sweeps the probes of a URL that never answers keep the backoff between them |
| Probe.ProbesAreSparse | internal/prstatus/prstatus.go:103-205 | probe k + 1 comes no sooner than the first k waits after the first |
| Probe.OneCallADay | internal/prstatus/prstatus.go:185-205 | once the cap is reached the URL costs at most a call a day |
| Probe.RefreshShows | internal/prstatus/prstatus.go:103-155 | a pull request asked about shows the state and draft flag reported with its failures forgotten, or gone, or after a failure what it showed before with one failure more; the count is of the rows that show a change |
| Probe.JustAskedWaits | internal/prstatus/prstatus.go:168-205 | one just asked about is not asked again before its age is up, after a failure twice that |
| Probe.BackoffDoubles | internal/prstatus/prstatus.go:196-205 | the first wait is the age, and every failure doubles it up to a day |
| Workdir.FoundAreDisjoint | internal/git/git.go:190-211 | none of them lies inside another |
| Workdir.OnlyBackedFilesDisappear | internal/git/git.go:130-171 | a file that disappears was .DS_Store or lay in a worktree clean at the check, and only when all were |
| Workdir.UnreachedWorktreeKeepsDirectory | internal/git/git.go:103-107 | a worktree too deep, hidden or under node_modules keeps the directory and its own files |
| Workdir.LooseFilesStay | internal/git/git.go:176-186 | so does every loose file |
| Workdir.FindAgentWorktrees | internal/git/git.go:190-211 | exactly the worktrees at most three levels down, reached by visible names and not inside another, in the order of the listings |
| Workdir.CheckpointAll | internal/git/git.go:141-162 | worktrees are checkpointed up to the first that cannot be made clean; if all can, exactly those with changes whose push succeeds are pushed |
| Workdir.RemoveAgentWorkdir | internal/git/git.go:130-171 | if any worktree cannot be made clean every file stays and the first such worktree is named; otherwise the loose files stay, and the directory goes exactly when none of them counts |
| Workdir.UnbackedKeepsAllIff | internal/git/git.go:126-129 | a directory kept for unbacked files has all its files left exactly when the scan found no worktree |
| Workdir.UnbackedButRemoved | internal/git/git.go:126-129 | a directory kept for a loose file from which the worktree beside it is gone |
| Workdir.UnpushedButRemoved | internal/git/git.go:277-293 | a directory removed although the push of its one checkpoint failed |
| Workdir.RemovedWorkIsAtOriginIff | internal/git/git.go:118-120 | all that removed worktrees held is at origin exactly when every checkpoint's push succeeded and no worktree without changes was ahead of origin |
| Workdir.RefusedIff | internal/git/git.go:130-171 | refused exactly when some found worktree has no owner or has changes with no branch, a failed commit or changes remaining, and then every file stays; otherwise a file that disappears was .DS_Store or lay in a found worktree |
| Checkout.NewestPerRepo | internal/checkout/checkout.go:89-118 | the newest of each repo in first-seen order, then the others in order |
| Checkout.SplitKeepsEveryPR | internal/checkout/checkout.go:89-118 | every named pull request comes out exactly once |
| Checkout.Task | internal/checkout/checkout.go:46-84 | one result per named pull request; skipped exactly when its repo is claimed already, else what the switch did |
| Checkout.WinnersAreTried | internal/checkout/checkout.go:46-84 | the newest of a repo is never skipped |
| Checkout.OneClaimPerRepo | internal/checkout/checkout.go:46-84 | a repo name is claimed at most once, and an older pull request is tried only after every newer try failed |
| Checkout.CloneClaimedOnceIff | internal/checkout/checkout.go:46-84 | however the switches turn out no clone is claimed twice, exactly when no two named pull requests name one clone in two ways |
| Checkout.ReportsHoldIff | internal/checkout/checkout.go:46-84 | however the switches turn out every branch reported as checked out is checked out in the end, exactly when no two pull requests name one clone in two ways and want different branches in it |
| Checkout.TwoNamesClaimOneClone | internal/checkout/checkout.go:46-84 | two spellings of one repo are both claimed and reported as checked out, and their clone ends up on the second branch |
| Checkout.ResultsMean | internal/checkout/checkout.go:46-84 | skipped exactly when an earlier result put the same repo on a branch; otherwise the outcome of its own switch |
| Reorder.ReorderTasks | internal/store/tasks.go:138-187 | fails exactly for an unknown or repeated id; otherwise the tasks named take the places they held between them, ascending in the order named, and no other task moves |
| Reorder.ReorderIsDetermined | internal/store/tasks.go:138-187 | places and request determine the outcome |
| Reorder.ReorderIsIdempotent | internal/store/tasks.go:138-187 | asking again changes nothing |
| Reorder.LastReorderWins | internal/store/tasks.go:138-187 | an earlier order of the same tasks leaves no trace |
| Overtaking.OvertakenLaunchExceedsCap | internal/scheduler/plan.go:122-179 | without that the bound fails: a history reaches attempt max_attempts + 1 |
| Overtaking.OvertakenResumeIsFree | internal/runner/runner.go:182-200 | a history in which an overtaken resume costs nothing |
| Overtaking.OneAttemptIsExceeded | internal/runner/runner.go:335-346 | with max_attempts 1 that is not enough: a history in which no launch is overtaken reaches attempt 2 |
| Parking.StepParksIff | internal/runner/runner.go:583-637 | from a state in which every parked task has something to wait for, a step leads to another exactly when it is none of the stranding ones: settling the last open request of a parked run by approval, denial or expiry, or by a reply if another task filed it, retiring or deleting that other task, and a request answered at once by a standing grant |
| Parking.ParkedIff | internal/runner/runner.go:583-637 | every parked task has something to wait for at every moment of a history exactly when no step of it is a stranding one |
| Parking.ParkedTasksHaveSomethingToWaitFor | internal/runner/runner.go:583-637 | so no task waits for a human who has nothing to answer |
| Parking.ReplyParksIff | internal/service/request_service.go:185-233 | a reply strands a task exactly when it settles the last request open of a parked run and another task filed that request |
| Parking.SettlingStepParksIff | internal/service/request_service.go:238-290 | an approval, a denial or an expiry does exactly when it settles the last request open of a parked run |
| Parking.FilingParksIff | internal/service/request_service.go:126-161 | filing a request does exactly when a standing grant answers it at once and its run is parked with nothing else open |
| Parking.RetireParksIff | internal/service/task_service.go:176-204 | retiring a task does exactly when a parked run of another task waits only for requests it filed |
| Parking.DeleteParksIff | internal/service/task_service.go:110-125 | deleting a task does exactly when besides that some other task has asked under that run |
| Parking.SettlingStrandsTask | internal/service/request_service.go:238-290 | histories in which each of approval, denial and expiry strands a task |
| Parking.ForeignRequestStrandsTask | internal/service/request_service.go:126-161 | histories in which a reply to a request another task filed does, and completing, dismissing or moving that task |
| Parking.DeletionStrandsTask | internal/service/task_service.go:110-125 | a history in which deleting the other task does |
| Parking.GrantStrandsTask | internal/service/request_service.go:238-254 | a history in which a request answered by a standing grant does |
| Histories.DeletedIff | internal/service/task_service.go:110-125 | a task is deleted exactly when it is not busy and never ran |
| Histories.RanTaskStays | internal/service/task_service.go:110-125 | a history after which a task that is done cannot be deleted |
| Effects.FollowUpRequeues | internal/service/comment_service.go:29-71 | in every reachable state a follow-up on a task at rest is stored unread and puts it back in line as a candidate with all its attempts, resumable exactly when its newest run has a session and was rate limited, timed out or errored; in the backlog it stays put, and a busy task takes none |
| Effects.PauseMeans | internal/service/task_service.go:141-150 | pausing takes exactly the queued and the resumable out of line |
| Effects.ResumeRequeues | internal/service/task_service.go:152-174 | in every reachable state a resumed task is a candidate again with all its attempts, resumable exactly when its newest run was cut short with a session |
| Effects.MoveMeans | internal/service/task_service.go:206-271 | the columns a task at rest may be moved to, where it ends up, whether its attempts are given back, and that a retired task asks no more |
| Effects.RetireMeans | internal/service/task_service.go:176-204 | completing and dismissing are moves to done and dismissed |
| Effects.CreateAndEdit | internal/service/task_service.go:84-102 | a new task is last in the order, in the backlog or the queue; an edited one keeps its column and gets its attempts back |
| Effects.DeleteMeans | internal/service/task_service.go:110-125 | a task at rest that never ran goes with its comments and requests and the others keep their order; any other stays |
| Effects.CancelMeans | internal/service/run_service.go:71-95 | a cancellation reaches the goroutine working on an active run among the newest thousand and counts if it is the first |
| Effects.FilingMeans | internal/service/request_service.go:126-161 | a request is pending unless it asks to capture under a grant of its own run |
| Effects.ReplyUnparks | internal/service/request_service.go:185-233 | in every reachable state a reply to a pending request is stored, read at once exactly by the run polling for it, and puts a parked task back in line with all its attempts, resumable exactly when its newest run has a session |
| Effects.VerdictsMean | internal/service/request_service.go:238-290 | approving, denying and expiring settle a pending request only, and a grant is left exactly by an approval for the whole of a run |
| Beginnings.BeginMeans | internal/runner/runner.go:135-298 | what starting writes: the row with session, attempt, status and exactly the unread comments from people; or one failed attempt more, the last failing the task; or nothing for a deleted task |
| Beginnings.StartingTheCli | internal/runner/runner.go:336-392 | the row says when the CLI starts; without a token the run is errored and its task goes back to the session it was to resume, else to the queue |
| Beginnings.SessionIsRecorded | internal/runner/runner.go:374-377 | a session announced is in the row at once and is the one the goroutine carries |
| Beginnings.StartingOver | internal/runner/runner.go:416-437 | a missing session is forgotten in the row and in the goroutine |
| Beginnings.SessionIsTakenUp | internal/runner/runner.go:160-220 | a planned resume carries the session of the row it was planned from into its task's newest row |
| Endings.EndMeans | internal/runner/runner.go:577-776 | in every reachable state: success gives succeeded, a suspension or a rate limit rate_limited, a user's cancellation errored with the task paused, a timeout timed_out, anything else errored; otherwise the task is resumable exactly with a session, and a success is delivered, parked or, when all it asked is settled, back in line |
| Endings.EndsStoppedShort | internal/runner/runner.go:700-776 | a run that ends other than by success with a session leaves its task's newest row cut short with that session, so that it can be resumed |
| Endings.FollowUpResumes | internal/service/comment_service.go:29-71 | after any such ending a follow-up makes the task a resumable candidate |
| Passes.PassMeans | internal/scheduler/scheduler.go:646-665 | a pass suspends exactly the running tasks under a current reading with the session spent, fails exactly the resumes out of attempts, launches nothing under a running weekly backoff, a stale or missing reading or a spent window, and otherwise passes a candidate over only for want of workers |
| Passes.OnlyTickets | internal/scheduler/scheduler.go:646-665 | every ticket suspends a running task or concerns a candidate; suspensions come before failures and failures before launches |
| Passes.CandidatesInOrder | internal/scheduler/scheduler.go:694-717 | resumes are considered before fresh starts, and within each kind the user's order decides |
| Passes.PerformMeans | internal/scheduler/plan.go:122-224 | one ticket's effect on the tables, whatever has happened since the plan |
| Passes.RunNowMeans | internal/scheduler/scheduler.go:727-773 | a manual launch picks the candidate of its own task, at rest, or changes nothing |
| Passes.CrashMeans | internal/scheduler/scheduler.go:126-137 | a crash loses what memory held and no row of the tables |

## Left out

- HTTP and MCP framing, SSE, notifications, process control, keychain, OAuth, the usage client, gh and git: inputs and oracles here.
- JSON decoding, regular expressions, prompt text: events arrive decoded, with the predicates of internal/claude/denial.go as fields; `isRejectedKind` and the rate-limit patterns are among them.
- SQL, migrations, connections and store errors: tables are maps and sequences, and calls succeed.
- Finer interleavings: a reconcile that reads its rows before a goroutine starts, or a classification that counts requests before one is settled, is not modelled.
- Requests before a daemon's first reconcile are not modelled.
- Wall-clock resolution, float rounding and the text of reasons: times are whole seconds or bare integers, money and utilisation exact.
- Run costs, turns, models, branches and pull requests on the run row: only status, session, attempt and prompt are kept there.
- SetConfig: the worker count and the attempt cap are fixed along a run of the lifecycle; the other settings vary from pass to pass.
- The watchdog's timing: that it killed a silent process is an input of `Stream`.
- AwaitApproval: it is AwaitResponse followed by Expire.
- A resume command with a token command: it is printed, but the reader does not read command substitutions.
- The achievements other than the streak numbers, and the levels of clampProgress.
- Failures of the file system: removing a worktree or the directory succeeds, and walking a tree meets no errors.
- Transcription, caffeinate, the BLE bridge, the desktop shell, the web interface, the landing site, locks, configuration and retention.
- Attempts.CountAlways: assumes max_attempts of at least 1, because 0 caps every resume and gives no task a budget to count.
- Retries.AttemptsBounded: assumes max_attempts of at least 2 and that no launch is overtaken, because otherwise the bound is false; `Retries.BoundedIff` is the exact condition.
- Retries.ChainsAreFinite: assumes max_attempts of at least 2, because with 1 a queued task may have none left.
- Backoff.SatOutIff: assumes the spent readings of one week report one end of it, as those of one account do; switching accounts is not modelled.
- Workdir.Scan: directories are listed in an order given with the tree.
- Checkout.Task: what a clone's switch does is asked once per position, and LocalClone's search is an oracle.
- Lines.Ledger.UpsertTaskPR: models the line counts only, not the URL and the cached state.
