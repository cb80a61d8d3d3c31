# Verified model of ttasks

This project models the core of the ttasks library in Dafny and proves what that core promises:
a scheduler that runs a dependency graph of tasks over a thread pool, the executor that takes one
task through its life cycle, and the SQLite store that keeps tasks and graphs.

Check everything with `dafny verify dfyconfig.toml`.

## The scheduler

`Scheduling` turns one run of a graph into a step relation. A run has three kinds of threads:
workers (start a queued task, settle its status, resolve its future), the holder of the lock (one
iteration of `schedule()` at a time, with a stack of activations because `add_done_callback` on a
finished future re-enters `schedule()` on the spot), and the main thread (closes the pool once
`done` is set). Steps of workers may fall between any two steps of the lock holder, so a pass of
`schedule()` and the tests that follow it need not see the same completions. A pool thread is in use
from the start of a task until the task's callback has run, and tasks get their threads in the order
of submission. A handler is an arbitrary function of the upstream statuses.

`FateOf` is the reference: a recursion over the graph that gives every task its final status and
says whether it is executed, for every mix of entry statuses; `Eval` is its short form for fresh
entries (every task PENDING, SUCCEEDED or CANCELLED). `Safety`, `Control`, `Confluence`, `Guard`,
`Pool`, `FirstSchedule`, `InlineRuns`, `EntryGuard`, `EntryConfluence`, `Recovery` and `Termination`
prove the step relation against it. `SchedulerRun` is the same scheduler as a class whose methods follow
`schedule`, `submit` and `on_finish` statement by statement, with worker steps interleaved by an
arbitrary schedule; `TaskGraphs` adds `add`, `_validate` and `run`.

Two natural claims are false of the code, and `Races` gives runs that show it.

* The no-progress guard (lines 446-459 of `_graph.py`) reads the futures after the pass has ended. A
  future that completes in between, with its callback still waiting for the lock, makes the guard
  report a deadlock that does not exist. `Guard.GuardCause` says what the guard can mean, and
  `Guard.FreshGuardIffDisorder` that from a fresh entry it fires if and only if a test for live
  futures finds none while such a completion waits. Told before the run: whatever the entry and the
  pool, a graph can raise the error if and only if it executes anything at all or leaves a task
  PENDING (`EntryGuard.GuardCanFireIff`).
* `finished` (lines 387-392) counts a FAILED or BLOCKED task that has been submitted but not started
  as finished. `done` can then be set too early, the pool closes, and a later submission is rejected
  inside a callback, where the exception is lost. `Confluence.ConfluenceIffNothingRefused` shows that
  a rejected submission is the only way for a finished run to differ from the evaluator, and
  `Guard.PunctualRunsAreConfluent` which runs are safe from it.

Which graphs are certain to end at the evaluator is told before the run, too. For every entry and
every pool it is enough that each executed task is submitted by the first `schedule()`. It is also
necessary when the pool has a thread for each task that this call submits, or when the call leaves
nothing PENDING, or when there are two threads and no executed finally task waits for a task that
the run blocks (`EntryConfluence.ConfluentIffRunsFirst`). In the last case the condition says that
no executed task depends directly on an executed one (`EntryConfluence.RunsFirstIffUnchained`); for
reruns this gives `Recovery.RecoveryIffIndependent`.

## The executor

`Execution` describes what the executor does to one task, to its event log and to the stored copy,
as functions on values; `Executor` is the class that does it step by step and is proved equal to
those functions. An external `executor.cancel` may land at any set of the fourteen `Point`s of an
attempt, an emission or `mark_blocked` (points that behave alike are one), and saves may fail at any
time.

`Cancellation.ConsistentIffClean` says exactly which cancels leave status, attached result, events
and outcome in agreement. The docstring of `_terminalize` promises that race orderings are harmless;
the code keeps that promise for handlers that return, but not for a cancel that lands after the
exception handler has looked at the status (line 677) and before the FAILED event is out, nor for one
between the comparison and the transition when a handler raises `TaskCancelled`. `AttemptFlaw` names
what such a cancel spoils: the terminal event, the result, the saved copy, or the order of events; the
lemmas `CancelAfterCheckIsLost`, `CancelAfterTransitionIsDoubled` and `CancelAfterCompareLosesEvent`
show it on concrete inputs. `Retries` treats the retry loop. `Histories` treats any sequence of
operations on any number of tasks with any cancels: each promise about a task holds if and only if
the flaw in that task's own history, if there is one, is not of the kind that breaks it.
`Deliveries` says when subscribers find the store up to date. `Reports` tells, without following the
steps, the final task in every field, the outcome and every event with its text, for each way a
handler can end and each set of cancels; `LoopReports` does so for the retry loop, and accounts for
the text of every event of a history.
`WorkerContract` ties attempts to the steps of the scheduler's workers.

## The store

`Tables` models the tables as maps from primary keys to rows and each collection operation as a
function on them, `Sqlite` performs the operations row by row, `Storage` proves the round trips,
`Integrity` what holds after any history, and `Deletion` what deleting a task leaves.

## Model

| member | source | states |
|---|---|---|
| Lifecycle.Status.IsSink | src/ttasks/_task.py:23-32 | the sinks are exactly the statuses without outgoing transitions |
| Lifecycle.WhoBecomes | src/ttasks/_task.py:56-68 | the transitions, told by their target: nothing becomes PENDING, only RUNNING becomes SUCCEEDED, only PENDING becomes BLOCKED, everything but a sink can be cancelled |
| Lifecycle.TerminalOrActive | src/ttasks/_task.py:34-42 | terminal means neither PENDING nor RUNNING, and the bad statuses are the terminal ones but SUCCEEDED |
| Scheduling.FirstBadIsFirst | src/ttasks/_graph.py:368-385 | the parent that is blamed is the first blocking dependency in declaration order |
| Safety.InactiveIsFate | src/ttasks/_graph.py:352-360 | a task that `inactive` reports has the status the evaluator gives it, and the evaluator calls it settled |
| Safety.UpstreamIsFinal | src/ttasks/_graph.py:394-406 | a submitted task's fate in the evaluator is its handler's result on the very statuses it reads, so these are final |
| Control.ReachableInv | src/ttasks/_graph.py:408-467 | every reachable state satisfies the invariant: per-task safety, what a pass has already established, and which callbacks are still owed |
| Control.StepKeeps | src/ttasks/_graph.py:408-467 | every step of every thread keeps the invariant, and what is inactive stays so with its status unchanged |
| Confluence.InactiveIsStable | src/ttasks/_graph.py:352-360 | once inactive, a task stays inactive and its status never changes again in the run; SUCCEEDED is never left |
| Confluence.SubmittedSeesFinalStatuses | src/ttasks/_graph.py:362-366 | from its submission on a task's dependencies, carried-over ones included, have their final statuses; for an ordinary task they are all SUCCEEDED |
| Confluence.HandlerDecides | src/ttasks/_executor.py:642-719 | a finished task is SUCCEEDED if and only if its handler returned, FAILED if and only if it raised or is missing, CANCELLED if and only if it aborted, given the statuses upstream |
| Confluence.SubmittedOnceAndStartable | src/ttasks/_graph.py:398-416 | each task is submitted at most once per run, re-entrant passes included, and a queued task passes the executor's entry check |
| Confluence.AncestorsSucceeded | src/ttasks/_graph.py:362-366 | from an all-PENDING entry every ancestor of a submitted task, up to the first finally task on the way, has SUCCEEDED |
| Confluence.BlameLink | src/ttasks/_graph.py:368-385 | a task blocked in this run names a direct dependency that is final and bad, ranks lower, and was itself blocked in this run if it is BLOCKED |
| Confluence.RootCause | src/ttasks/_graph.py:430-438 | from every task blocked in this run, `blocked_by` leads along direct dependencies, through tasks blocked in this run only, to a FAILED or CANCELLED task |
| Confluence.FixpointIsFate | src/ttasks/_graph.py:410-441 | when nothing can act and nothing is outstanding, every task has the status and the execution the evaluator says |
| Confluence.ConfluenceIffNothingRefused | src/ttasks/_graph.py:334-477 | for every entry and interleaving, a finished run agrees with the evaluator on every task if and only if the closed pool never rejected a submission |
| Confluence.FreshConfluence | src/ttasks/_graph.py:334-477 | from a fresh entry a finished run whose guard did not fire has exactly the evaluator's statuses, for every insertion order and pool size |
| Guard.UnfinishedIsStuck | src/ttasks/_graph.py:443-453 | with nothing live and nothing to act on, an unfinished task leads down to a PENDING task with a direct dependency that entered FAILED or BLOCKED and was never submitted |
| Guard.GuardCause | src/ttasks/_graph.py:446-459 | the guard fires only if a completion came in under the held lock or some PENDING task waits for such a carried-over dependency |
| Guard.FreshGuardIffDisorder | src/ttasks/_graph.py:446-459 | from a fresh entry the guard fires if and only if some test for live futures finds none while a completion that came in under the held lock waits for its callback |
| Guard.OrderlyFreshRunsAreConfluent | src/ttasks/_graph.py:408-459 | a fresh run without such a test ends as it should: `done` means all terminal, and the statuses are the evaluator's |
| Guard.PunctualRunsAreConfluent | src/ttasks/_graph.py:443-459 | for every entry, when `done` is decided with no completion waiting, and for finished-looking tasks with every future done, no submission is rejected and the run ends at the evaluator's fates |
| Guard.RecoveryIffNothingRefused | src/ttasks/_graph.py:317-350 | a rerun over PENDING, SUCCEEDED, FAILED and BLOCKED tasks with returning handlers ends all SUCCEEDED if and only if nothing was rejected, executing each task that had not succeeded exactly once and no other |
| Guard.PunctualRerunsRecover | src/ttasks/_graph.py:378-441 | such a rerun recovers completely when `done` is decided as in `Guard.PunctualRunsAreConfluent` |
| FirstSchedule.FirstScheduleEnds | src/ttasks/_graph.py:469-471 | the first `schedule()` can run to its end, or to its test for live futures, before any worker moves |
| FirstSchedule.EndsAfterFirst | src/ttasks/_graph.py:443-477 | some run then ends without executing more than that first call has submitted, if it ended by itself or there is a thread for each of these tasks |
| InlineRuns.SomeRunFires | src/ttasks/_graph.py:398-459 | whatever the entry and the pool, a graph that executes anything has a run that raises the no-progress error: the last submission completes between a pass and its test |
| InlineRuns.DependentCanBeLost | src/ttasks/_graph.py:398-477 | with two threads, a task that depends directly on one that is executed is never submitted in some finished run |
| InlineRuns.PairCanBeLost | src/ttasks/_graph.py:398-477 | two PENDING tasks, one depending on the other, with two threads, are an instance |
| EntryGuard.GuardCanFireIff | src/ttasks/_graph.py:446-459 | for every entry and every pool, some run raises the no-progress error if and only if the evaluator executes some task or leaves one PENDING |
| EntryGuard.AtRestNeverFires | src/ttasks/_graph.py:446-459 | a graph that executes nothing and leaves nothing PENDING never raises it, in any run |
| EntryGuard.FreshGuardCanFireIff | src/ttasks/_graph.py:446-459 | a fresh graph can raise it if and only if it executes some task |
| EntryConfluence.RunsFirstAreConfluent | src/ttasks/_graph.py:408-477 | for every entry, pool and interleaving, a graph whose executed tasks are all submitted by the first `schedule()` has nothing rejected and ends at the evaluator's fates |
| EntryConfluence.LateTaskCanBeLost | src/ttasks/_graph.py:446-477 | any executed task that the first `schedule()` does not submit is lost in some finished run, if the pool has a thread for each first submission, or that call leaves nothing PENDING, or there are two threads and no executed finally task waits for a task blocked in the run |
| EntryConfluence.ConfluentIffRunsFirst | src/ttasks/_graph.py:334-477 | for these pools and every entry, every finished run agrees with the evaluator on status and execution of every task if and only if every executed task is submitted by the first `schedule()` |
| EntryConfluence.FreshConfluentIffRunsFirst | src/ttasks/_graph.py:334-477 | from a fresh entry the same holds of the final statuses alone |
| EntryConfluence.RunsFirstIffUnchained | src/ttasks/_graph.py:362-366 | where no executed finally task waits for a task blocked in the run, every executed task is submitted by the first `schedule()` if and only if no executed task depends directly on an executed one |
| Recovery.IndependentRerunsRecover | src/ttasks/_graph.py:340-350 | for any entry mix without CANCELLED, any pool and any interleaving, a rerun in which no task still to be executed depends on another has nothing rejected and ends all SUCCEEDED |
| Recovery.DependentRerunCanStop | src/ttasks/_graph.py:387-392 | for every other rerun without PENDING tasks, or with two threads, or with a thread for every task that is ready at once, some run ends with a dependent task left behind |
| Recovery.RecoveryIffIndependent | src/ttasks/_graph.py:378-459 | for these reruns, every run ends all SUCCEEDED if and only if no task still to be executed depends directly on another one |
| Recovery.PairIsDependent | src/ttasks/_graph.py:387-392 | the rerun of two FAILED tasks, one depending on the other, is an instance that can fail |
| Guard.ErrorsAreRedundant | src/ttasks/_graph.py:461-467 | `ok` with the recorded errors equals `ok` without them, after any run |
| Guard.OkIffRequiredSucceed | src/ttasks/_graph.py:216-224 | after a fresh run without guard, `ok` holds if and only if the evaluator gives SUCCEEDED for every task that is not optional |
| Termination.StepDecreases | src/ttasks/_graph.py:398-467 | every step of every thread decreases one measure, nested `schedule()` activations included |
| Termination.RunsAreBounded | src/ttasks/_graph.py:408-477 | no run has more steps than the measure of its initial state |
| Termination.SomeThreadCanStep | src/ttasks/_graph.py:469-477 | no deadlock: in every reachable state that is not finished some thread can step |
| Termination.MaximalRunsFinish | src/ttasks/_graph.py:304-477 | a run that cannot be continued has finished, with `done` set |
| Pool.RunningWithinPool | src/ttasks/_graph.py:334-345 | in every reachable state at most as many tasks are RUNNING as the pool has threads, the thread in `on_finish` counted |
| Pool.StartedInOrder | src/ttasks/_graph.py:334-345 | of the tasks submitted before one that has started, fewer than the pool has threads are still queued; with one thread none |
| Races.GuardCanFireSpuriously | src/ttasks/_graph.py:446-459 | a concrete run of a fresh two-task graph with succeeding handlers in which the guard fires and a task stays PENDING |
| Races.RecoveryCanStopEarly | src/ttasks/_graph.py:387-392 | a concrete rerun of two FAILED tasks with succeeding handlers that leaves the second FAILED |
| SchedulerRun.Scheduler.FirstBadParent | src/ttasks/_graph.py:368-385 | the loop over dependencies finds the first blocking one in declaration order |
| SchedulerRun.Scheduler.Submit | src/ttasks/_graph.py:398-406 | queues the future and attaches the callback, re-entering `schedule()` when the future is already done; only steps of the relation, and the caller's activation is where it was |
| SchedulerRun.Scheduler.Visit | src/ttasks/_graph.py:413-441 | one loop iteration is one step of the relation or a submission, with worker steps in between |
| SchedulerRun.Scheduler.Schedule | src/ttasks/_graph.py:408-459 | the fixpoint loop terminates although `submit` re-enters it, by steps of the relation only, and pops exactly its own activation |
| SchedulerRun.Scheduler.OnFinish | src/ttasks/_graph.py:461-467 | records the exception and schedules again under the lock |
| SchedulerRun.Scheduler.Run | src/ttasks/_graph.py:334-477 | the run terminates with `done` set in a reachable finished state; it agrees with the evaluator if and only if nothing was rejected, and from a fresh entry without guard its statuses are the evaluator's |
| TaskGraphs.DedupKeepsAll | src/ttasks/_graph.py:73-79 | deduplication keeps every dependency, and each only once |
| TaskGraphs.DedupKeepsOrder | src/ttasks/_graph.py:73-79 | the kept dependencies stand in the order of their first mention |
| TaskGraphs.TaskGraph.Add | src/ttasks/_graph.py:47-88 | the whole new state of the graph, for new and for registered tasks, and no change on the error path; keeps the graph well formed |
| TaskGraphs.VisitLowersInDegree | src/ttasks/_graph.py:262-266 | visiting a task lowers the count of unmet dependencies by one exactly for its dependents |
| TaskGraphs.NoRankingAmong | src/ttasks/_graph.py:274-275 | tasks that all wait for one another have no topological ranking |
| TaskGraphs.TaskGraph.Kahn | src/ttasks/_graph.py:261-275 | the loop visits every task if and only if the graph has a topological ranking, which the visiting order then is |
| TaskGraphs.TaskGraph.Validate | src/ttasks/_graph.py:243-275 | accepts a graph if and only if no task is RUNNING, all dependencies are registered and a topological ranking exists; each error names a real defect |
| TaskGraphs.TaskGraph.IsOk | src/ttasks/_graph.py:216-224 | the loop computes `ok`, for every registered task |
| TaskGraphs.TaskGraph.Run | src/ttasks/_graph.py:279-302 | a bad pool size or graph changes nothing, and the defect reported is a real one; otherwise the statuses and errors are those of a finished run, every submitted task has the status its handler's end means, and from a fresh entry a normal return has the evaluator's statuses |
| WorkerContract.PlayedStatus | src/ttasks/_executor.py:581-719 | where the plan says what a handler and the cancels do (returned, raised, aborted or cancelled, missing), the status it gives is the one the attempt ends with |
| WorkerContract.WorkerStepsAreAnAttempt | src/ttasks/_executor.py:581-719 | the scheduler's worker steps on a queued task can be taken one after the other and have the effect of one attempt, for every handler and cancels that the plan describes so: same status, the future raises exactly when the attempt does, nothing else changes |
| Cancellation.EmittedEffect | src/ttasks/_executor.py:352-371 | an emission delivers one lifecycle event after the save, whether or not the save fails, and touches no other task |
| Cancellation.EmittedAtEffect | src/ttasks/_executor.py:352-371 | a cancel between the save and the delivery only marks a RUNNING task, does nothing to a sink, and otherwise delivers CANCELLED first |
| Reports.EmittedAtSays | src/ttasks/_executor.py:352-371 | an emission delivers its kind, previous status and error text, after the CANCELLED event of a cancel that comes between, if that has one |
| Cancellation.CancelEffect | src/ttasks/_executor.py:452-495 | `cancel` is a no-op on sinks, only marks a RUNNING task, and otherwise attaches a CANCELLED result and delivers one CANCELLED event |
| Cancellation.BlockEffect | src/ttasks/_executor.py:313-326 | only a PENDING task is blocked, unless a cancel comes first; it records the parent, keeps its result and delivers one BLOCKED event; a cancel after the transition delivers CANCELLED before BLOCKED and leaves a CANCELLED task |
| Cancellation.TerminalizedFromRunning | src/ttasks/_executor.py:328-350 | the terminal write is refused exactly when a cancel arrives first, unless it records a cancellation already visible; what is then left in the task |
| Cancellation.TerminalizedFromPending | src/ttasks/_executor.py:590-614 | the same for a PENDING task without handler, where the cancel delivers its own event and result |
| Cancellation.ReturnedEffect | src/ttasks/_executor.py:642-690 | a return that loses the race to a cancel is recorded as cancelled, its result replaced |
| Cancellation.AttemptEffect | src/ttasks/_executor.py:581-719 | for every handler and every set of cancels: final status, the events delivered, what a badly timed cancel spoils and what it leaves intact, and whether the outcome tells the status |
| Cancellation.AttemptKeepsContract | src/ttasks/_executor.py:581-719 | the status is SUCCEEDED, FAILED or CANCELLED as the cancels and the handler determine, and the attempt returns exactly when it is SUCCEEDED |
| Cancellation.ConsistentIffClean | src/ttasks/_executor.py:642-719 | status, result, exactly one terminal event and outcome agree if and only if no cancel falls into one of the windows of `AttemptFlaw` |
| Cancellation.ReturningIsCancelSafe | src/ttasks/_executor.py:642-690 | an attempt whose handler returns is consistent whatever cancels arrive |
| Cancellation.CancelAfterCheckIsLost | src/ttasks/_executor.py:677-719 | a cancel after the exception handler's check leaves a CANCELLED task with a FAILED result and no terminal event |
| Cancellation.CancelAfterTransitionIsDoubled | src/ttasks/_executor.py:346-350 | a cancel after the transition to FAILED leaves both a CANCELLED and a FAILED event |
| Cancellation.CancelAfterCompareLosesEvent | src/ttasks/_executor.py:348-350 | a cancel between comparison and transition of a handler's own cancellation loses the CANCELLED event |
| Cancellation.AttemptRefused | src/ttasks/_executor.py:587-588 | a task that cannot enter RUNNING is left untouched |
| Reports.ResultsRecord | src/ttasks/_task.py:375-400 | a result after a return has standard output as output, standard error as error if there is any, the return code and no reason; after a failure or a cancellation the reason, code and text that tell them apart |
| Reports.AttemptFollows | src/ttasks/_executor.py:581-719 | for every handler and every set of cancels: the final task in every field, the outcome with its message, and every event with its text, as a table gives them that does not follow the steps |
| Reports.FinalError | src/ttasks/_task.py:233-242 | the error a task keeps: the handler's text or that of the missing handler; None after a return or when a cancel had marked the task while it was RUNNING |
| Reports.AttemptStartsClean | src/ttasks/_task.py:219-242 | entering RUNNING leaves no error, result or blame of before |
| Reports.AttemptForgets | src/ttasks/_executor.py:642-719 | how an attempt with a handler ends, task and outcome, does not depend on what the task held before |
| Reports.UndisturbedAnnounces | src/ttasks/_executor.py:711-718 | without cancels the last event has the status and the error that the task has |
| Reports.UndisturbedRecords | src/ttasks/_executor.py:642-719 | without cancels the attached result says, field by field, what the handler returned or raised, and a return hands out that result |
| Retries.RetryKeepsContract | src/ttasks/_executor.py:525-550 | for every script the loop ends in a final status and returns exactly when it is SUCCEEDED |
| Retries.RetryTrace | src/ttasks/_executor.py:525-550 | for every script: without a flawed attempt the events are fewer than n times STARTED, FAILED and then one final attempt or a cancellation that came between or before attempts; otherwise the same up to the flawed attempt, which is the last |
| Retries.OutcomeTellsStatus | src/ttasks/_executor.py:525-550 | a return means SUCCEEDED, `TaskCancelled` CANCELLED and any other error FAILED, if and only if: for one attempt, no cancel prevents it or makes it flawed; for several, no cancel falls between the checks after a failed attempt that the loop reaches |
| Retries.CancelBetweenChecksHidesItself | src/ttasks/_executor.py:536-542 | a cancel between the two checks: the handler's error is raised although the task is CANCELLED |
| Retries.UndisturbedAttempt | src/ttasks/_executor.py:642-719 | without cancels the attempt records exactly what the handler did, in all fields of the task |
| Retries.DecidingAttemptWins | src/ttasks/_executor.py:530-542 | without cancels the outcome and result are those of the first attempt that does not raise, or of the last one, whose error is raised again |
| LoopReports.RetryFollows | src/ttasks/_executor.py:525-550 | for every script: which attempt is the last, and from it the final task, the outcome with its message, and the events of all attempts with their texts |
| LoopReports.TextsAreAccounted | src/ttasks/_executor.py:313-371 | after any history and any cancels: STARTED, SUCCEEDED and BLOCKED events carry no error, FAILED the text of a handler of this task or that it has none, CANCELLED that of the cancel, of such a handler, or of the return it overtook |
| Histories.HistoryTells | src/ttasks/_executor.py:313-371 | after any history and any cancels, a task without a badly timed cancel has an unbroken chain of legal events, a matching result and its live copy in a reliable store; otherwise exactly what the flaw says is broken |
| Histories.SinkEventsMatch | src/ttasks/_executor.py:452-495 | after any history exactly one SUCCEEDED event iff SUCCEEDED, at most one CANCELLED event and only if CANCELLED; and exactly one CANCELLED event iff CANCELLED, if and only if no cancel of this task has lost its event |
| Histories.ResultMatchesStatus | src/ttasks/_executor.py:452-495 | after any history the result says what the status says, if and only if no cancel of this task has spoilt it |
| Deliveries.SavedBeforeDelivery | src/ttasks/_executor.py:352-371 | after any history, with successful saves, every lifecycle event of a task was delivered after the task had been saved as it was then, if and only if no cancel landed inside the emission of STARTED of one of its attempts |
| Deliveries.DeliveredLive | src/ttasks/_executor.py:360-430 | every event carries the status of the live task, and even then the stored copy differs in its status only, RUNNING for CANCELLED; the report of a failed save carries its error |
| Histories.StoreAgreesAtRest | src/ttasks/_executor.py:408-430 | after any history, with successful saves, the stored copy is the live task, if and only if no cancel of this task has left it unsaved |
| Histories.FailuresAreReported | src/ttasks/_executor.py:408-430 | after any history `persistence_errors` names exactly the tasks whose saves have failed, in the order of the saves, and the PERSISTENCE_FAILED events name the same |
| Histories.PreviousStatusLinks | src/ttasks/_executor.py:352-371 | after any history each event's previous status is the one the task's preceding event reached, if and only if no cancel of this task has doubled its last event |
| Histories.SinksAreFinal | src/ttasks/_task.py:56-68 | under any cancels no task rests in RUNNING, and no later operation changes a SUCCEEDED or CANCELLED task, result included |
| Histories.StoreFailuresDoNotMatter | src/ttasks/_executor.py:408-430 | a failing or missing store changes neither a task, nor its lifecycle events, nor an outcome |
| Histories.FailingStoreStays | src/ttasks/_executor.py:408-430 | while every save fails, the store stays as it was |
| Backoff.SleepRetryBackoff | src/ttasks/_executor.py:567-579 | the pause ends, is never cut short without a cancel, and a long one notices a cancel within one poll |
| Executor.Task.TransitionTo | src/ttasks/_task.py:219-242 | moves exactly along the allowed transitions, field by field: RUNNING clears error, result and blame, SUCCEEDED the error, any other takes the error given and keeps the rest |
| Executor.Task.Cancel | src/ttasks/_task.py:244-253 | idempotent, and keeps the error text |
| Executor.TaskExecutor.Terminalize | src/ttasks/_executor.py:328-350 | performs the terminal write that `Cancellation` analyses, cancels landing between its statements |
| Executor.TaskExecutor.Cancel | src/ttasks/_executor.py:452-495 | performs the cancel of `Cancellation.CancelEffect` |
| Executor.TaskExecutor.Emit | src/ttasks/_executor.py:352-371 | saves, then delivers what the task and its stored copy are by then |
| Executor.TaskExecutor.MarkBlocked | src/ttasks/_executor.py:313-326 | blocks a PENDING task unless a cancel comes first, records the parent, delivers BLOCKED; refuses any other |
| Executor.TaskExecutor.ExecuteOnce | src/ttasks/_executor.py:581-719 | performs the attempt that `Cancellation` and `Reports` analyse |
| Executor.TaskExecutor.Execute | src/ttasks/_executor.py:497-550 | performs the retry loop that `Retries` and `LoopReports` analyse; its counter never reaches the number of attempts, so the exit at line 550 is unreachable |
| Storage.StoredTexts | src/ttasks/_task.py:13-51 | the status and type columns hold the values of the enumerations; any other text is refused |
| Storage.TaskRoundTrip | src/ttasks/_sqlite.py:491-606 | a saved task loads as itself without the raw value, if and only if its timeout is one the constructor accepts and its result carries its own id |
| Storage.UpsertEffect | src/ttasks/_sqlite.py:491-536 | an upsert writes the task's rows, removes a result that is gone, and touches no other task |
| Storage.UpsertRefusal | src/ttasks/_sqlite.py:491-536 | an upsert is refused, with a foreign key error, if and only if its result belongs to a task that is not stored |
| Storage.SaveEffect | src/ttasks/_sqlite.py:318-371 | a graph is saved if and only if its dependencies are registered; its rows replace an older version and other graphs' rows and other tasks stay as they were |
| Storage.SortedIs | src/ttasks/_sqlite.py:385-400 | rows ordered by position and id come back in the order in which they were numbered |
| Tables.SortedByPosition | src/ttasks/_sqlite.py:385-400 | rows come by position, and by identity where positions are equal |
| Storage.GraphRoundTrip | src/ttasks/_sqlite.py:318-426 | over any tables, a saved graph loads with the same id, title, time, task order, ordered dependencies, flags, tasks and results without raw values |
| Storage.GraphComesBack | src/ttasks/_sqlite.py:318-426 | the same, stated field by field for the graph, its tasks and their results |
| Integrity.HistoryKeepsSound | src/ttasks/_sqlite.py:135-159 | after any history of saves and deletes no row refers to a missing one and edges join members of their graph |
| Integrity.SoundGraphsLoad | src/ttasks/_sqlite.py:373-426 | every stored graph loads without a missing key, dependency-closed and fit to be saved again |
| Integrity.StoredGraphsLoad | src/ttasks/_sqlite.py:318-433 | the same after any history from the empty store |
| Integrity.LoadProblems | src/ttasks/_sqlite.py:248-260 | a task load fails with a KeyError exactly for a missing row, with a ValueError exactly for rows that do not convert back |
| Integrity.GraphNeedsRows | src/ttasks/_sqlite.py:373-426 | over any tables, a graph that loads is stored, its edges start at members, and its members and all their dependencies load; a missing graph and a stray edge are KeyErrors |
| Integrity.ReloadIsStable | src/ttasks/_sqlite.py:318-426 | a loaded graph saved into any store loads as the very same graph |
| Integrity.DeleteGraphKeepsTheRest | src/ttasks/_sqlite.py:428-433 | deleting a graph keeps every task, and every other graph loads as before; a missing graph is a KeyError |
| Deletion.DeletedTaskIsGone | src/ttasks/_sqlite.py:262-267 | a stored task is deleted and then missing, every other task loads as before; a missing one is a KeyError |
| Deletion.DeleteTaskKeepsTheRest | src/ttasks/_sqlite.py:135-159 | in sound tables a deleted task is gone from the order, the flags and every dependency list of each graph that held it, which loads as before otherwise; all other graphs load as before |
| Integrity.OkSurvivesReload | src/ttasks/_sqlite.py:373-426 | a graph saved after a run has the same `ok` when loaded, although recorded errors are not stored |
| Sqlite.SqliteStore.SaveTask | src/ttasks/_sqlite.py:239-246 | the two statements of an upsert, rolled back when a foreign key fails |
| Sqlite.SqliteStore.DeleteTask | src/ttasks/_sqlite.py:262-267 | the DELETE with its cascades, and no change for a missing task |
| Sqlite.SqliteStore.SaveGraph | src/ttasks/_sqlite.py:318-371 | the statements and loops of a graph save, rolled back on a missing dependency or foreign key |
| Sqlite.SqliteStore.SelectEdges | src/ttasks/_sqlite.py:393-410 | the ordered edge rows, read task by task, are each task's dependencies in order |
| Sqlite.SqliteStore.LoadGraph | src/ttasks/_sqlite.py:373-426 | groups edges by task and adds member after member, with the errors of missing keys |

## Left out

- Scheduling.Next: other threads do not change the graph's tasks during a run; a cancel of a task that a run has started appears only as its handler's outcome.
- Scheduling.AllFinished: the test of line 443 is one step. The code asks task after task, and since a carried-over task that is queued looks finished until it starts, the code can find all finished when at no single moment all were.
- Scheduling.Visit: one loop iteration reads all dependencies in one step. The code asks `first_bad_parent` and then `ready` dependency after dependency while workers complete futures, so the blamed parent need not be the first blocking one at any single moment.
- EntryConfluence.ConfluentIffRunsFirst: with fewer threads than first submissions, and one thread or an executed finally task that waits for a blocked one, only `EntryConfluence.RunsFirstAreConfluent` is stated; whether another graph can lose a task then turns on the order in which its tasks are submitted.
- Recovery.RecoveryIffIndependent: for reruns with PENDING tasks, one thread and several tasks ready at once only the direction of `Recovery.IndependentRerunsRecover` is stated, for the same reason.
- WorkerContract.WorkerStepsAreAnAttempt: a task without handler that is cancelled during its attempt ends CANCELLED, which no plan of the scheduler expresses.
- Execution.Attempt: `transition_to`, `_persist`, the delivery of one event and `executor.cancel` are one step each, and one task is not executed by two callers at once.
- Execution.Result: time stamps, durations and raw values of results are not part of the executor's model; the store's model has them.
- Tables.LoadGraph: the loads of a graph and of its tasks see one state of the tables, as without concurrent writers.
- Handlers raise only ordinary exceptions and terminate; what `KeyboardInterrupt` and the like do is not modelled.
- Subprocess handling, timeouts of subprocesses and the Copilot handlers: operating system and network calls, a handler is an arbitrary outcome.
- The asynchronous path of the executor (`submit`, `shutdown`, cancelled futures) and the internals of the thread pool: library behaviour.
- Progress and output events and subscriber management of the event bus: they do not touch tasks or the store.
- `_persist_graph` and its list of failures: it calls the graph save and records an error.
- The in-memory store, connections, journal modes, the schema version and its migration: wrappers and I/O.
- Iteration, length, membership and `cancel` of the collections, the views of a graph, type checks and representations: easy members.
