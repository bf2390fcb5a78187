/** The rows of the task and run tables, and the two definitions every other part shares:
    how many attempts a task has behind it, and which status an interrupted task takes. */
module Domain {

  datatype Option<+T> = None | Some(value: T)

  datatype TaskStatus =
    | Backlog | Queued | Running | Resumable | Paused | AwaitingHuman
    | PrCreated | Done | Dismissed | Failed

  /** `Executing` is the run status the source spells "running". */
  datatype RunStatus =
    | Starting | Executing | Resuming
    | Succeeded | RateLimited | TimedOut | Errored | Abandoned

  /** The statuses a run row may hold while a daemon is working on it. */
  predicate Active(s: RunStatus) {
    s.Starting? || s.Executing? || s.Resuming?
  }

  /** The final statuses a stopped run can be picked up from. */
  predicate Interrupted(s: RunStatus) {
    s.RateLimited? || s.TimedOut? || s.Errored?
  }

  datatype Task = Task(status: TaskStatus, attemptReset: nat, agentMode: bool)

  /** A run row. `prompt` is the set of follow-up comments its launch prompt carried, and
      `since` the id the next comment had when it was made; the source keeps neither in the
      row. Runs are numbered from 1. */
  datatype Run = Run(
    id: nat, task: nat, session: string, status: RunStatus, attempt: nat, prompt: set<nat>, since: nat)

  /** How many attempts `prior` counts for: none if there is no prior run, or if the user
      reset the task at or after it. */
  function EffectiveAttempt(attemptReset: nat, prior: Option<Run>): nat {
    if prior.None? || prior.value.id <= attemptReset then 0 else prior.value.attempt
  }

  function TaskStatusAfterInterruption(hasSession: bool): TaskStatus {
    if hasSession then Resumable else Failed
  }

  /** The statuses the scheduler launches from. */
  predicate Schedulable(s: TaskStatus) {
    s.Queued? || s.Resumable?
  }

  lemma Fewer<T>(a: set<T>, b: set<T>)
    requires a <= b
    ensures |a| <= |b|
  {
    assert b == a + (b - a);
  }
}
