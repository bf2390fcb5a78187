/** What each kind of step may write, table by table.

    A goroutine between its first and its last word rewrites at most the row it works on; a
    scheduler step writes no run, comment or request row and at most fails a task; a user's
    edit touches one task; a request step settles or files one request; a reply adds one
    comment, settles its request and may put a parked task back in the queue. Each theorem
    about whole runs starts from these frames, and so looks at the body of a step only where
    the step matters to it. A frame is stated as an equation between the state after and the
    state before with a few tables exchanged, so that every table it does not name is known
    to be the same. The proofs are short because the frames say what is left alone and not
    what is done. */
module Frames {
  import opened Domain
  import opened Lifecycle

  // ---------------------------------------------------------------- goroutines

  /** Row `r` keeps its number, its task, its attempt and its prompt. */
  predicate RowRewritten(a: seq<Run>, b: seq<Run>, r: nat)
    requires 1 <= r <= |a|
  {
    && |b| == |a|
    && b[r - 1] == a[r - 1].(session := b[r - 1].session, status := b[r - 1].status)
    && b == a[r - 1 := b[r - 1]]
  }

  /** A step of the goroutine of `t`, other than its first and its last word: it rewrites
      at most the row it works on, may put its task back in the queue, and may end. */
  predicate Minor(s: State, s': State, t: nat) {
    && s' == s.(runs := s'.runs, tasks := s'.tasks, inflight := s'.inflight)
    && (s'.runs == s.runs || (IsWorking(s, t) && RowRewritten(s.runs, s'.runs, s.inflight[t].phase.run)))
    && (s'.tasks == s.tasks
        || (t in s.tasks && t in s'.tasks && Schedulable(s'.tasks[t].status)
            && s'.tasks == s.tasks[t := s.tasks[t].(status := s'.tasks[t].status)]))
    && (s'.inflight == s.inflight || s'.inflight == s.inflight - {t}
        || (IsWorking(s, t) && t in s'.inflight && s'.inflight == s.inflight[t := s'.inflight[t]]
            && s'.inflight[t].manual == s.inflight[t].manual
            && (s'.inflight[t].phase.Returned?
                || (s'.inflight[t].phase.Working? && s'.inflight[t].phase.run == s.inflight[t].phase.run))))
  }

  lemma InvokeIsMinor(s: State, t: nat)
    ensures Minor(s, DoInvoke(s, t), t) && DoInvoke(s, t).tasks == s.tasks
  {
  }

  lemma AutoContinueIsMinor(s: State, t: nat)
    ensures Minor(s, DoAutoContinue(s, t), t) && DoAutoContinue(s, t).tasks == s.tasks
  {
  }

  lemma SessionSeenIsMinor(s: State, t: nat, id: string)
    ensures Minor(s, DoSessionSeen(s, t, id), t) && DoSessionSeen(s, t, id).tasks == s.tasks
  {
  }

  lemma RestartFreshIsMinor(s: State, t: nat)
    ensures Minor(s, DoRestartFresh(s, t), t) && DoRestartFresh(s, t).tasks == s.tasks
  {
  }

  predicate MinorStep(step: Step) {
    GoroutineStep(step) && !step.Begin? && !step.Classify?
  }

  lemma MinorSteps(cfg: Config, s: State, step: Step)
    requires s.booted && MinorStep(step)
    ensures Minor(s, Next(cfg, s, step), step.t)
  {
    if step.Invoke? {
      InvokeIsMinor(s, step.t);
    } else if step.AutoContinue? {
      AutoContinueIsMinor(s, step.t);
    } else if step.SessionSeen? {
      SessionSeenIsMinor(s, step.t, step.id);
    } else if step.RestartFresh? {
      RestartFreshIsMinor(s, step.t);
    }
  }

  // ---------------------------------------------------------------- the scheduler

  /** Scheduling writes no run, comment or request row, and at most fails a task; every
      goroutine that was past its launch keeps its place. */
  predicate Scheduling(s: State, s': State) {
    && s' == s.(tasks := s'.tasks, inflight := s'.inflight, todo := s'.todo, byHand := s'.byHand)
    && (forall t :: t in s'.tasks ==>
          t in s.tasks && (s'.tasks[t] == s.tasks[t] || s'.tasks[t] == s.tasks[t].(status := Failed)))
    && (forall t :: t in s'.inflight && !s'.inflight[t].phase.Launched? ==>
          t in s.inflight && s'.inflight[t].phase == s.inflight[t].phase)
  }

  lemma LaunchSchedules(s: State, c: Candidate, manual: bool)
    ensures Scheduling(s, Launch(s, c, manual))
  {
  }

  lemma CancelSchedules(s: State, t: nat, cause: Cause)
    ensures Scheduling(s, CancelLive(s, t, cause))
  {
  }

  lemma FailSchedules(s: State, t: nat)
    ensures Scheduling(s, SetStatus(s, t, Failed))
  {
  }

  lemma TicketSchedules(s: State, ticket: Ticket)
    ensures Scheduling(s, Perform(s, ticket))
  {
    match ticket
    case ToSuspend(t) => CancelSchedules(s, t, SuspendCause);
    case ToFail(t) => FailSchedules(s, t);
    case ToLaunch(c) => LaunchSchedules(s, c, false);
  }

  lemma PerformSchedules(s: State)
    ensures Scheduling(s, DoPerformNext(s))
  {
    if s.todo != [] {
      TicketSchedules(s.(todo := s.todo[1..]), s.todo[0]);
    }
  }

  lemma ByHandSchedules(s: State, k: nat)
    ensures Scheduling(s, DoLaunchByHand(s, k))
  {
    if k < |s.byHand| {
      LaunchSchedules(s.(byHand := s.byHand[..k] + s.byHand[k + 1..]), s.byHand[k], true);
    }
  }

  predicate PlainSchedulerStep(step: Step) {
    SchedulerStep(step) && !step.Reconcile? && !step.Crash?
  }

  lemma SchedulerSteps(cfg: Config, s: State, step: Step)
    requires s.booted && PlainSchedulerStep(step)
    ensures Scheduling(s, Next(cfg, s, step))
  {
    if step.PerformNext? {
      PerformSchedules(s);
    } else if step.LaunchByHand? {
      ByHandSchedules(s, step.k);
    }
  }

  // ---------------------------------------------------------------- human requests

  /** Creating, approving, denying, expiring and polling write one row of the request table
      and the grants. */
  predicate Requesting(s: State, s': State, q: nat) {
    && s' == s.(requests := s'.requests, nextRequest := s'.nextRequest, grants := s'.grants)
    && (s' == s
        || (q in s'.requests && s'.requests == s.requests[q := s'.requests[q]]
            && if q in s.requests then s'.nextRequest == s.nextRequest && RowSettled(s.requests[q], s'.requests[q])
               else q == s.nextRequest && s'.nextRequest == q + 1 && s'.requests[q].task in s.tasks))
  }

  /** A row keeps its task, its run and its answer, and its status too once it is settled. */
  predicate RowSettled(a: Request, b: Request) {
    b == a.(status := b.status, live := b.live) && (a.status.Pending? || b.status == a.status)
  }

  lemma SettleRequests(s: State, q: nat, st: RequestStatus)
    ensures Requesting(s, DoSettle(s, q, st), q)
  {
  }

  /** The request a step is about. */
  function Subject(s: State, step: Step): nat
    requires RequestStep(step)
  {
    if step.CreateRequest? then s.nextRequest else step.q
  }

  lemma RequestSteps(cfg: Config, s: State, step: Step)
    requires s.booted && RequestStep(step) && !step.Respond? && s.nextRequest !in s.requests
    ensures Requesting(s, Next(cfg, s, step), Subject(s, step))
  {
    if step.Deny? {
      SettleRequests(s, step.q, Denied);
    } else if step.Expire? {
      SettleRequests(s, step.q, Expired);
    }
  }

  /** A reply adds one comment, settles its request, and may put a parked task back. */
  predicate Responding(s: State, s': State, q: nat)
    requires q in s.requests
  {
    var t := s.requests[q].task;
    && s' == s.(comments := s'.comments, nextComment := s.nextComment + 1, requests := s'.requests, tasks := s'.tasks)
    && s.nextComment in s'.comments && s'.comments[s.nextComment].via.ByReply?
    && (s'.comments[s.nextComment].consumedBy == 0 || s'.comments[s.nextComment].via.inBand)
    && s'.comments[s.nextComment].task == t
    && s'.comments == s.comments[s.nextComment := s'.comments[s.nextComment]]
    && s'.requests == s.requests[q := s.requests[q].(status := Answered, response := s.nextComment)]
    && (if t in s.tasks && s.tasks[t].status.AwaitingHuman?
        then t in s'.tasks && Schedulable(s'.tasks[t].status) && s'.tasks == s.tasks[t := s'.tasks[t]]
        else s'.tasks == s.tasks)
  }

  lemma RespondResponds(s: State, q: nat)
    requires IsPending(s, q)
    ensures Responding(s, DoRespond(s, q), q)
  {
    var s1 := Reply(s, q);
    assert s1.tasks == s.tasks && s1.runs == s.runs;
    var t := s.requests[q].task;
    assert DoRespond(s, q) == Unpark(s1, t);
  }

  // ---------------------------------------------------------------- users

  /** Editing, pausing, resuming and moving a task write its row and nothing else. */
  predicate Editing(s: State, s': State, t: nat) {
    && s' == s.(tasks := s'.tasks)
    && (s'.tasks == s.tasks
        || (t in s.tasks && t in s'.tasks && s'.tasks == s.tasks[t := s'.tasks[t]]
            && (s'.tasks[t].status == s.tasks[t].status || UserTarget(s'.tasks[t].status))))
  }

  lemma UpdateEdits(s: State, t: nat, newMode: Option<bool>)
    ensures Editing(s, DoUpdateTask(s, t, newMode), t)
  {
  }

  lemma PauseEdits(s: State, t: nat)
    ensures Editing(s, DoPause(s, t), t)
  {
  }

  lemma ResumeEdits(s: State, t: nat)
    ensures Editing(s, DoResume(s, t), t)
  {
  }

  lemma MoveEdits(s: State, t: nat, to: TaskStatus)
    requires !to.Done? && !to.Dismissed?
    ensures Editing(s, DoMove(s, t, to), t)
  {
  }

  /** A task a user retires takes its pending requests along. */
  predicate Retiring(s: State, s': State, t: nat) {
    && s' == s.(tasks := s'.tasks, requests := s'.requests)
    && (s' == s
        || (t in s.tasks && t in s'.tasks && s'.tasks == s.tasks[t := s'.tasks[t]]
            && UserTarget(s'.tasks[t].status)
            && s'.requests == CancelRequests(s, t).requests))
  }

  lemma RetireRetires(s: State, t: nat, st: TaskStatus)
    requires UserTarget(st)
    ensures Retiring(s, DoRetire(s, t, st), t)
  {
  }

  lemma MoveRetires(s: State, t: nat, to: TaskStatus)
    requires to.Done? || to.Dismissed?
    ensures Retiring(s, DoMove(s, t, to), t)
  {
  }

  /** A follow-up adds one open comment and may re-queue its task. */
  predicate Commenting(s: State, s': State, t: nat) {
    && (s' == s
        || (t in s.tasks && !Busy(s, t)
            && s' == s.(tasks := s'.tasks, comments := s'.comments, nextComment := s.nextComment + 1)
            && s'.comments == s.comments[s.nextComment := Comment(t, ByForm, 0)]
            && (s'.tasks == s.tasks
                || (t in s'.tasks && s'.tasks == s.tasks[t := s'.tasks[t]] && Schedulable(s'.tasks[t].status)))))
  }

  lemma AddCommentComments(s: State, t: nat)
    ensures Commenting(s, DoAddComment(s, t), t)
  {
    if t in s.tasks && !Busy(s, t) && !s.tasks[t].status.Backlog? {
      var s1 := InsertComment(s, t, ByForm, 0);
      var resume := CanResume(s.runs, t);
      assert DoAddComment(s, t) == Requeue(s1, t, resume);
      var s' := Requeue(s1, t, resume);
    }
  }

  /** Everything else a user does: the tables of runs and requests are out of reach, except
      for what a deleted task takes along. */
  lemma CreateFrame(s: State, backlog: bool, agentMode: bool)
    ensures var s' := DoCreateTask(s, backlog, agentMode);
      s' == s.(tasks := s'.tasks, order := s'.order, nextTask := s'.nextTask)
  {
  }

  lemma DeleteFrame(s: State, t: nat)
    ensures var s' := DoDeleteTask(s, t);
      s' == s.(tasks := s'.tasks, order := s'.order, comments := s'.comments, requests := s'.requests)
  {
  }
}
