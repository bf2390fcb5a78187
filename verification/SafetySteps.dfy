/** Each step of a user, of a human request and of the scheduler keeps the core invariant.

    Most of these steps write one table, and the core invariant is kept clause by clause for
    the tables they leave alone. The exceptions are the ones that pair a row with its task:
    moving a task by hand, which may not make it resumable without a session, and the first
    reconcile, which buries every orphan row and gives its task the status that the session
    of the row decides. The burial is shown to error exactly the orphans and to leave alone
    every task this daemon is running. Cancelling a run is shown to find its goroutine, so
    that the branch which would abandon the row directly, and with it the tie between row and
    goroutine, is never taken. */
module SafetySteps {
  import opened Domain
  import opened Lifecycle
  import opened Safety
  import Frames

  // ---------------------------------------------------------------- users

  lemma CreateTaskKeepsCore(s: State, backlog: bool, agentMode: bool)
    requires Core(s)
    ensures Core(DoCreateTask(s, backlog, agentMode))
  {
    var s' := DoCreateTask(s, backlog, agentMode);
    forall t | t in s.tasks
      ensures t < s.nextTask
    {
      assert TaskOk(s, t);
    }
    assert s.nextTask !in s.order;
    forall i | 0 <= i < |s.runs|
      ensures RunOk(s', i)
    {
      assert RunOk(s, i);
    }
    forall t | t in s'.tasks
      ensures TaskOk(s', t)
    {
      if t in s.tasks {
        assert TaskOk(s, t);
      }
    }
    KeepSide(s, s');
  }

  lemma DeleteTaskKeepsCore(s: State, t: nat)
    requires Core(s)
    ensures Core(DoDeleteTask(s, t))
  {
    var s' := DoDeleteTask(s, t);
    if s' != s {
      forall i | 0 <= i < |s.runs|
        ensures RunOk(s', i)
      {
        assert RunOk(s, i);
        assert s.runs[i].task != t;
      }
      forall u | u in s'.tasks
        ensures TaskOk(s', u)
      {
        assert TaskOk(s, u);
      }
      forall c | c in s'.comments
        ensures CommentOk(s', c)
      {
        assert CommentOk(s, c);
      }
      forall q | q in s'.requests
        ensures RequestOk(s', q)
      {
        assert RequestOk(s, q);
      }
    }
  }

  lemma ReorderKeepsCore(s: State, order: seq<nat>)
    requires Core(s) && Lists(order, s.tasks.Keys)
    ensures Core(s.(order := order))
  {
    var s' := s.(order := order);
    KeepRuns(s, s');
    KeepSide(s, s');
  }

  lemma UpdateKeepsCore(s: State, t: nat, row: Task)
    requires Core(s) && t in s.tasks && row.status == s.tasks[t].status
    ensures Core(ResetAttempts(s.(tasks := s.tasks[t := row]), t))
  {
    var s' := ResetAttempts(s.(tasks := s.tasks[t := row]), t);
    assert TaskOk(s, t);
    if !MidRun(row.status) {
      QuietTask(s, t);
    }
    WriteTask(s, t, s'.tasks[t]);
    assert s' == s.(tasks := s.tasks[t := s'.tasks[t]]);
  }

  lemma AddCommentKeepsCore(s: State, t: nat, via: Via, consumedBy: int)
    requires Core(s) && t in s.tasks
    ensures Core(InsertComment(s, t, via, consumedBy))
  {
    var s' := InsertComment(s, t, via, consumedBy);
    forall c | c in s'.comments
      ensures CommentOk(s', c)
    {
      if c in s.comments {
        assert CommentOk(s, c);
      }
    }
    forall q | q in s'.requests
      ensures RequestOk(s', q)
    {
      assert RequestOk(s, q);
    }
    WriteSideTables(s, s');
  }

  /** Writing one task's row, when no run of it is under way. */
  lemma EditingKeepsCore(s: State, s': State, t: nat)
    requires Core(s) && s' == s.(tasks := s'.tasks)
    requires t in s.tasks && t in s'.tasks && s'.tasks == s.tasks[t := s'.tasks[t]]
    requires Quiet(s, t) && (s'.tasks[t].status.Resumable? ==> HasSession(s.runs, t))
    ensures Core(s')
  {
    WriteTask(s, t, s'.tasks[t]);
    assert s' == s.(tasks := s.tasks[t := s'.tasks[t]]);
  }

  lemma MoveKeepsCore(s: State, t: nat, to: TaskStatus)
    requires Core(s) && s.booted
    ensures Core(DoMove(s, t, to))
  {
    if MoveAllowed(s, t, to) {
      QuietTask(s, t);
      if to.Done? || to.Dismissed? {
        Retiring(s, t, to);
      } else {
        Frames.MoveEdits(s, t, to);
        if DoMove(s, t, to) != s {
          EditingKeepsCore(s, DoMove(s, t, to), t);
        }
      }
    }
  }

  lemma PauseKeepsCore(s: State, t: nat)
    requires Core(s) && s.booted
    ensures Core(DoPause(s, t))
  {
    if t in s.tasks && Schedulable(s.tasks[t].status) {
      QuietTask(s, t);
      WriteTask(s, t, s.tasks[t].(status := Paused));
    }
  }

  lemma ResumeKeepsCore(s: State, t: nat)
    requires Core(s) && s.booted
    ensures Core(DoResume(s, t))
  {
    if t in s.tasks && s.tasks[t].status.Paused? {
      QuietTask(s, t);
      Requeueing(s, t, CanResume(s.runs, t));
    }
  }

  lemma RetireKeepsCore(s: State, t: nat, st: TaskStatus)
    requires Core(s) && s.booted && !st.Resumable?
    ensures Core(DoRetire(s, t, st))
  {
    if t in s.tasks && !Busy(s, t) {
      QuietTask(s, t);
      Retiring(s, t, st);
    }
  }

  lemma FollowUpKeepsCore(s: State, t: nat)
    requires Core(s) && s.booted
    ensures Core(DoAddComment(s, t))
  {
    if t in s.tasks && !Busy(s, t) {
      QuietTask(s, t);
      AddCommentKeepsCore(s, t, ByForm, 0);
      if !s.tasks[t].status.Backlog? {
        Requeueing(InsertComment(s, t, ByForm, 0), t, CanResume(s.runs, t));
      }
    }
  }

  lemma UpdateTaskKeepsCore(s: State, t: nat, newMode: Option<bool>)
    requires Core(s)
    ensures Core(DoUpdateTask(s, t, newMode))
  {
    if t in s.tasks {
      UpdateKeepsCore(s, t, if newMode.Some? then s.tasks[t].(agentMode := newMode.value) else s.tasks[t]);
    }
  }

  predicate TaskStep(step: Step) {
    step.UpdateTask? || step.PauseTask? || step.ResumeTask?
    || step.CompleteTask? || step.DismissTask? || step.MoveTask? || step.AddComment?
  }

  lemma TaskStepsKeepCore(s: State, step: Step)
    requires Core(s) && s.booted && TaskStep(step)
    ensures Core(UserNext(s, step))
  {
    match step
    case UpdateTask(t, a) => UpdateTaskKeepsCore(s, t, a);
    case PauseTask(t) => PauseKeepsCore(s, t);
    case ResumeTask(t) => ResumeKeepsCore(s, t);
    case CompleteTask(t) => RetireKeepsCore(s, t, Done);
    case DismissTask(t) => RetireKeepsCore(s, t, Dismissed);
    case MoveTask(t, to) => MoveKeepsCore(s, t, to);
    case AddComment(t) => FollowUpKeepsCore(s, t);
  }

  lemma CancelLiveKeepsCore(s: State, t: nat, cause: Cause)
    requires Core(s)
    ensures Core(CancelLive(s, t, cause))
  {
    var s' := CancelLive(s, t, cause);
    forall u | u in s'.inflight
      ensures LiveOk(s', u)
    {
      assert LiveOk(s, u);
    }
    KeepRuns(s, s');
    KeepSide(s, s');
  }

  /** Once the daemon has reconciled, cancelling a run always finds a goroutine to signal:
      the branch that abandons the row directly is never taken. */
  lemma CancelRunSignals(s: State, r: nat)
    requires Core(s) && s.booted
    ensures Core(DoCancelRun(s, r))
    ensures DoCancelRun(s, r) == s.(inflight := DoCancelRun(s, r).inflight)
    ensures Listed(s, r) && Active(s.runs[r - 1].status) ==>
      var t := s.runs[r - 1].task;
      WorksOn(s, t, r) && DoCancelRun(s, r) == CancelLive(s, t, UserCause)
  {
    if Listed(s, r) && Active(s.runs[r - 1].status) {
      assert RunOk(s, r - 1);
      CancelLiveKeepsCore(s, s.runs[r - 1].task, UserCause);
    }
  }

  // ---------------------------------------------------------------- human requests

  lemma RespondKeepsCore(s: State, q: nat)
    requires Core(s) && s.booted
    ensures Core(DoRespond(s, q))
  {
    var s' := DoRespond(s, q);
    if IsPending(s, q) {
      assert RequestOk(s, q);
      var t := s.requests[q].task;
      var s2 := s.(comments := s'.comments, nextComment := s'.nextComment, requests := s'.requests);
      forall c | c in s2.comments
        ensures CommentOk(s2, c)
      {
        if c in s.comments {
          assert CommentOk(s, c);
        }
      }
      forall p | p in s2.requests
        ensures RequestOk(s2, p)
      {
        assert RequestOk(s, p);
      }
      WriteSideTables(s, s2);
      if s.tasks[t].status.AwaitingHuman? {
        QuietTask(s, t);
        Requeueing(s2, t, HasSession(s.runs, t));
      }
    }
  }

  lemma RequestingKeepsCore(s: State, s': State, q: nat)
    requires Core(s) && Frames.Requesting(s, s', q)
    ensures Core(s')
  {
    if s' != s {
      forall p | p in s'.requests
        ensures RequestOk(s', p)
      {
        if p in s.requests {
          assert RequestOk(s, p);
        }
      }
      forall c | c in s'.comments
        ensures CommentOk(s', c)
      {
        assert CommentOk(s, c);
      }
      WriteSideTables(s, s');
    }
  }

  lemma RequestStepsKeepCore(cfg: Config, s: State, step: Step)
    requires Core(s) && s.booted && RequestStep(step)
    ensures Core(Next(cfg, s, step))
  {
    if step.Respond? {
      RespondKeepsCore(s, step.q);
    } else {
      Frames.RequestSteps(cfg, s, step);
      RequestingKeepsCore(s, Next(cfg, s, step), Frames.Subject(s, step));
    }
  }

  // ---------------------------------------------------------------- the scheduler

  lemma WriteQueues(s: State, todo: seq<Ticket>, byHand: seq<Candidate>)
    requires Core(s) && s.booted
    requires forall k :: k in todo ==> SoundTicket(k)
    requires forall c :: c in byHand ==> Sound(c)
    ensures Core(s.(todo := todo, byHand := byHand))
  {
    var s' := s.(todo := todo, byHand := byHand);
    KeepRuns(s, s');
    KeepSide(s, s');
  }

  lemma LaunchKeepsCore(s: State, c: Candidate, manual: bool)
    requires Core(s) && s.booted && Sound(c)
    ensures Core(Launch(s, c, manual))
  {
    var s' := Launch(s, c, manual);
    forall u | u in s'.inflight
      ensures LiveOk(s', u)
    {
      if u in s.inflight {
        assert LiveOk(s, u);
      }
    }
    KeepRuns(s, s');
    KeepSide(s, s');
  }

  lemma {:induction false} TicketsComeFromCandidates(cs: seq<Candidate>, ds: seq<Policy.Decision>)
    requires |cs| == |ds|
    ensures forall k :: k in LaunchTickets(cs, ds) ==> k.ToLaunch? && k.c in cs
    ensures forall k :: k in FailTickets(cs, ds) ==> k.ToFail?
  {
    if cs != [] {
      var n := |cs| - 1;
      TicketsComeFromCandidates(cs[..n], ds[..n]);
    }
  }

  lemma PassIsSound(cfg: Config, s: State, e: Reading, running: seq<nat>)
    ensures forall k :: k in PassTickets(cfg, s, e, running) ==> SoundTicket(k)
  {
    TicketsComeFromCandidates(Candidates(s), Verdicts(InputFor(cfg, s, e, running, {})));
  }

  lemma PerformKeepsCore(s: State)
    requires Core(s) && s.booted && s.todo != []
    ensures Core(DoPerformNext(s))
  {
    var s1 := s.(todo := s.todo[1..]);
    WriteQueues(s, s.todo[1..], s.byHand);
    assert SoundTicket(s.todo[0]);
    match s.todo[0]
    case ToSuspend(t) => CancelLiveKeepsCore(s1, t, SuspendCause);
    case ToFail(t) =>
      if t in s1.tasks {
        WriteTask(s1, t, s1.tasks[t].(status := Failed));
      }
    case ToLaunch(c) => LaunchKeepsCore(s1, c, false);
  }

  lemma LaunchByHandKeepsCore(s: State, k: nat)
    requires Core(s) && s.booted && k < |s.byHand|
    ensures Core(DoLaunchByHand(s, k))
  {
    var rest := s.byHand[..k] + s.byHand[k + 1..];
    WriteQueues(s, s.todo, rest);
    LaunchKeepsCore(s.(byHand := rest), s.byHand[k], true);
  }

  /** Finishing an active row and moving its task on, when no goroutine works on the row
      afterwards. */
  predicate Finishing(s: State, s': State, r: nat, st: RunStatus, ts: TaskStatus)
    requires 1 <= r <= |s.runs|
  {
    var t := s.runs[r - 1].task;
    && Active(s.runs[r - 1].status) && !Active(st) && (ts.Resumable? ==> s.runs[r - 1].session != "")
    && s' == SetStatus(FinishRun(s, r, st), t, ts).(inflight := s'.inflight)
    && s'.inflight.Keys == s.inflight.Keys
    && (t in s.inflight ==> s'.inflight[t].phase.Returned?)
    && forall u :: u in s.inflight && u != t ==> s'.inflight[u] == s.inflight[u]
  }

  lemma FinishedRows(s: State, s': State, r: nat, st: RunStatus, ts: TaskStatus)
    requires Core(s) && 1 <= r <= |s.runs| && Finishing(s, s', r, st, ts)
    ensures forall i :: 0 <= i < |s'.runs| ==> RunOk(s', i)
    ensures Quiet(s', s.runs[r - 1].task)
  {
    var t := s.runs[r - 1].task;
    assert RunOk(s, r - 1);
    forall i | 0 <= i < |s'.runs|
      ensures RunOk(s', i)
      ensures Active(s'.runs[i].status) ==> s'.runs[i].task != t
    {
      assert RunOk(s, i);
    }
  }

  lemma SameSessions(a: seq<Run>, b: seq<Run>, t: nat)
    requires |a| == |b| && forall i :: 0 <= i < |a| ==> a[i].task == b[i].task && a[i].session == b[i].session
    ensures HasSession(a, t) <==> HasSession(b, t)
  {
  }

  lemma FinishedSessions(s: State, s': State, r: nat, st: RunStatus, ts: TaskStatus, u: nat)
    requires 1 <= r <= |s.runs| && Finishing(s, s', r, st, ts)
    ensures HasSession(s'.runs, u) <==> HasSession(s.runs, u)
  {
    SameSessions(s.runs, s'.runs, u);
  }

  lemma FinishedTasks(s: State, s': State, r: nat, st: RunStatus, ts: TaskStatus)
    requires Core(s) && 1 <= r <= |s.runs| && Finishing(s, s', r, st, ts)
    ensures forall u :: u in s'.tasks ==> TaskOk(s', u)
  {
    var t := s.runs[r - 1].task;
    assert RunOk(s, r - 1);
    assert s'.tasks.Keys == s.tasks.Keys;
    forall u | u in s'.tasks
      ensures TaskOk(s', u)
    {
      assert TaskOk(s, u);
      FinishedSessions(s, s', r, st, ts, u);
    }
  }

  lemma FinishedLives(s: State, s': State, r: nat, st: RunStatus, ts: TaskStatus)
    requires Core(s) && 1 <= r <= |s.runs| && Finishing(s, s', r, st, ts)
    ensures forall u :: u in s'.inflight ==> LiveOk(s', u)
  {
    assert RunOk(s, r - 1);
    forall u | u in s'.inflight
      ensures LiveOk(s', u)
    {
      assert LiveOk(s, u);
    }
  }

  lemma FinishingKeepsCore(s: State, s': State, r: nat, st: RunStatus, ts: TaskStatus)
    requires Core(s) && 1 <= r <= |s.runs| && Finishing(s, s', r, st, ts)
    ensures Core(s')
    ensures Quiet(s', s.runs[r - 1].task)
  {
    assert RunOk(s, r - 1);
    assert s'.tasks.Keys == s.tasks.Keys;
    FinishedRows(s, s', r, st, ts);
    FinishedTasks(s, s', r, st, ts);
    FinishedLives(s, s', r, st, ts);
    KeepSide(s, s');
  }

  /** Rows that are not orphans come out of the burial as they went in, orphans come out
      errored, and the task of a goroutine of this daemon is left alone. */
  predicate Buried(s: State, s': State, k: nat) {
    && s' == s.(tasks := s'.tasks, runs := s'.runs)
    && s'.tasks.Keys == s.tasks.Keys && |s'.runs| == |s.runs|
    && (forall i :: 0 <= i < |s.runs| ==>
          s'.runs[i] == if i < k && Orphan(s, i) then s.runs[i].(status := Errored) else s.runs[i])
    && (forall t :: t in s.tasks && (t in s.inflight || Quiet(s, t)) ==> s'.tasks[t] == s.tasks[t])
  }

  /** One orphan buried: its row is errored, its task has nothing under way. */
  predicate OneBuried(s: State, s2: State, k: nat)
    requires 1 <= k <= |s.runs|
  {
    var r := s.runs[k - 1];
    && s2 == s.(tasks := s2.tasks, runs := s.runs[k - 1 := r.(status := Errored)])
    && r.task in s.tasks && r.task in s2.tasks && s2.tasks == s.tasks[r.task := s2.tasks[r.task]]
    && s2.tasks[r.task].status == TaskStatusAfterInterruption(r.session != "")
  }

  lemma BuryOne(s: State, k: nat, s2: State)
    requires Core(s) && 1 <= k <= |s.runs| && Orphan(s, k - 1)
    requires s2 == SetStatus(FinishRun(s, k, Errored), s.runs[k - 1].task,
                             TaskStatusAfterInterruption(s.runs[k - 1].session != ""))
    ensures Core(s2) && OneBuried(s, s2, k) && Quiet(s2, s.runs[k - 1].task)
  {
    assert RunOk(s, k - 1);
    FinishingKeepsCore(s, s2, k, Errored, s2.tasks[s.runs[k - 1].task].status);
  }

  lemma ThenBuried(s: State, s2: State, s': State, k: nat)
    requires 1 <= k <= |s.runs| && Orphan(s, k - 1) && OneBuried(s, s2, k) && Buried(s2, s', k - 1)
    ensures Buried(s, s', k)
  {
    forall i | 0 <= i < |s.runs|
      ensures s'.runs[i] == if i < k && Orphan(s, i) then s.runs[i].(status := Errored) else s.runs[i]
    {
      assert s2.runs[i] == if i == k - 1 then s.runs[i].(status := Errored) else s.runs[i];
      assert i != k - 1 ==> Orphan(s2, i) == Orphan(s, i);
    }
    forall t | t in s.tasks && (t in s.inflight || Quiet(s, t))
      ensures s'.tasks[t] == s.tasks[t]
    {
      assert t != s.runs[k - 1].task;
      assert Quiet(s, t) ==> Quiet(s2, t);
    }
    assert s'.tasks.Keys == s.tasks.Keys;
  }

  /** The state after the burial has looked at row k alone. */
  function OneStep(s: State, k: nat): State
    requires 1 <= k <= |s.runs|
  {
    var r := s.runs[k - 1];
    if Orphan(s, k - 1)
    then SetStatus(FinishRun(s, k, Errored), r.task, TaskStatusAfterInterruption(r.session != "")) else s
  }

  lemma StepThenRest(s: State, k: nat)
    requires 1 <= k <= |s.runs|
    ensures |OneStep(s, k).runs| == |s.runs|
    ensures BuryOrphans(s, k) == BuryOrphans(OneStep(s, k), k - 1)
  {
  }

  lemma StepKeepsBurying(s: State, k: nat)
    requires Core(s) && 1 <= k <= |s.runs|
    ensures Core(OneStep(s, k)) && |OneStep(s, k).runs| == |s.runs|
    ensures forall s' :: Buried(OneStep(s, k), s', k - 1) ==> Buried(s, s', k)
  {
    var s2 := OneStep(s, k);
    if Orphan(s, k - 1) {
      BuryOne(s, k, s2);
    }
    forall s' | Buried(s2, s', k - 1)
      ensures Buried(s, s', k)
    {
      if Orphan(s, k - 1) {
        ThenBuried(s, s2, s', k);
      }
    }
  }

  lemma {:induction false} Burial(s: State, k: nat)
    requires Core(s) && k <= |s.runs|
    ensures Core(BuryOrphans(s, k)) && Buried(s, BuryOrphans(s, k), k)
    decreases k
  {
    if k > 0 {
      var s2 := OneStep(s, k);
      StepKeepsBurying(s, k);
      Burial(s2, k - 1);
      StepThenRest(s, k);
    }
  }

  lemma ReconcileKeepsCore(s: State)
    requires Core(s)
    ensures Core(DoReconcile(s))
  {
    Burial(s, |s.runs|);
    var s1 := BuryOrphans(s, |s.runs|);
    var s' := s1.(booted := true);
    forall i | 0 <= i < |s'.runs|
      ensures RunOk(s', i)
    {
      assert RunOk(s1, i);
      assert RunOk(s, i);
      assert Active(s'.runs[i].status) ==> !Orphan(s, i);
    }
    KeepSide(s1, s');
  }

  lemma ShutdownKeepsCore(s: State)
    requires Core(s)
    ensures Core(DoShutdown(s))
  {
    var s' := DoShutdown(s);
    forall u | u in s'.inflight
      ensures LiveOk(s', u)
    {
      assert LiveOk(s, u);
    }
    KeepRuns(s, s');
    KeepSide(s, s');
  }

  lemma CrashKeepsCore(s: State)
    requires Core(s)
    ensures Core(DoCrash(s))
  {
    var s' := DoCrash(s);
    forall i | 0 <= i < |s'.runs|
      ensures RunOk(s', i)
    {
      assert RunOk(s, i);
    }
    forall c | c in s'.comments
      ensures CommentOk(s', c)
    {
      assert CommentOk(s, c);
    }
    forall q | q in s'.requests
      ensures RequestOk(s', q)
    {
      assert RequestOk(s, q);
    }
  }
}
