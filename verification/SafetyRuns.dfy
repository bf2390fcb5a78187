/** Each step of a run goroutine keeps the core invariant, and so every step does.

    Starting a run inserts a row and makes it the newest of its task, so every other goroutine
    keeps its own. While the CLI works the goroutine rewrites its own row, and remembers the
    session it wrote. The classification at the end finishes the row and moves the task on:
    its many branches are brought to one outline first (`Classified`), in which the task is
    resumable only if the goroutine carries a session, and the invariant is kept for the
    outline. The last section puts all kinds of steps together, and states the invariant of
    every reachable state. */
module SafetyRuns {
  import opened Domain
  import opened Lifecycle
  import opened Safety
  import opened SafetySteps
  import Frames

  // ---------------------------------------------------------------- run goroutines

  /** Inserting a run for a task whose goroutine is about to work on it, or to give up. */
  lemma InsertingKeepsCore(s: State, s': State, t: nat, row: Run)
    requires Core(s) && s.booted && t in s.tasks && IsLaunched(s, t)
    requires row.id == |s.runs| + 1 && row.task == t
    requires s' == s.(runs := s.runs + [row], tasks := s'.tasks, inflight := s'.inflight)
    requires s'.inflight.Keys == s.inflight.Keys && forall u :: u in s.inflight && u != t ==> s'.inflight[u] == s.inflight[u]
    requires s'.tasks.Keys == s.tasks.Keys && forall u :: u in s.tasks && u != t ==> s'.tasks[u] == s.tasks[u]
    requires !s'.tasks[t].status.Resumable?
    requires if Active(row.status)
             then MidRun(s'.tasks[t].status) && WorksOn(s', t, row.id) && row.session == Carried(s'.inflight[t].phase)
             else s'.inflight[t].phase.Returned?
    ensures Core(s')
  {
    NewestPush(s.runs, row);
    forall i | 0 <= i < |s'.runs|
      ensures RunOk(s', i)
    {
      if i < |s.runs| {
        assert RunOk(s, i);
        if Active(s.runs[i].status) {
          assert WorksOn(s, s.runs[i].task, i + 1);
          assert s.runs[i].task != t;
        }
      }
    }
    forall u | u in s'.tasks
      ensures TaskOk(s', u)
    {
      assert TaskOk(s, u);
    }
    forall u | u in s'.inflight
      ensures LiveOk(s', u)
    {
      assert LiveOk(s, u);
    }
    KeepSide(s, s');
  }

  /** Rewriting the status and session of the active row a goroutine works on. */
  lemma RewritingKeepsCore(s: State, s': State, t: nat, r: nat, row: Run)
    requires Core(s) && WorksOn(s, t, r) && 1 <= r <= |s.runs|
    requires row == s.runs[r - 1].(session := row.session, status := row.status) && Active(row.status)
    requires s' == s.(runs := s.runs[r - 1 := row], inflight := s'.inflight)
    requires s'.inflight.Keys == s.inflight.Keys
    requires WorksOn(s', t, r) && row.session == Carried(s'.inflight[t].phase)
    requires forall u :: u in s.inflight && u != t ==> s'.inflight[u] == s.inflight[u]
    ensures Core(s')
  {
    assert LiveOk(s, t);
    assert RunOk(s, r - 1);
    forall i | 0 <= i < |s'.runs|
      ensures RunOk(s', i)
    {
      assert RunOk(s, i);
    }
    RewritingKeepsTasks(s, s', t, r);
    forall u | u in s'.inflight
      ensures LiveOk(s', u)
    {
      assert LiveOk(s, u);
    }
    KeepSide(s, s');
  }

  lemma RewritingKeepsTasks(s: State, s': State, t: nat, r: nat)
    requires Core(s) && LastOf(s.runs, r, t) && RunOk(s, r - 1) && Active(s.runs[r - 1].status)
    requires s'.tasks == s.tasks && s'.nextTask == s.nextTask && |s'.runs| == |s.runs|
    requires forall i :: 0 <= i < |s.runs| ==> s'.runs[i].task == s.runs[i].task && (i != r - 1 ==> s'.runs[i] == s.runs[i])
    ensures forall u :: u in s'.tasks ==> TaskOk(s', u)
  {
    forall u | u in s'.tasks
      ensures TaskOk(s', u)
    {
      assert TaskOk(s, u);
      assert s.tasks[u].status.Resumable? ==> u != t;
      assert u != t ==> Newest(s.runs, u) != r;
    }
  }

  lemma StartRunKeepsCore(s: State, t: nat)
    requires Core(s) && s.booted && IsLaunched(s, t) && t in s.tasks
    ensures Core(StartRun(s, t, s.inflight[t].phase.c))
  {
    var c := s.inflight[t].phase.c;
    var s' := StartRun(s, t, c);
    InsertingKeepsCore(s, s', t, s'.runs[|s.runs|]);
  }

  lemma PreflightKeepsCore(cfg: Config, s: State, t: nat)
    requires Core(s) && s.booted && IsLaunched(s, t) && t in s.tasks
    ensures Core(SetPhase(Preflight(cfg, s, t), t, Returned))
  {
    var s' := SetPhase(Preflight(cfg, s, t), t, Returned);
    InsertingKeepsCore(s, s', t, s'.runs[|s.runs|]);
  }

  lemma ReturningKeepsCore(s: State, t: nat)
    requires Core(s) && IsLaunched(s, t)
    ensures Core(SetPhase(s, t, Returned))
  {
    var s' := SetPhase(s, t, Returned);
    forall u | u in s'.inflight
      ensures LiveOk(s', u)
    {
      assert LiveOk(s, u);
    }
    KeepRuns(s, s');
    KeepSide(s, s');
  }

  lemma BeginKeepsCore(cfg: Config, s: State, t: nat, fails: bool)
    requires Core(s) && s.booted
    ensures Core(DoBegin(cfg, s, t, fails))
  {
    if IsLaunched(s, t) {
      if t !in s.tasks {
        ReturningKeepsCore(s, t);
      } else if fails {
        PreflightKeepsCore(cfg, s, t);
      } else {
        StartRunKeepsCore(s, t);
      }
    }
  }

  lemma TokenFailureKeepsCore(s: State, t: nat)
    requires Core(s)
    ensures Core(DoTokenFailure(s, t))
  {
    if IsWorking(s, t) && !s.inflight[t].phase.invoked {
      var s' := DoTokenFailure(s, t);
      var p := s.inflight[t].phase;
      assert LiveOk(s, t);
      assert RunOk(s, p.run - 1);
      FinishingKeepsCore(s, s', p.run, Errored, s'.tasks[t].status);
    }
  }

  lemma InvocationStepsKeepCore(cfg: Config, s: State, step: Step)
    requires Core(s) && s.booted
    requires step.Invoke? || step.AutoContinue? || step.SessionSeen? || step.RestartFresh?
    ensures Core(Next(cfg, s, step))
  {
    var t := step.t;
    var s' := Next(cfg, s, step);
    if s' != s {
      assert LiveOk(s, t);
      var r := s.inflight[t].phase.run;
      RewritingKeepsCore(s, s', t, r, s'.runs[r - 1]);
    }
  }

  /** The outline of a classification: the row is finished, the task moves on, the
      goroutine has nothing left to do but exit. */
  predicate Classified(s: State, s': State, t: nat, r: nat) {
    && t in s.tasks && WorksOn(s, t, r) && 1 <= r <= |s.runs| && t in s'.tasks
    && s' == s.(tasks := s'.tasks, runs := s'.runs, inflight := s'.inflight,
                comments := s'.comments, nextComment := s'.nextComment)
    && s'.tasks == s.tasks[t := s'.tasks[t]]
    && |s'.runs| == |s.runs| && !Active(s'.runs[r - 1].status)
    && s'.runs == s.runs[r - 1 := s.runs[r - 1].(status := s'.runs[r - 1].status)]
    && s'.inflight == s.inflight[t := s.inflight[t].(phase := Returned)]
    && (s'.tasks[t].status.Resumable? ==> Carried(s.inflight[t].phase) != "")
    && s'.nextComment >= s.nextComment
    && (forall c :: c in s'.comments ==>
          if c in s.comments then s'.comments[c].task == s.comments[c].task
          else c < s'.nextComment && s'.comments[c].task == t)
  }

  lemma DeliverFrame(s: State, t: nat, r: nat, consume: bool, report: bool)
    ensures var s' := Deliver(s, t, r, consume, report);
      s' == s.(comments := s'.comments, nextComment := s'.nextComment)
  {
  }

  /** Moving a task on writes its row and nothing else. */
  lemma TaskEdited(s: State, s2: State, s': State, t: nat, fromSession: bool, st: TaskStatus)
    requires s2 == s.(runs := s2.runs, comments := s2.comments, nextComment := s2.nextComment)
    requires s' == Requeue(s2, t, fromSession) || s' == SetStatus(s2, t, st)
    ensures s' == s.(runs := s'.runs, tasks := s'.tasks, comments := s'.comments, nextComment := s'.nextComment)
  {
  }

  lemma SettleFrame(s: State, t: nat, p: Phase, cause: Cause, err: InvokeError, waiting: bool, text: bool)
    requires p.Working? && 1 <= p.run <= |s.runs|
    ensures var s' := Settle(s, t, p, cause, err, waiting, text);
      s' == s.(runs := s'.runs, tasks := s'.tasks, comments := s'.comments, nextComment := s'.nextComment)
  {
    var s' := Settle(s, t, p, cause, err, waiting, text);
    if err.NoError? {
      SuccessSettles(s, t, p, cause, waiting, text);
      TaskEdited(s, Delivered(s, t, p, waiting, text), s', t, Carried(p) != "",
                 if p.agentMode && waiting then AwaitingHuman else PrCreated);
    } else {
      FailureSettles(s, t, p, cause, err, waiting, text);
      TaskEdited(s, FinishRun(s, p.run, RunOutcome(err, cause)), s', t, false, FailureStatus(cause, Carried(p) != ""));
    }
  }

  /** A classification writes run, task and comment rows and the goroutine's phase. */
  lemma ClassifyFrame(s: State, t: nat, err: InvokeError, waiting: bool, text: bool)
    ensures var s' := DoClassify(s, t, err, waiting, text);
      && s' == s.(runs := s'.runs, tasks := s'.tasks, comments := s'.comments,
                  nextComment := s'.nextComment, inflight := s'.inflight)
      && (s'.inflight == s.inflight
          || (t in s.inflight && s'.inflight == s.inflight[t := s.inflight[t].(phase := Returned)]))
  {
    if IsWorking(s, t) && s.inflight[t].phase.invoked {
      var l := s.inflight[t];
      SettleFrame(s, t, l.phase, l.cause, err, waiting, text);
    }
  }

  lemma DeliverShape(s: State, t: nat, r: nat, consume: bool, report: bool)
    requires forall c :: c in s.comments ==> c < s.nextComment
    ensures
      var s' := Deliver(s, t, r, consume, report);
      && s' == s.(comments := s'.comments, nextComment := s'.nextComment)
      && s'.nextComment >= s.nextComment
      && forall c :: c in s'.comments ==>
           if c in s.comments then s'.comments[c].task == s.comments[c].task
           else c < s'.nextComment && s'.comments[c].task == t
  {
  }

  /** A classification, whichever way it goes: the row is finished as `st`, `s2` has the
      comments settled, the task is either re-queued or set to `ts`. */
  lemma SettledIsClassified(s: State, s1: State, s2: State, t: nat, p: Phase, answered: bool,
                            st: RunStatus, ts: TaskStatus, s': State)
    requires p.Working? && t in s.tasks && WorksOn(s, t, p.run) && s.inflight[t].phase == p && 1 <= p.run <= |s.runs|
    requires s1 == FinishRun(s, p.run, st) && !Active(st)
    requires s2 == s1.(comments := s2.comments, nextComment := s2.nextComment) && s2.nextComment >= s.nextComment
    requires forall c :: c in s2.comments ==>
      if c in s.comments then s2.comments[c].task == s.comments[c].task
      else c < s2.nextComment && s2.comments[c].task == t
    requires
      if answered then s' == SetPhase(Requeue(s2, t, Carried(p) != ""), t, Returned)
      else (ts.Resumable? ==> Carried(p) != "") && s' == SetPhase(SetStatus(s2, t, ts), t, Returned)
    ensures Classified(s, s', t, p.run)
  {
  }

  lemma ClassifyFailureIsClassified(s: State, t: nat, err: InvokeError, waiting: bool, text: bool)
    requires Core(s) && IsWorking(s, t) && s.inflight[t].phase.invoked && !err.NoError?
    ensures Classified(s, DoClassify(s, t, err, waiting, text), t, s.inflight[t].phase.run)
    ensures DoClassify(s, t, err, waiting, text).comments == s.comments
  {
    var l := s.inflight[t];
    var p := l.phase;
    assert LiveOk(s, t);
    assert RunOk(s, p.run - 1);
    forall c | c in s.comments
      ensures c < s.nextComment
    {
      assert CommentOk(s, c);
    }
    var st := RunOutcome(err, l.cause);
    var ts := FailureStatus(l.cause, Carried(p) != "");
    FailureSettles(s, t, p, l.cause, err, waiting, text);
    var s1 := FinishRun(s, p.run, st);
    SettledIsClassified(s, s1, s1, t, p, false, st, ts, DoClassify(s, t, err, waiting, text));
  }

  /** A run that did not succeed pauses its task if the user cancelled it, and otherwise
      leaves it resumable, or failed when there is no session to resume. */
  function FailureStatus(cause: Cause, hasSession: bool): TaskStatus {
    if cause.UserCause? then Paused else TaskStatusAfterInterruption(hasSession)
  }

  lemma FailureSettles(s: State, t: nat, p: Phase, cause: Cause, err: InvokeError, waiting: bool, text: bool)
    requires p.Working? && 1 <= p.run <= |s.runs| && !err.NoError?
    ensures Settle(s, t, p, cause, err, waiting, text)
      == SetStatus(FinishRun(s, p.run, RunOutcome(err, cause)), t, FailureStatus(cause, Carried(p) != ""))
    ensures !Active(RunOutcome(err, cause))
  {
  }

  predicate AnsweredMeanwhile(s: State, p: Phase, waiting: bool)
    requires p.Working?
  {
    p.agentMode && waiting && AnsweredInParkWindow(s, p.run)
  }

  /** A succeeded run's row and its comment thread, before its task moves on. */
  function Delivered(s: State, t: nat, p: Phase, waiting: bool, text: bool): State
    requires p.Working? && 1 <= p.run <= |s.runs|
  {
    Deliver(FinishRun(s, p.run, Succeeded), t, p.run, !AnsweredMeanwhile(s, p, waiting), text)
  }

  lemma SuccessSettles(s: State, t: nat, p: Phase, cause: Cause, waiting: bool, text: bool)
    requires p.Working? && 1 <= p.run <= |s.runs|
    ensures var s2 := Delivered(s, t, p, waiting, text);
      && s2 == s.(runs := s.runs[p.run - 1 := s.runs[p.run - 1].(status := Succeeded)],
                  comments := s2.comments, nextComment := s2.nextComment)
      && Settle(s, t, p, cause, NoError, waiting, text)
         == if AnsweredMeanwhile(s, p, waiting) then Requeue(s2, t, Carried(p) != "")
            else SetStatus(s2, t, if p.agentMode && waiting then AwaitingHuman else PrCreated)
  {
    DeliverFrame(FinishRun(s, p.run, Succeeded), t, p.run, !AnsweredMeanwhile(s, p, waiting), text);
  }

  lemma ClassifySuccessIsClassified(s: State, t: nat, waiting: bool, text: bool)
    requires Core(s) && IsWorking(s, t) && s.inflight[t].phase.invoked
    ensures Classified(s, DoClassify(s, t, NoError, waiting, text), t, s.inflight[t].phase.run)
  {
    var p := s.inflight[t].phase;
    assert LiveOk(s, t);
    assert RunOk(s, p.run - 1);
    var answered := p.agentMode && waiting && AnsweredInParkWindow(s, p.run);
    forall c | c in s.comments
      ensures c < s.nextComment
    {
      assert CommentOk(s, c);
    }
    var s1 := FinishRun(s, p.run, Succeeded);
    DeliverShape(s1, t, p.run, !answered, text);
    SettledIsClassified(s, s1, Deliver(s1, t, p.run, !answered, text), t, p, answered, Succeeded,
                        if p.agentMode && waiting then AwaitingHuman else PrCreated, DoClassify(s, t, NoError, waiting, text));
  }

  lemma ClassifyKeepsCore(s: State, t: nat, err: InvokeError, waiting: bool, text: bool)
    requires Core(s)
    ensures Core(DoClassify(s, t, err, waiting, text))
  {
    if IsWorking(s, t) && s.inflight[t].phase.invoked {
      if err.NoError? {
        ClassifySuccessIsClassified(s, t, waiting, text);
      } else {
        ClassifyFailureIsClassified(s, t, err, waiting, text);
      }
      ClassifiedKeepsCore(s, DoClassify(s, t, err, waiting, text), t, s.inflight[t].phase.run);
    }
  }

  /** The part of a classification that finishes the row. */
  function FinishedPart(s: State, s': State, t: nat, r: nat): State
    requires Classified(s, s', t, r)
  {
    SetPhase(SetStatus(FinishRun(s, r, s'.runs[r - 1].status), t, s'.tasks[t].status), t, Returned)
  }

  lemma ClassifiedFinishes(s: State, s': State, t: nat, r: nat)
    requires Core(s) && Classified(s, s', t, r)
    ensures Finishing(s, FinishedPart(s, s', t, r), r, s'.runs[r - 1].status, s'.tasks[t].status)
    ensures s.runs[r - 1].task == t
  {
    assert LiveOk(s, t);
  }

  lemma ClassifiedKeepsCore(s: State, s': State, t: nat, r: nat)
    requires Core(s) && Classified(s, s', t, r)
    ensures Core(s')
  {
    var s1 := FinishedPart(s, s', t, r);
    ClassifiedFinishes(s, s', t, r);
    FinishingKeepsCore(s, s1, r, s'.runs[r - 1].status, s'.tasks[t].status);
    assert TaskOk(s1, t);
    WriteTask(s1, t, s'.tasks[t]);
    ClassifiedRest(s, s', t, r);
  }

  lemma ClassifiedRest(s: State, s': State, t: nat, r: nat)
    requires Core(s) && Classified(s, s', t, r)
    requires var s1 := FinishedPart(s, s', t, r); t in s1.tasks && Core(s1.(tasks := s1.tasks[t := s'.tasks[t]]))
    ensures Core(s')
  {
    var s1 := FinishedPart(s, s', t, r);
    var s2 := s1.(tasks := s1.tasks[t := s'.tasks[t]]);
    assert s'.tasks == s2.tasks;
    SettleComments(s, s2, t, s');
    WriteSideTables(s2, s');
  }

  /** Consuming comments and posting the agent's report keep the comment table in order. */
  lemma SettleComments(s: State, s2: State, t: nat, s': State)
    requires Core(s) && t in s.tasks && s2.tasks.Keys == s.tasks.Keys == s'.tasks.Keys
    requires s'.requests == s.requests && s'.nextRequest == s.nextRequest && s'.nextComment >= s.nextComment
    requires forall c :: c in s'.comments ==>
      if c in s.comments then s'.comments[c].task == s.comments[c].task
      else c < s'.nextComment && s'.comments[c].task == t
    ensures forall c :: c in s'.comments ==> CommentOk(s', c)
    ensures forall q :: q in s'.requests ==> RequestOk(s', q)
  {
    forall c | c in s'.comments
      ensures CommentOk(s', c)
    {
      if c in s.comments {
        assert CommentOk(s, c);
      }
    }
    forall q | q in s'.requests
      ensures RequestOk(s', q)
    {
      assert RequestOk(s, q);
    }
  }

  lemma ExitKeepsCore(s: State, t: nat)
    requires Core(s)
    ensures Core(DoExit(s, t))
  {
    var s' := DoExit(s, t);
    if s' != s {
      forall u | u in s'.inflight
        ensures LiveOk(s', u)
      {
        assert LiveOk(s, u);
      }
      KeepRuns(s, s');
      KeepSide(s, s');
    }
  }

  // ---------------------------------------------------------------- all of them

  lemma GoroutineStepKeepsCore(cfg: Config, s: State, step: Step)
    requires Core(s) && s.booted && GoroutineStep(step)
    ensures Core(Next(cfg, s, step))
  {
    if step.Begin? {
      BeginKeepsCore(cfg, s, step.t, step.preflightFails);
    } else if step.TokenFailure? {
      TokenFailureKeepsCore(s, step.t);
    } else if step.Classify? {
      ClassifyKeepsCore(s, step.t, step.err, step.waiting, step.text);
    } else if step.Exit? {
      ExitKeepsCore(s, step.t);
    } else {
      InvocationStepsKeepCore(cfg, s, step);
    }
  }

  lemma PlanPassKeepsCore(cfg: Config, s: State, e: Reading, running: seq<nat>)
    requires Core(s) && s.booted
    ensures Core(DoPlanPass(cfg, s, e, running))
  {
    PassIsSound(cfg, s, e, running);
    WriteQueues(s, DoPlanPass(cfg, s, e, running).todo, s.byHand);
  }

  lemma RunNowKeepsCore(cfg: Config, s: State, t: nat, f: bool, e: Reading, running: seq<nat>)
    requires Core(s) && s.booted
    ensures Core(DoRunNow(cfg, s, t, f, e, running))
  {
    WriteQueues(s, s.todo, DoRunNow(cfg, s, t, f, e, running).byHand);
  }

  lemma SchedulerStepKeepsCore(cfg: Config, s: State, step: Step)
    requires Core(s) && s.booted && SchedulerStep(step)
    ensures Core(SchedulerNext(cfg, s, step))
  {
    match step
    case PlanPass(e, running) => PlanPassKeepsCore(cfg, s, e, running);
    case PerformNext => if s.todo != [] { PerformKeepsCore(s); }
    case RunNow(t, f, e, running) => RunNowKeepsCore(cfg, s, t, f, e, running);
    case LaunchByHand(k) => if k < |s.byHand| { LaunchByHandKeepsCore(s, k); }
    case Reconcile => ReconcileKeepsCore(s);
    case Shutdown => ShutdownKeepsCore(s);
    case Crash => CrashKeepsCore(s);
  }

  lemma StepKeepsCore(cfg: Config, s: State, step: Step)
    requires Core(s)
    ensures Core(Next(cfg, s, step))
  {
    if !s.booted {
      if step.Reconcile? {
        ReconcileKeepsCore(s);
      } else if step.Crash? {
        CrashKeepsCore(s);
      }
    } else if GoroutineStep(step) {
      GoroutineStepKeepsCore(cfg, s, step);
    } else if SchedulerStep(step) {
      SchedulerStepKeepsCore(cfg, s, step);
    } else if RequestStep(step) {
      RequestStepsKeepCore(cfg, s, step);
    } else if step.CreateTask? {
      CreateTaskKeepsCore(s, step.backlog, step.agentMode);
    } else if step.DeleteTask? {
      DeleteTaskKeepsCore(s, step.t);
    } else if step.ReorderTasks? {
      if Lists(step.order, s.tasks.Keys) {
        ReorderKeepsCore(s, step.order);
      }
    } else if step.CancelRun? {
      CancelRunSignals(s, step.r);
    } else {
      TaskStepsKeepCore(s, step);
    }
  }

  lemma {:induction false} PathKeepsCore(cfg: Config, s: State, steps: seq<Step>)
    requires Core(s)
    ensures Core(Path(cfg, s, steps))
  {
    if steps != [] {
      PathKeepsCore(cfg, s, steps[..|steps| - 1]);
      StepKeepsCore(cfg, Path(cfg, s, steps[..|steps| - 1]), steps[|steps| - 1]);
    }
  }

  lemma CoreAlways(cfg: Config, steps: seq<Step>)
    ensures Core(After(cfg, steps))
  {
    PathKeepsCore(cfg, Initial, steps);
  }
}
