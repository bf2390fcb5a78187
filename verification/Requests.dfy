/** The human-request protocol: a request is settled at most once.

    A settled request keeps its status and its answer along every continuation of every
    history, as long as its task exists, and its id is never handed out again. Answering,
    approving, denying, expiring and cancelling all go through a check that the request is
    still pending, so whichever comes first wins; retiring a task cancels what it has pending;
    and a run's ending reads requests but never writes one. That a parked task has something
    to wait for is the matter of `Parking`. */
module Requests {
  import opened Domain
  import opened Lifecycle
  import opened Safety
  import opened SafetySteps
  import opened SafetyRuns
  import Frames

  // ---------------------------------------------------------------- settled is final

  /** Settled requests stay as they are; ids are never handed out twice. */
  predicate Absorbing(s: State, s': State) {
    && s.nextRequest <= s'.nextRequest
    && forall q :: q in s'.requests && q < s.nextRequest ==>
         && q in s.requests
         && (!s.requests[q].status.Pending? ==>
               s'.requests[q].status == s.requests[q].status && s'.requests[q].response == s.requests[q].response)
  }

  lemma {:induction false} BurialKeepsRequests(s: State, k: nat)
    requires k <= |s.runs|
    ensures var s' := BuryOrphans(s, k);
      s'.requests == s.requests && s'.nextRequest == s.nextRequest && s'.grants == s.grants
    decreases k
  {
    if k > 0 {
      var r := s.runs[k - 1];
      BurialKeepsRequests(
        if Orphan(s, k - 1)
        then SetStatus(FinishRun(s, k, Errored), r.task, TaskStatusAfterInterruption(r.session != "")) else s,
        k - 1);
    }
  }

  lemma BeginKeepsRequests(cfg: Config, s: State, t: nat, fails: bool)
    ensures var s' := DoBegin(cfg, s, t, fails); s'.requests == s.requests && s'.nextRequest == s.nextRequest
  {
  }

  lemma GoroutinesKeepRequests(cfg: Config, s: State, step: Step)
    requires s.booted && GoroutineStep(step)
    ensures Next(cfg, s, step).requests == s.requests && Next(cfg, s, step).nextRequest == s.nextRequest
  {
    if step.Classify? {
      ClassifyKeepsRequests(s, step.t, step.err, step.waiting, step.text);
    } else if step.Begin? {
      BeginKeepsRequests(cfg, s, step.t, step.preflightFails);
    } else {
      Frames.MinorSteps(cfg, s, step);
    }
  }

  predicate NoNewAwaiting(s: State, s': State) {
    forall t :: t in s'.tasks && s'.tasks[t].status.AwaitingHuman? ==> t in s.tasks && s.tasks[t].status.AwaitingHuman?
  }

  lemma ClassifyKeepsRequests(s: State, t: nat, err: InvokeError, waiting: bool, text: bool)
    ensures var s' := DoClassify(s, t, err, waiting, text);
      s'.requests == s.requests && s'.nextRequest == s.nextRequest && s'.grants == s.grants
  {
    ClassifyFrame(s, t, err, waiting, text);
  }

  lemma RequestsAbsorb(cfg: Config, s: State, step: Step)
    requires s.booted && RequestStep(step) && forall q :: q in s.requests ==> q < s.nextRequest
    ensures Absorbing(s, Next(cfg, s, step))
  {
    if step.Respond? {
      if IsPending(s, step.q) {
        Frames.RespondResponds(s, step.q);
      }
    } else {
      Frames.RequestSteps(cfg, s, step);
    }
  }

  lemma RetiringAbsorbs(s: State, s': State, t: nat)
    requires Frames.Retiring(s, s', t) && forall q :: q in s.requests ==> q < s.nextRequest
    ensures Absorbing(s, s')
  {
  }

  lemma UsersAbsorb(s: State, step: Step)
    requires !GoroutineStep(step) && !SchedulerStep(step) && !RequestStep(step)
    requires forall q :: q in s.requests ==> q < s.nextRequest
    ensures Absorbing(s, UserNext(s, step))
  {
    match step
    case CreateTask(b, a) =>
    case UpdateTask(t, a) => Frames.UpdateEdits(s, t, a);
    case DeleteTask(t) => DeleteAbsorbs(s, t);
    case ReorderTasks(o) =>
    case PauseTask(t) => Frames.PauseEdits(s, t);
    case ResumeTask(t) => Frames.ResumeEdits(s, t);
    case CompleteTask(t) =>
      Frames.RetireRetires(s, t, Done);
      RetiringAbsorbs(s, DoRetire(s, t, Done), t);
    case DismissTask(t) =>
      Frames.RetireRetires(s, t, Dismissed);
      RetiringAbsorbs(s, DoRetire(s, t, Dismissed), t);
    case MoveTask(t, to) =>
      if to.Done? || to.Dismissed? {
        Frames.MoveRetires(s, t, to);
        RetiringAbsorbs(s, DoMove(s, t, to), t);
      } else {
        Frames.MoveEdits(s, t, to);
      }
    case AddComment(t) => Frames.AddCommentComments(s, t);
    case CancelRun(r) => CancelAbsorbs(s, r);
  }

  lemma DeleteAbsorbs(s: State, t: nat)
    ensures Absorbing(s, DoDeleteTask(s, t))
  {
  }

  lemma CancelAbsorbs(s: State, r: nat)
    ensures Absorbing(s, DoCancelRun(s, r))
  {
  }

  lemma CrashAbsorbs(s: State)
    ensures Absorbing(s, DoCrash(s))
  {
  }

  lemma StepAbsorbs(cfg: Config, s: State, step: Step)
    requires forall q :: q in s.requests ==> q < s.nextRequest
    ensures Absorbing(s, Next(cfg, s, step))
  {
    if step.Reconcile? {
      BurialKeepsRequests(s, |s.runs|);
    } else if step.Crash? {
      CrashAbsorbs(s);
    } else if s.booted {
      if GoroutineStep(step) {
        GoroutinesKeepRequests(cfg, s, step);
      } else if SchedulerStep(step) {
        Frames.SchedulerSteps(cfg, s, step);
      } else if RequestStep(step) {
        RequestsAbsorb(cfg, s, step);
      } else {
        UsersAbsorb(s, step);
      }
    }
  }

  /** A settled request keeps its status and its answer through every continuation, for as
      long as its task exists. */
  lemma {:induction false} SettledIsFinal(cfg: Config, steps: seq<Step>, more: seq<Step>, q: nat)
    requires q in After(cfg, steps).requests && !After(cfg, steps).requests[q].status.Pending?
    requires q in Path(cfg, After(cfg, steps), more).requests
    ensures var s, s' := After(cfg, steps), Path(cfg, After(cfg, steps), more);
      s'.requests[q].status == s.requests[q].status && s'.requests[q].response == s.requests[q].response
  {
    var s := After(cfg, steps);
    CoreAlways(cfg, steps);
    assert RequestOk(s, q);
    AbsorbingPath(cfg, s, more);
  }

  lemma {:induction false} AbsorbingPath(cfg: Config, s: State, more: seq<Step>)
    requires Core(s)
    ensures Absorbing(s, Path(cfg, s, more))
  {
    if more != [] {
      var front := more[..|more| - 1];
      var s1 := Path(cfg, s, front);
      AbsorbingPath(cfg, s, front);
      PathKeepsCore(cfg, s, front);
      forall q | q in s1.requests
        ensures q < s1.nextRequest
      {
        assert RequestOk(s1, q);
      }
      StepAbsorbs(cfg, s1, more[|more| - 1]);
    }
  }
}
