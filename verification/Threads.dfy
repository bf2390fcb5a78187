/** No follow-up is lost: a comment left through the comment form is retired only by a run
    that succeeded and whose launch prompt contained it.

    The invariant ties three things: what a goroutine at work was told, what its row says of
    its prompt, and which comments are open. A reply to a request nobody was polling is not
    so lucky: it may be retired unread, and is exactly when it was stored after the prompt was
    made. `RetiredUnreadIff` says so of every reachable state, `ReplyRetiredUnread` is a case.
    What the next prompt carries is every open comment that is not the agent's own. */
module Threads {
  import opened Domain
  import opened Lifecycle
  import opened Safety
  import opened SafetySteps
  import opened SafetyRuns
  import opened Histories
  import Frames

  /** Run `r` succeeded on the task of comment `c` with `c` in its launch prompt. */
  predicate ServedBy(s: State, c: nat, r: int)
    requires c in s.comments
  {
    RetiredBy(s, c, r) && c in s.runs[r - 1].prompt
  }

  /** Run `r` succeeded on the task of comment `c`. */
  predicate RetiredBy(s: State, c: nat, r: int)
    requires c in s.comments
  {
    1 <= r <= |s.runs| && s.runs[r - 1].status.Succeeded? && s.runs[r - 1].task == s.comments[c].task
  }

  /** Comments left for a run to pick up: not the agent's own, and not handed over to a poll. */
  predicate ForRuns(k: Comment) {
    !k.via.ByAgent? && !(k.via.ByReply? && k.via.inBand)
  }

  /** Run `r` was told of `c` exactly if `c` was there when its prompt was made, and of every
      comment left through the form. */
  predicate ToldOf(s: State, c: nat, r: nat)
    requires c in s.comments && 1 <= r <= |s.runs|
  {
    && (c in s.runs[r - 1].prompt <==> c < s.runs[r - 1].since)
    && (s.comments[c].via.ByForm? ==> c in s.runs[r - 1].prompt)
  }

  predicate Kept(s: State, c: nat)
    requires c in s.comments
  {
    ForRuns(s.comments[c]) && s.comments[c].consumedBy != 0 ==>
      RetiredBy(s, c, s.comments[c].consumedBy) && ToldOf(s, c, s.comments[c].consumedBy)
  }

  /** An unconsumed comment on `t` that its next run is told of. */
  predicate Open(c: Comment, t: nat) {
    c.task == t && !c.via.ByAgent? && c.consumedBy == 0
  }

  predicate Told(s: State, t: nat)
    requires t in s.inflight
  {
    s.inflight[t].phase.Working? ==>
      var r := s.inflight[t].phase.run;
      1 <= r <= |s.runs| && forall c :: c in s.comments && Open(s.comments[c], t) ==> ToldOf(s, c, r)
  }

  /** A prompt holds only comments that were there when it was made. */
  predicate PromptsOk(runs: seq<Run>, next: nat) {
    forall i :: 0 <= i < |runs| ==> runs[i].since <= next && forall c :: c in runs[i].prompt ==> c < runs[i].since
  }

  predicate Thread(s: State) {
    && (forall c :: c in s.comments ==> Kept(s, c))
    && (forall t :: t in s.inflight ==> Told(s, t))
    && PromptsOk(s.runs, s.nextComment)
  }

  /** Rows only grow in number, keep what they were told, and stay succeeded once they are. */
  predicate RowsAdvance(s: State, s': State) {
    && |s.runs| <= |s'.runs|
    && (forall i :: 0 <= i < |s.runs| ==>
          && s'.runs[i].task == s.runs[i].task
          && s'.runs[i].prompt == s.runs[i].prompt && s'.runs[i].since == s.runs[i].since
          && (s.runs[i].status.Succeeded? ==> s'.runs[i].status.Succeeded?))
    && (forall i :: |s.runs| <= i < |s'.runs| ==> s'.runs[i].prompt == {} && s'.runs[i].since <= s'.nextComment)
  }

  /** Every goroutine at work was already at work on the same row. */
  predicate NoNewWorkers(s: State, s': State) {
    forall t :: t in s'.inflight && s'.inflight[t].phase.Working? ==> WorksOn(s, t, s'.inflight[t].phase.run)
  }

  /** A comment that is new in `s'`: it has a fresh id, it is open or handed over, and it is
      left through the form only on a task that has no goroutine. */
  predicate Arrives(s: State, s': State, c: nat)
    requires c in s'.comments
  {
    && c >= s.nextComment
    && (s'.comments[c].consumedBy == 0 || !ForRuns(s'.comments[c]))
    && (s'.comments[c].via.ByForm? ==> s'.comments[c].task !in s'.inflight)
  }

  /** A step that consumes nothing keeps the thread. */
  lemma ThreadFrame(s: State, s': State)
    requires Thread(s) && RowsAdvance(s, s') && NoNewWorkers(s, s') && s.nextComment <= s'.nextComment
    requires forall c :: c in s'.comments ==>
      if c in s.comments then s'.comments[c] == s.comments[c] else Arrives(s, s', c)
    ensures Thread(s')
  {
    forall c | c in s'.comments
      ensures Kept(s', c)
    {
      if c in s.comments {
        assert Kept(s, c);
      } else {
        assert Arrives(s, s', c);
      }
    }
    forall t | t in s'.inflight
      ensures Told(s', t)
    {
      if s'.inflight[t].phase.Working? {
        StillTold(s, s', t);
      }
    }
  }

  lemma StillTold(s: State, s': State, t: nat)
    requires Thread(s) && RowsAdvance(s, s') && t in s'.inflight && s'.inflight[t].phase.Working?
    requires WorksOn(s, t, s'.inflight[t].phase.run)
    requires forall c :: c in s'.comments ==>
      if c in s.comments then s'.comments[c] == s.comments[c] else Arrives(s, s', c)
    ensures Told(s', t)
  {
    var r := s'.inflight[t].phase.run;
    assert Told(s, t);
    forall c | c in s'.comments && Open(s'.comments[c], t)
      ensures ToldOf(s', c, r)
    {
      if c in s.comments {
        assert ToldOf(s, c, r);
      } else {
        assert Arrives(s, s', c);
      }
    }
  }

  /** A starting run changes no comment, adds one row, and works on that row. */
  lemma StartFrame(s: State, t: nat, c: Candidate)
    requires t in s.inflight
    ensures var s' := StartRun(s, t, c);
      && s'.comments == s.comments && s'.nextComment == s.nextComment
      && s'.runs == s.runs + [s'.runs[|s.runs|]]
      && s'.runs[|s.runs|].prompt == FollowUps(s, t) && s'.runs[|s.runs|].since == s.nextComment
      && s'.inflight[t].phase.Working? && s'.inflight[t].phase.run == |s.runs| + 1
      && s'.inflight.Keys == s.inflight.Keys
      && (forall u :: u in s.inflight && u != t ==> s'.inflight[u] == s.inflight[u])
  {
  }

  lemma StartKeepsThread(s: State, t: nat, c: Candidate)
    requires Core(s) && Thread(s) && t in s.inflight
    ensures Thread(StartRun(s, t, c))
  {
    var s' := StartRun(s, t, c);
    StartFrame(s, t, c);
    CommentsAreNumbered(s);
    forall k | k in s'.comments
      ensures Kept(s', k)
    {
      assert Kept(s, k);
    }
    forall u | u in s'.inflight
      ensures Told(s', u)
    {
      assert Told(s, u);
    }
  }

  lemma BeginKeepsThread(cfg: Config, s: State, t: nat, fails: bool)
    requires Core(s) && s.booted && Thread(s)
    ensures Thread(DoBegin(cfg, s, t, fails))
  {
    var s' := DoBegin(cfg, s, t, fails);
    if IsLaunched(s, t) && t in s.tasks && !fails {
      StartKeepsThread(s, t, s.inflight[t].phase.c);
    } else {
      ThreadFrame(s, s');
    }
  }

  /** What a classification does to the thread of `t`: it may consume what is open, when its
      run succeeded, and it adds only the agent's own report. */
  predicate ThreadSettled(s: State, s': State, t: nat, r: nat) {
    && 1 <= r <= |s'.runs| && s.nextComment <= s'.nextComment
    && forall c :: c in s'.comments && !s'.comments[c].via.ByAgent? ==>
         && c in s.comments
         && (s'.comments[c] == s.comments[c]
             || (Open(s.comments[c], t) && s'.comments[c] == s.comments[c].(consumedBy := r)
                 && s'.runs[r - 1].status.Succeeded?))
  }

  lemma CommentsAreNumbered(s: State)
    requires Core(s)
    ensures forall c :: c in s.comments ==> c < s.nextComment
  {
    forall c | c in s.comments
      ensures c < s.nextComment
    {
      assert CommentOk(s, c);
    }
  }

  lemma DeliverSettles(s: State, t: nat, r: nat, consume: bool, report: bool)
    requires 1 <= r <= |s.runs| && s.runs[r - 1].status.Succeeded?
    requires forall c :: c in s.comments ==> c < s.nextComment
    ensures ThreadSettled(s, Deliver(s, t, r, consume, report), t, r)
  {
  }

  lemma ClassifySettles(s: State, t: nat, err: InvokeError, waiting: bool, text: bool)
    requires IsWorking(s, t) && s.inflight[t].phase.invoked && t in s.tasks
    requires forall c :: c in s.comments ==> c < s.nextComment
    ensures ThreadSettled(s, DoClassify(s, t, err, waiting, text), t, s.inflight[t].phase.run)
  {
    var p := s.inflight[t].phase;
    if err.NoError? {
      SuccessDelivers(s, t, p, s.inflight[t].cause, waiting, text);
      var s1 := FinishRun(s, p.run, Succeeded);
      var answered := p.agentMode && waiting && AnsweredInParkWindow(s, p.run);
      DeliverSettles(s1, t, p.run, !answered, text);
    } else {
      FailureDelivers(s, t, p, s.inflight[t].cause, err, waiting, text);
    }
  }

  lemma SuccessDelivers(s: State, t: nat, p: Phase, cause: Cause, waiting: bool, text: bool)
    requires p.Working? && 1 <= p.run <= |s.runs|
    ensures var s' := Settle(s, t, p, cause, NoError, waiting, text);
      var s1 := FinishRun(s, p.run, Succeeded);
      var s2 := Deliver(s1, t, p.run, !(p.agentMode && waiting && AnsweredInParkWindow(s, p.run)), text);
      s'.runs == s1.runs && s'.comments == s2.comments && s'.nextComment == s2.nextComment
  {
  }

  lemma FailureDelivers(s: State, t: nat, p: Phase, cause: Cause, err: InvokeError, waiting: bool, text: bool)
    requires p.Working? && 1 <= p.run <= |s.runs| && !err.NoError?
    ensures var s' := Settle(s, t, p, cause, err, waiting, text);
      |s'.runs| == |s.runs| && s'.comments == s.comments && s'.nextComment == s.nextComment
  {
  }

  lemma SettledKeepsThread(s: State, s': State, t: nat, r: nat)
    requires Core(s) && Thread(s) && Classified(s, s', t, r) && ThreadSettled(s, s', t, r)
    ensures Thread(s')
  {
    assert Told(s, t);
    assert LiveOk(s, t);
    forall c | c in s'.comments
      ensures Kept(s', c)
    {
      if c in s.comments {
        assert Kept(s, c);
      }
    }
    forall u | u in s'.inflight
      ensures Told(s', u)
    {
      assert Told(s, u);
      assert LiveOk(s, u);
    }
  }

  lemma ClassifyKeepsThread(s: State, t: nat, err: InvokeError, waiting: bool, text: bool)
    requires Core(s) && Thread(s)
    ensures Thread(DoClassify(s, t, err, waiting, text))
  {
    if IsWorking(s, t) && s.inflight[t].phase.invoked {
      if err.NoError? {
        ClassifySuccessIsClassified(s, t, waiting, text);
      } else {
        ClassifyFailureIsClassified(s, t, err, waiting, text);
      }
      CommentsAreNumbered(s);
      ClassifySettles(s, t, err, waiting, text);
      SettledKeepsThread(s, DoClassify(s, t, err, waiting, text), t, s.inflight[t].phase.run);
    }
  }

  lemma ReconcileKeepsThread(s: State)
    requires Core(s) && Thread(s)
    ensures Thread(DoReconcile(s))
  {
    Burial(s, |s.runs|);
    ThreadFrame(s, DoReconcile(s));
  }

  /** Rewriting the row a goroutine works on. */
  lemma WorkingRowKeepsThread(s: State, s': State, t: nat)
    requires Core(s) && Thread(s) && IsWorking(s, t)
    requires var r := s.inflight[t].phase.run;
      && |s'.runs| == |s.runs|
      && s'.runs == s.runs[r - 1 := s'.runs[r - 1]]
      && s'.runs[r - 1].task == s.runs[r - 1].task
      && s'.runs[r - 1].prompt == s.runs[r - 1].prompt && s'.runs[r - 1].since == s.runs[r - 1].since
    requires s'.comments == s.comments && s'.nextComment == s.nextComment && NoNewWorkers(s, s')
    ensures Thread(s')
  {
    assert LiveOk(s, t);
    ThreadFrame(s, s');
  }

  lemma MinorKeepsThread(s: State, s': State, t: nat)
    requires Core(s) && Thread(s) && Frames.Minor(s, s', t)
    ensures Thread(s')
  {
    if s'.runs == s.runs {
    } else {
      WorkingRowKeepsThread(s, s', t);
    }
  }

  lemma GoroutineStepKeepsThread(cfg: Config, s: State, step: Step)
    requires Core(s) && s.booted && Thread(s) && GoroutineStep(step)
    ensures Thread(Next(cfg, s, step))
  {
    if step.Begin? {
      BeginKeepsThread(cfg, s, step.t, step.preflightFails);
    } else if step.Classify? {
      ClassifyKeepsThread(s, step.t, step.err, step.waiting, step.text);
    } else {
      Frames.MinorSteps(cfg, s, step);
      MinorKeepsThread(s, Next(cfg, s, step), step.t);
    }
  }

  /** A step that touches neither runs, nor comments, nor the phase of a goroutine at work. */
  predicate ThreadUntouched(s: State, s': State) {
    && s'.runs == s.runs && s'.comments == s.comments && s'.nextComment == s.nextComment && s'.inflight == s.inflight
  }

  lemma UntouchedKeepsThread(s: State, s': State)
    requires Thread(s) && ThreadUntouched(s, s')
    ensures Thread(s')
  {
  }

  predicate PlainUserStep(step: Step) {
    !GoroutineStep(step) && !SchedulerStep(step) && !RequestStep(step)
    && !step.AddComment? && !step.DeleteTask? && !step.CancelRun?
  }

  /** The user's other steps touch neither runs, nor comments, nor goroutines at work. */
  lemma UserStepFrame(s: State, step: Step)
    requires PlainUserStep(step)
    ensures ThreadUntouched(s, UserNext(s, step))
  {
    match step
    case CreateTask(b, a) =>
    case UpdateTask(t, a) => Frames.UpdateEdits(s, t, a);
    case ReorderTasks(o) =>
    case PauseTask(t) => Frames.PauseEdits(s, t);
    case ResumeTask(t) => Frames.ResumeEdits(s, t);
    case CompleteTask(t) => Frames.RetireRetires(s, t, Done);
    case DismissTask(t) => Frames.RetireRetires(s, t, Dismissed);
    case MoveTask(t, to) =>
      if to.Done? || to.Dismissed? {
        Frames.MoveRetires(s, t, to);
      } else {
        Frames.MoveEdits(s, t, to);
      }
  }

  lemma UserStepKeepsThread(cfg: Config, s: State, step: Step)
    requires Core(s) && s.booted && Thread(s) && !GoroutineStep(step) && !SchedulerStep(step) && !RequestStep(step)
    ensures Thread(Next(cfg, s, step))
  {
    if step.AddComment? {
      AddCommentKeepsThread(s, step.t);
    } else if step.DeleteTask? {
      DeleteKeepsThread(s, step.t);
    } else if step.CancelRun? {
      CancelKeepsThread(s, step.r);
    } else {
      UserStepFrame(s, step);
      UntouchedKeepsThread(s, UserNext(s, step));
    }
  }

  lemma DeleteKeepsThread(s: State, t: nat)
    requires Thread(s)
    ensures Thread(DoDeleteTask(s, t))
  {
    var s' := DoDeleteTask(s, t);
    assert s'.runs == s.runs && s'.inflight == s.inflight;
    ThreadFrame(s, s');
  }

  lemma CancelKeepsThread(s: State, r: nat)
    requires Core(s) && s.booted && Thread(s)
    ensures Thread(DoCancelRun(s, r))
  {
    CancelRunSignals(s, r);
  }

  lemma AddCommentKeepsThread(s: State, t: nat)
    requires Core(s) && s.booted && Thread(s)
    ensures Thread(DoAddComment(s, t))
  {
    Frames.AddCommentComments(s, t);
    CommentsAreNumbered(s);
    ThreadFrame(s, DoAddComment(s, t));
  }

  lemma CrashKeepsThread(s: State)
    requires Thread(s)
    ensures Thread(DoCrash(s))
  {
    ThreadFrame(s, DoCrash(s));
  }

  lemma SchedulingKeepsThread(s: State, s': State)
    requires Thread(s) && Frames.Scheduling(s, s')
    ensures Thread(s')
  {
  }

  lemma SchedulerStepKeepsThread(cfg: Config, s: State, step: Step)
    requires Core(s) && s.booted && Thread(s) && SchedulerStep(step)
    ensures Thread(Next(cfg, s, step))
  {
    if step.Reconcile? {
      ReconcileKeepsThread(s);
    } else if step.Crash? {
      CrashKeepsThread(s);
    } else {
      Frames.SchedulerSteps(cfg, s, step);
      SchedulingKeepsThread(s, Next(cfg, s, step));
    }
  }

  lemma RespondKeepsThread(s: State, q: nat)
    requires Core(s) && Thread(s)
    ensures Thread(DoRespond(s, q))
  {
    if IsPending(s, q) {
      Frames.RespondResponds(s, q);
      CommentsAreNumbered(s);
      ThreadFrame(s, DoRespond(s, q));
    }
  }

  lemma RequestStepKeepsThread(cfg: Config, s: State, step: Step)
    requires Core(s) && s.booted && Thread(s) && RequestStep(step)
    ensures Thread(Next(cfg, s, step))
  {
    if step.Respond? {
      RespondKeepsThread(s, step.q);
    } else {
      RequestStepFrame(cfg, s, step);
      UntouchedKeepsThread(s, Next(cfg, s, step));
    }
  }

  lemma RequestStepFrame(cfg: Config, s: State, step: Step)
    requires Core(s) && s.booted && RequestStep(step) && !step.Respond?
    ensures ThreadUntouched(s, Next(cfg, s, step))
  {
    assert forall q :: q in s.requests ==> RequestOk(s, q);
    Frames.RequestSteps(cfg, s, step);
  }

  lemma StepKeepsThread(cfg: Config, s: State, step: Step)
    requires Core(s) && Thread(s)
    ensures Thread(Next(cfg, s, step))
  {
    if step.Reconcile? {
      ReconcileKeepsThread(s);
    } else if !s.booted {
      if step.Crash? {
        CrashKeepsThread(s);
      }
    } else if GoroutineStep(step) {
      GoroutineStepKeepsThread(cfg, s, step);
    } else if RequestStep(step) {
      RequestStepKeepsThread(cfg, s, step);
    } else if SchedulerStep(step) {
      SchedulerStepKeepsThread(cfg, s, step);
    } else {
      UserStepKeepsThread(cfg, s, step);
    }
  }

  lemma {:induction false} ThreadAlways(cfg: Config, steps: seq<Step>)
    ensures Thread(After(cfg, steps))
  {
    if steps != [] {
      var front := steps[..|steps| - 1];
      ThreadAlways(cfg, front);
      CoreAlways(cfg, front);
      StepKeepsThread(cfg, After(cfg, front), steps[|steps| - 1]);
    }
  }

  // ---------------------------------------------------------------- the promises

  /** In every reachable state, a consumed follow-up was consumed by a run on its task that
      succeeded and whose launch prompt contained it. */
  lemma ConsumedMeansServed(cfg: Config, steps: seq<Step>, c: nat)
    requires c in After(cfg, steps).comments
    requires var k := After(cfg, steps).comments[c]; k.via.ByForm? && k.consumedBy != 0
    ensures ServedBy(After(cfg, steps), c, After(cfg, steps).comments[c].consumedBy)
  {
    ThreadAlways(cfg, steps);
    assert Kept(After(cfg, steps), c);
  }

  /** Until such a run succeeds the follow-up stays open: no other step touches it, except
      deleting its task. */
  lemma OpenUntilServed(cfg: Config, steps: seq<Step>, step: Step, c: nat)
    requires c in After(cfg, steps).comments
    requires var k := After(cfg, steps).comments[c]; k.via.ByForm? && k.consumedBy == 0
    ensures var s := After(cfg, steps);
      var s' := Next(cfg, s, step);
      var t := s.comments[c].task;
      || (c in s'.comments && s'.comments[c] == s.comments[c])
      || (step == DeleteTask(t) && c !in s'.comments)
      || (step.Classify? && step.t == t && step.err.NoError? && c in s'.comments && ServedBy(s', c, s'.comments[c].consumedBy))
  {
    var s := After(cfg, steps);
    CoreAlways(cfg, steps);
    if step.Classify? {
      OpenAcrossClassify(cfg, steps, step, c);
    } else if step.DeleteTask? {
    } else {
      CommentUntouched(cfg, s, step, c);
    }
  }

  lemma CommentUntouched(cfg: Config, s: State, step: Step, c: nat)
    requires Core(s) && c in s.comments && !step.Classify? && !step.DeleteTask?
    ensures c in Next(cfg, s, step).comments && Next(cfg, s, step).comments[c] == s.comments[c]
  {
    if step.Reconcile? {
      Burial(s, |s.runs|);
    } else if s.booted {
      if GoroutineStep(step) {
        if step.Begin? {
          BeginKeepsComments(cfg, s, step.t, step.preflightFails);
        } else {
          Frames.MinorSteps(cfg, s, step);
        }
      } else if Frames.PlainSchedulerStep(step) {
        Frames.SchedulerSteps(cfg, s, step);
      } else if RequestStep(step) {
        RequestKeepsComment(cfg, s, step, c);
      } else if !SchedulerStep(step) {
        UserKeepsComment(s, step, c);
      }
    }
  }

  lemma RequestKeepsComment(cfg: Config, s: State, step: Step, c: nat)
    requires Core(s) && s.booted && c in s.comments && RequestStep(step)
    ensures c in Next(cfg, s, step).comments && Next(cfg, s, step).comments[c] == s.comments[c]
  {
    if step.Respond? {
      RespondKeepsComment(s, step.q, c);
    } else {
      RequestStepFrame(cfg, s, step);
    }
  }

  lemma RespondKeepsComment(s: State, q: nat, c: nat)
    requires Core(s) && c in s.comments
    ensures c in DoRespond(s, q).comments && DoRespond(s, q).comments[c] == s.comments[c]
  {
    assert CommentOk(s, c);
    if IsPending(s, q) {
      Frames.RespondResponds(s, q);
    }
  }

  lemma UserKeepsComment(s: State, step: Step, c: nat)
    requires Core(s) && s.booted && c in s.comments
    requires !GoroutineStep(step) && !SchedulerStep(step) && !RequestStep(step) && !step.DeleteTask?
    ensures c in UserNext(s, step).comments && UserNext(s, step).comments[c] == s.comments[c]
  {
    if step.CancelRun? {
      CancelRunSignals(s, step.r);
    } else if step.AddComment? {
      CommentsAreNumbered(s);
      Frames.AddCommentComments(s, step.t);
    } else {
      UserStepFrame(s, step);
    }
  }

  lemma BeginKeepsComments(cfg: Config, s: State, t: nat, fails: bool)
    ensures DoBegin(cfg, s, t, fails).comments == s.comments
  {
  }

  lemma OpenAcrossClassify(cfg: Config, steps: seq<Step>, step: Step, c: nat)
    requires step.Classify? && c in After(cfg, steps).comments
    requires var k := After(cfg, steps).comments[c]; k.via.ByForm? && k.consumedBy == 0
    ensures var s := After(cfg, steps);
      var s' := Next(cfg, s, step);
      && c in s'.comments
      && (s'.comments[c] == s.comments[c]
          || (step.t == s.comments[c].task && step.err.NoError? && ServedBy(s', c, s'.comments[c].consumedBy)))
  {
    var s := After(cfg, steps);
    CoreAlways(cfg, steps);
    ThreadAlways(cfg, steps);
    if s.booted && IsWorking(s, step.t) && s.inflight[step.t].phase.invoked {
      ServedByClassify(s, step.t, step.err, step.waiting, step.text, c);
    }
  }

  lemma ServedByClassify(s: State, t: nat, err: InvokeError, waiting: bool, text: bool, c: nat)
    requires Core(s) && Thread(s) && IsWorking(s, t) && s.inflight[t].phase.invoked
    requires c in s.comments && s.comments[c].via.ByForm? && s.comments[c].consumedBy == 0
    ensures var s' := DoClassify(s, t, err, waiting, text);
      && c in s'.comments
      && (s'.comments[c] == s.comments[c]
          || (t == s.comments[c].task && err.NoError? && ServedBy(s', c, s'.comments[c].consumedBy)))
  {
    WorkingTask(s, t);
    CommentsAreNumbered(s);
    ClassifyConsumes(s, t, err, waiting, text, c);
    ClassifyKeepsThread(s, t, err, waiting, text);
    assert Kept(DoClassify(s, t, err, waiting, text), c);
  }

  lemma WorkingTask(s: State, t: nat)
    requires Core(s) && IsWorking(s, t)
    ensures t in s.tasks
  {
    assert LiveOk(s, t);
    assert RunOk(s, s.inflight[t].phase.run - 1);
  }

  /** Exactly what a classification consumes: a run that succeeded takes every open comment
      of its task, whoever wrote it, unless a human's answer beat the parking of the task.
      An answer given to a request nobody was polling is taken like any other. */
  lemma ClassifyConsumes(s: State, t: nat, err: InvokeError, waiting: bool, text: bool, c: nat)
    requires IsWorking(s, t) && s.inflight[t].phase.invoked && t in s.tasks
    requires c in s.comments && c < s.nextComment && s.comments[c].consumedBy == 0
    ensures var s' := DoClassify(s, t, err, waiting, text);
      var p := s.inflight[t].phase;
      && c in s'.comments
      && s'.comments[c] == s.comments[c].(consumedBy := s'.comments[c].consumedBy)
      && (s'.comments[c].consumedBy ==
          if s.comments[c].task == t && err.NoError? && !(p.agentMode && waiting && AnsweredInParkWindow(s, p.run))
          then p.run else 0)
  {
    var p := s.inflight[t].phase;
    var s' := DoClassify(s, t, err, waiting, text);
    if err.NoError? {
      var answered := p.agentMode && waiting && AnsweredInParkWindow(s, p.run);
      assert s'.comments == Deliver(FinishRun(s, p.run, Succeeded), t, p.run, !answered, text).comments;
    } else {
      assert s'.comments == s.comments;
    }
  }

  /** Every open comment that is not the agent's is in the launch prompt of the next run that
      starts on its task, follow-up or reply. */
  lemma NextPromptCarriesFollowUps(cfg: Config, steps: seq<Step>, t: nat, c: nat)
    requires var s := After(cfg, steps); s.booted && IsLaunched(s, t) && c in s.comments && Open(s.comments[c], t)
    ensures var s := After(cfg, steps);
      var s' := Next(cfg, s, Begin(t, false));
      |s'.runs| == |s.runs| + 1 && c in s'.runs[|s.runs|].prompt && WorksOn(s', t, |s'.runs|)
  {
    var s := After(cfg, steps);
    CoreAlways(cfg, steps);
    assert CommentOk(s, c);
  }

  /** A run takes down, when it starts, the id the next comment will get; comments get their
      ids in the order in which they are stored. */
  lemma SinceIsTheNextComment(cfg: Config, steps: seq<Step>, t: nat)
    requires var s := After(cfg, steps); s.booted && IsLaunched(s, t) && t in s.tasks
    ensures var s := After(cfg, steps);
      var s' := Next(cfg, s, Begin(t, false));
      && |s'.runs| == |s.runs| + 1 && s'.runs[|s.runs|].since == s.nextComment == s'.nextComment
      && (forall c :: c in s'.comments ==> c < s'.runs[|s.runs|].since)
  {
    CoreAlways(cfg, steps);
    CommentsAreNumbered(After(cfg, steps));
  }

  /** In every reachable state, a comment that a run retired was in that run's prompt exactly
      when it was stored before the prompt was made. So a reply stored while the run was at
      work, and not handed over to a poll, was retired unread. */
  lemma RetiredUnreadIff(cfg: Config, steps: seq<Step>, c: nat)
    requires c in After(cfg, steps).comments
    requires var k := After(cfg, steps).comments[c]; ForRuns(k) && k.consumedBy != 0
    ensures var s := After(cfg, steps);
      var r := s.comments[c].consumedBy;
      RetiredBy(s, c, r) && (c in s.runs[r - 1].prompt <==> c < s.runs[r - 1].since)
  {
    ThreadAlways(cfg, steps);
    assert Kept(After(cfg, steps), c);
  }

  /** And that happens: a reply to a request nobody polls, given while the run is at work, is
      retired by that run's success without having been in its prompt. */
  lemma ReplyRetiredUnread(cfg: Config)
    ensures exists steps, c ::
      && c in After(cfg, steps).comments && After(cfg, steps).comments[c] == Comment(1, ByReply(false), 1)
      && RetiredBy(After(cfg, steps), c, 1) && c !in After(cfg, steps).runs[0].prompt
  {
    var p := StartAndInvoke(cfg);
    var s := AtWork(true);
    Then(cfg, p, CreateRequest(1, 1, Question), s);
    p := p + [CreateRequest(1, 1, Question)];
    var asked := Request(1, 1, Question, Pending, false, 0);
    s := s.(requests := map[1 := asked], nextRequest := 2);
    assert After(cfg, p) == s;
    Then(cfg, p, Respond(1), s);
    p := p + [Respond(1)];
    s := s.(comments := map[1 := Comment(1, ByReply(false), 0)], nextComment := 2,
            requests := map[1 := asked.(status := Answered, response := 1)]);
    assert After(cfg, p) == s;
    Then(cfg, p, Classify(1, NoError, false, false), s);
    p := p + [Classify(1, NoError, false, false)];
    assert After(cfg, p).comments[1] == Comment(1, ByReply(false), 1);
    assert After(cfg, p).runs == [FirstRun(Succeeded)];
  }
}
