/** How a run ends, read off its row and its task's row before and after. The final status of
    the row goes by the first cause that applies, the task goes where the session recorded in
    that row sends it, and a success is delivered or waits for its human. So a run that was
    stopped with a session can always be taken up again from that session, by a follow-up or
    by the user: the last theorem follows a task through it. */
module Endings {
  import opened Domain
  import opened Lifecycle
  import opened Safety
  import SafetyRuns
  import Effects

  /** The goroutine of `t` is about to classify how the CLI ended. */
  predicate AtTheEnd(s: State, t: nat) {
    s.booted && t in s.inflight && s.inflight[t].phase.Working? && s.inflight[t].phase.invoked
    && 1 <= s.inflight[t].phase.run <= |s.runs|
  }

  /** The final status of the row, by the first cause that applies: success, a suspension by
      the scheduler, the user's cancellation, and then whatever the CLI reported. */
  predicate FinalStatus(err: InvokeError, cause: Cause, st: RunStatus) {
    && (st.Succeeded? <==> err.NoError?)
    && (st.RateLimited? <==> !err.NoError? && (cause.SuspendCause? || (err.RateLimitError? && !cause.UserCause?)))
    && (st.TimedOut? <==> err.TimeoutError? && !cause.SuspendCause? && !cause.UserCause?)
    && (st.Errored? <==> !err.NoError? && !cause.SuspendCause?
                         && (cause.UserCause? || err.DeniedError? || err.OtherError?))
  }

  predicate Finished(s: State, s': State, t: nat, err: InvokeError)
    requires AtTheEnd(s, t)
  {
    var r := s.inflight[t].phase.run;
    && |s'.runs| == |s.runs|
    && s'.runs == s.runs[r - 1 := s.runs[r - 1].(status := s'.runs[r - 1].status)]
    && FinalStatus(err, s.inflight[t].cause, s'.runs[r - 1].status)
    && s'.inflight == s.inflight[t := s.inflight[t].(phase := Returned)]
  }

  /** The status of a task whose run did not succeed. */
  predicate MovedOn(s: State, s': State, t: nat)
    requires AtTheEnd(s, t)
  {
    var row := s.runs[s.inflight[t].phase.run - 1];
    t in s.tasks
    && s'.tasks == s.tasks[t := s.tasks[t].(status :=
         if s.inflight[t].cause.UserCause? then Paused else if row.session != "" then Resumable else Failed)]
  }

  /** The run asked its human something, and all it asked has been settled. */
  predicate AllSettled(s: State, r: nat) {
    (exists q :: q in s.requests && s.requests[q].run == r)
    && forall q :: q in s.requests && s.requests[q].run == r ==> !s.requests[q].status.Pending?
  }

  /** The status of a task whose run succeeded. One that stopped to wait for its human is
      parked, unless the answers came first: then it goes back in line. */
  predicate Delivered(s: State, s': State, t: nat, waiting: bool)
    requires AtTheEnd(s, t)
  {
    var r := s.inflight[t].phase.run;
    t in s.tasks
    && if !(s.inflight[t].phase.agentMode && waiting) then s'.tasks == s.tasks[t := s.tasks[t].(status := PrCreated)]
       else if AllSettled(s, r) then Effects.Requeued(s, s', t, s.runs[r - 1].session != "")
       else s'.tasks == s.tasks[t := s.tasks[t].(status := AwaitingHuman)]
  }

  lemma FailureEnds(s: State, t: nat, err: InvokeError, waiting: bool, text: bool)
    requires Core(s) && AtTheEnd(s, t) && !err.NoError?
    ensures Finished(s, DoClassify(s, t, err, waiting, text), t, err)
    ensures MovedOn(s, DoClassify(s, t, err, waiting, text), t)
  {
    var l := s.inflight[t];
    assert LiveOk(s, t);
    assert RunOk(s, l.phase.run - 1);
    SafetyRuns.FailureSettles(s, t, l.phase, l.cause, err, waiting, text);
  }

  lemma Settled(s: State, r: nat)
    ensures AllSettled(s, r) <==> AnsweredInParkWindow(s, r)
  {
  }

  lemma SuccessFinishes(s: State, t: nat, waiting: bool, text: bool)
    requires Core(s) && AtTheEnd(s, t)
    ensures Finished(s, DoClassify(s, t, NoError, waiting, text), t, NoError)
  {
    var l := s.inflight[t];
    SafetyRuns.ClassifySuccessIsClassified(s, t, waiting, text);
    SafetyRuns.SuccessSettles(s, t, l.phase, l.cause, waiting, text);
  }

  /** Only the task and run tables matter to being back in line. */
  lemma SameRequeue(s: State, s2: State, s3: State, s': State, t: nat, resumes: bool)
    requires Effects.Requeued(s2, s3, t, resumes)
    requires s2.tasks == s.tasks && s'.tasks == s3.tasks && s'.runs == s3.runs
    ensures Effects.Requeued(s, s', t, resumes)
  {
  }

  /** The task's row after a success, given the tables with the row finished. */
  lemma SuccessDelivers(s: State, t: nat, waiting: bool, s2: State, s': State)
    requires Core(s) && AtTheEnd(s, t) && s2.tasks == s.tasks && s'.runs == s2.runs
    requires s'.tasks ==
      if SafetyRuns.AnsweredMeanwhile(s, s.inflight[t].phase, waiting) then Requeue(s2, t, Carried(s.inflight[t].phase) != "").tasks
      else SetStatus(s2, t, if s.inflight[t].phase.agentMode && waiting then AwaitingHuman else PrCreated).tasks
    ensures Delivered(s, s', t, waiting)
  {
    var p := s.inflight[t].phase;
    assert LiveOk(s, t);
    assert RunOk(s, p.run - 1);
    Settled(s, p.run);
    if SafetyRuns.AnsweredMeanwhile(s, p, waiting) {
      Effects.RequeueMeans(s2, t, Carried(p) != "");
      SameRequeue(s, s2, Requeue(s2, t, Carried(p) != ""), s', t, Carried(p) != "");
    }
  }

  lemma SuccessEnds(s: State, t: nat, waiting: bool, text: bool)
    requires Core(s) && AtTheEnd(s, t)
    ensures Delivered(s, DoClassify(s, t, NoError, waiting, text), t, waiting)
  {
    var l := s.inflight[t];
    SafetyRuns.SuccessSettles(s, t, l.phase, l.cause, waiting, text);
    SuccessDelivers(s, t, waiting, SafetyRuns.Delivered(s, t, l.phase, waiting, text), DoClassify(s, t, NoError, waiting, text));
  }

  /** A run that succeeded posts its report, if it wrote one, and no other comment. */
  predicate Reported(s: State, s': State, t: nat, text: bool) {
    && s'.nextComment == s.nextComment + (if text then 1 else 0)
    && s'.comments.Keys == s.comments.Keys + (if text then {s.nextComment} else {})
    && (text ==> s.nextComment in s'.comments && s'.comments[s.nextComment] == Comment(t, ByAgent, 0))
  }

  lemma ReportIsPosted(s: State, t: nat, waiting: bool, text: bool)
    requires AtTheEnd(s, t)
    ensures Reported(s, DoClassify(s, t, NoError, waiting, text), t, text)
  {
    var l := s.inflight[t];
    SafetyRuns.SuccessSettles(s, t, l.phase, l.cause, waiting, text);
    var s2 := SafetyRuns.Delivered(s, t, l.phase, waiting, text);
    assert DoClassify(s, t, NoError, waiting, text).comments == s2.comments;
  }

  /** How a run ends, in every reachable state: what its row says, where its task goes, and
      that the goroutine has nothing left to do. */
  lemma EndMeans(cfg: Config, steps: seq<Step>, t: nat, err: InvokeError, waiting: bool, text: bool)
    requires AtTheEnd(After(cfg, steps), t)
    ensures Finished(After(cfg, steps), After(cfg, steps + [Classify(t, err, waiting, text)]), t, err)
    ensures err.NoError? ==> Delivered(After(cfg, steps), After(cfg, steps + [Classify(t, err, waiting, text)]), t, waiting)
    ensures err.NoError? ==> Reported(After(cfg, steps), After(cfg, steps + [Classify(t, err, waiting, text)]), t, text)
    ensures !err.NoError? ==> MovedOn(After(cfg, steps), After(cfg, steps + [Classify(t, err, waiting, text)]), t)
  {
    var s := After(cfg, steps);
    PathLast(cfg, Initial, steps, Classify(t, err, waiting, text), s);
    SafetyRuns.CoreAlways(cfg, steps);
    if err.NoError? {
      SuccessFinishes(s, t, waiting, text);
      SuccessEnds(s, t, waiting, text);
      ReportIsPosted(s, t, waiting, text);
    } else {
      FailureEnds(s, t, err, waiting, text);
    }
  }

  /** A run that ends other than by success and has recorded a session can be resumed from it:
      its row is the newest of the task, cut short, with that session. */
  lemma EndsStoppedShort(cfg: Config, steps: seq<Step>, t: nat, err: InvokeError, waiting: bool, text: bool)
    requires AtTheEnd(After(cfg, steps), t) && !err.NoError?
    requires var s := After(cfg, steps); s.runs[s.inflight[t].phase.run - 1].session != ""
    ensures Effects.StoppedShort(After(cfg, steps + [Classify(t, err, waiting, text)]), t)
  {
    var s, s' := After(cfg, steps), After(cfg, steps + [Classify(t, err, waiting, text)]);
    EndMeans(cfg, steps, t, err, waiting, text);
    SafetyRuns.CoreAlways(cfg, steps);
    WorksOnNewest(s, t);
    ShortAfterEnd(s, s', t, err);
  }

  lemma WorksOnNewest(s: State, t: nat)
    requires Core(s) && AtTheEnd(s, t)
    ensures LastOf(s.runs, s.inflight[t].phase.run, t)
  {
    assert LiveOk(s, t);
  }

  lemma ShortAfterEnd(s: State, s': State, t: nat, err: InvokeError)
    requires AtTheEnd(s, t) && Finished(s, s', t, err) && !err.NoError?
    requires LastOf(s.runs, s.inflight[t].phase.run, t) && s.runs[s.inflight[t].phase.run - 1].session != ""
    ensures Effects.StoppedShort(s', t)
  {
    var r := s.inflight[t].phase.run;
    assert LastOf(s'.runs, r, t);
  }

  /** So whatever stopped it, a follow-up after the run has gone takes the task back to that
      session, in line with all its attempts. */
  lemma FollowUpResumes(cfg: Config, steps: seq<Step>, t: nat, err: InvokeError, waiting: bool, text: bool)
    requires AtTheEnd(After(cfg, steps), t) && !err.NoError?
    requires var s := After(cfg, steps); s.runs[s.inflight[t].phase.run - 1].session != ""
    ensures var s' := After(cfg, steps + [Classify(t, err, waiting, text)] + [Exit(t)] + [AddComment(t)]);
      t in s'.tasks && s'.tasks[t].status.Resumable? && Effects.InLine(s', t)
  {
    var ended := steps + [Classify(t, err, waiting, text)];
    var s, s1 := After(cfg, steps), After(cfg, ended);
    EndMeans(cfg, steps, t, err, waiting, text);
    EndsStoppedShort(cfg, steps, t, err, waiting, text);
    PathLast(cfg, Initial, ended, Exit(t), s1);
    ClassifyStaysBooted(cfg, s, t, err, waiting, text);
    PathLast(cfg, Initial, steps, Classify(t, err, waiting, text), s);
    ExitMeans(cfg, s1, t);
    Effects.FollowUpRequeues(cfg, ended + [Exit(t)], t);
    ShortElsewhere(s1, After(cfg, ended + [Exit(t)]), t);
  }

  lemma ClassifyStaysBooted(cfg: Config, s: State, t: nat, err: InvokeError, waiting: bool, text: bool)
    requires s.booted
    ensures Next(cfg, s, Classify(t, err, waiting, text)).booted
  {
    SafetyRuns.ClassifyFrame(s, t, err, waiting, text);
  }

  /** A goroutine that has returned leaves the table of goroutines, and changes nothing else. */
  lemma ExitMeans(cfg: Config, s: State, t: nat)
    requires s.booted
    ensures Next(cfg, s, Exit(t))
      == if t in s.inflight && s.inflight[t].phase.Returned? then s.(inflight := s.inflight - {t}) else s
  {
  }

  lemma ShortElsewhere(s: State, s': State, t: nat)
    requires Effects.StoppedShort(s, t) && s'.runs == s.runs
    ensures Effects.StoppedShort(s', t)
  {
    Effects.AtHand(s, t);
    Effects.AtHand(s', t);
  }
}
