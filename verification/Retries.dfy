/** The attempt bound and the length of a chain of retries.

    Only the start of a run adds a row, and no step renumbers one. A run past its pre-flight is
    within the cap however stale its plan; a pre-flight failure is within it exactly when the
    task had an attempt left at that moment, and so all rows are exactly when every failure
    was. A chain is a stretch without a reset or a launch from scratch: each row in it is paid
    for with an attempt, except for launches that were overtaken, so chains are finite. The
    count they rest on is the invariant of `Attempts`. */
module Retries {
  import opened Domain
  import opened Lifecycle
  import opened Safety
  import opened SafetySteps
  import opened SafetyRuns
  import Frames
  import opened Attempts
  import Policy

  // ---------------------------------------------------------------- rows are numbered once

  lemma ClassifyNumbers(s: State, t: nat, err: InvokeError, waiting: bool, text: bool)
    requires Core(s)
    ensures SameNumbers(s, DoClassify(s, t, err, waiting, text))
  {
    if IsWorking(s, t) && s.inflight[t].phase.invoked {
      if err.NoError? {
        ClassifySuccessIsClassified(s, t, waiting, text);
      } else {
        ClassifyFailureIsClassified(s, t, err, waiting, text);
      }
      ClassifiedNumbers(s, DoClassify(s, t, err, waiting, text), t, s.inflight[t].phase.run);
    }
  }

  lemma ClassifiedNumbers(s: State, s': State, t: nat, r: nat)
    requires Classified(s, s', t, r)
    ensures SameNumbers(s, s')
  {
  }

  lemma GoroutineNumbers(cfg: Config, s: State, step: Step)
    requires Core(s) && s.booted && GoroutineStep(step) && !step.Begin?
    ensures SameNumbers(s, Next(cfg, s, step))
  {
    if step.Classify? {
      ClassifyNumbers(s, step.t, step.err, step.waiting, step.text);
    } else {
      Frames.MinorSteps(cfg, s, step);
    }
  }

  lemma UserNumbers(s: State, step: Step)
    requires !GoroutineStep(step) && !SchedulerStep(step) && !RequestStep(step) && !step.CancelRun?
    ensures UserNext(s, step).runs == s.runs
  {
    match step
    case CreateTask(b, a) => Frames.CreateFrame(s, b, a);
    case UpdateTask(t, a) => Frames.UpdateEdits(s, t, a);
    case DeleteTask(t) => Frames.DeleteFrame(s, t);
    case ReorderTasks(o) =>
    case PauseTask(t) => Frames.PauseEdits(s, t);
    case ResumeTask(t) => Frames.ResumeEdits(s, t);
    case CompleteTask(t) => Frames.RetireRetires(s, t, Done);
    case DismissTask(t) => Frames.RetireRetires(s, t, Dismissed);
    case MoveTask(t, to) =>
      if to.Done? || to.Dismissed? {
        Frames.MoveRetires(s, t, to);
      } else {
        Frames.MoveEdits(s, t, to);
      }
    case AddComment(t) => Frames.AddCommentComments(s, t);
  }

  lemma SchedulerNumbers(cfg: Config, s: State, step: Step)
    requires Core(s) && SchedulerStep(step) && (s.booted || step.Reconcile? || step.Crash?)
    ensures SameNumbers(s, SchedulerNext(cfg, s, step))
  {
    if step.Reconcile? {
      BurialQueuesNothing(s, |s.runs|);
    } else if !step.Crash? {
      Frames.SchedulerSteps(cfg, s, step);
    }
  }

  lemma RequestNumbers(cfg: Config, s: State, step: Step)
    requires Core(s) && RequestStep(step) && s.booted
    ensures Next(cfg, s, step).runs == s.runs
  {
    if step.Respond? {
      if IsPending(s, step.q) {
        Frames.RespondResponds(s, step.q);
      }
    } else {
      Frames.RequestSteps(cfg, s, step);
    }
  }

  /** Only `Begin` inserts a run row, and no step renumbers one. */
  lemma OnlyBeginInserts(cfg: Config, s: State, step: Step)
    requires Core(s) && !step.Begin?
    ensures SameNumbers(s, Next(cfg, s, step))
  {
    if SchedulerStep(step) {
      if s.booted || step.Reconcile? || step.Crash? {
        SchedulerNumbers(cfg, s, step);
      }
    } else if s.booted {
      if GoroutineStep(step) {
        GoroutineNumbers(cfg, s, step);
      } else if RequestStep(step) {
        RequestNumbers(cfg, s, step);
      } else if step.CancelRun? {
        CancelRunSignals(s, step.r);
      } else {
        UserNumbers(s, step);
      }
    }
  }

  // ---------------------------------------------------------------- the bound

  predicate WithinCap(cfg: Config, s: State) {
    forall i :: 0 <= i < |s.runs| ==> s.runs[i].attempt <= cfg.maxAttempts
  }

  /** A run that gets past its pre-flight is within the cap, however stale its plan. */
  lemma StartedRunsFit(cfg: Config, steps: seq<Step>, t: nat)
    requires AttemptsLeft(cfg)
    requires var s := After(cfg, steps); s.booted && IsLaunched(s, t) && t in s.tasks
    ensures var s := After(cfg, steps);
      var s' := Next(cfg, s, Begin(t, false));
      |s'.runs| == |s.runs| + 1 && 1 <= s'.runs[|s.runs|].attempt <= cfg.maxAttempts
  {
    var s := After(cfg, steps);
    CountAlways(cfg, steps);
    CoreAlways(cfg, steps);
    assert LiveOk(s, t);
    assert Holds(s, s.inflight[t].phase.c) && Fits(cfg, s, s.inflight[t].phase.c);
  }

  /** A pre-flight failure is numbered one past what the task has spent by now, so it is
      within the cap exactly when the task still has an attempt left. It gives the task up
      exactly at the cap. A launch nobody overtook always has an attempt left. */
  lemma PreflightFits(cfg: Config, steps: seq<Step>, t: nat)
    requires AttemptsLeft(cfg)
    requires var s := After(cfg, steps); s.booted && IsLaunched(s, t) && t in s.tasks
    ensures var s := After(cfg, steps);
      var s' := Next(cfg, s, Begin(t, true));
      && |s'.runs| == |s.runs| + 1
      && (s'.runs[|s.runs|].attempt <= cfg.maxAttempts <==> Spent(s, t) < cfg.maxAttempts)
      && t in s'.tasks && Spent(s', t) == Spent(s, t) + 1
      && s'.tasks[t].status == (if Spent(s', t) >= cfg.maxAttempts then Failed else Queued)
      && (!Overtaken(s, Begin(t, true)) ==> HasBudget(cfg, s, t))
  {
    var s := After(cfg, steps);
    CountAlways(cfg, steps);
    CoreAlways(cfg, steps);
    assert LiveOk(s, t);
    assert Holds(s, s.inflight[t].phase.c) && Fits(cfg, s, s.inflight[t].phase.c);
    assert TaskCount(cfg, s, t);
    NewestPush(s.runs, Next(cfg, s, Begin(t, true)).runs[|s.runs|]);
  }

  predicate Inserts(s: State, step: Step) {
    step.Begin? && s.booted && IsLaunched(s, step.t) && step.t in s.tasks
  }

  lemma BeginShape(cfg: Config, s: State, step: Step)
    ensures var s' := Next(cfg, s, step);
      && (Inserts(s, step) ==> |s'.runs| == |s.runs| + 1 && s'.runs == s.runs + [s'.runs[|s.runs|]]
                               && s'.runs[|s.runs|].task == step.t && s'.runs[|s.runs|].id == |s.runs| + 1)
      && (step.Begin? && !Inserts(s, step) ==> s'.runs == s.runs)
  {
  }

  /** Every launch that failed its pre-flight found its task with an attempt left. */
  predicate FailuresHadAttempts(cfg: Config, steps: seq<Step>) {
    steps != [] ==>
      && FailuresHadAttempts(cfg, steps[..|steps| - 1])
      && FailureHadAttempt(cfg, After(cfg, steps[..|steps| - 1]), steps[|steps| - 1])
  }

  predicate FailureHadAttempt(cfg: Config, s: State, step: Step) {
    Inserts(s, step) && step.preflightFails ==> Spent(s, step.t) < cfg.maxAttempts
  }

  lemma StepFitsIff(cfg: Config, steps: seq<Step>, step: Step)
    requires AttemptsLeft(cfg) && WithinCap(cfg, After(cfg, steps))
    ensures WithinCap(cfg, Next(cfg, After(cfg, steps), step)) <==> FailureHadAttempt(cfg, After(cfg, steps), step)
  {
    var s := After(cfg, steps);
    BeginShape(cfg, s, step);
    if Inserts(s, step) {
      if step.preflightFails {
        PreflightFits(cfg, steps, step.t);
      } else {
        StartedRunsFit(cfg, steps, step.t);
      }
    } else if !step.Begin? {
      CoreAlways(cfg, steps);
      OnlyBeginInserts(cfg, s, step);
    }
  }

  /** A row past the cap stays past it. */
  lemma ExcessStays(cfg: Config, steps: seq<Step>, step: Step)
    requires !WithinCap(cfg, After(cfg, steps))
    ensures !WithinCap(cfg, Next(cfg, After(cfg, steps), step))
  {
    var s := After(cfg, steps);
    var s' := Next(cfg, s, step);
    var i :| 0 <= i < |s.runs| && s.runs[i].attempt > cfg.maxAttempts;
    BeginShape(cfg, s, step);
    if !step.Begin? {
      CoreAlways(cfg, steps);
      OnlyBeginInserts(cfg, s, step);
    }
    assert s'.runs[i].attempt == s.runs[i].attempt;
  }

  /** Every run row's attempt is at most max_attempts exactly when every launch that failed
      its pre-flight found an attempt left. */
  lemma {:induction false} BoundedIff(cfg: Config, steps: seq<Step>)
    requires AttemptsLeft(cfg)
    ensures WithinCap(cfg, After(cfg, steps)) <==> FailuresHadAttempts(cfg, steps)
  {
    if steps != [] {
      var n := |steps| - 1;
      var front := steps[..n];
      BoundedIff(cfg, front);
      if WithinCap(cfg, After(cfg, front)) {
        StepFitsIff(cfg, front, steps[n]);
      } else {
        ExcessStays(cfg, front, steps[n]);
      }
    }
  }

  lemma {:induction false} AttemptsArePositive(cfg: Config, steps: seq<Step>)
    ensures forall i :: 0 <= i < |After(cfg, steps).runs| ==> After(cfg, steps).runs[i].attempt >= 1
  {
    if steps != [] {
      var n := |steps| - 1;
      AttemptsArePositive(cfg, steps[..n]);
      StepKeepsPositive(cfg, steps[..n], steps[n]);
    }
  }

  lemma StepKeepsPositive(cfg: Config, steps: seq<Step>, step: Step)
    requires forall i :: 0 <= i < |After(cfg, steps).runs| ==> After(cfg, steps).runs[i].attempt >= 1
    ensures var s' := Next(cfg, After(cfg, steps), step); forall i :: 0 <= i < |s'.runs| ==> s'.runs[i].attempt >= 1
  {
    var s := After(cfg, steps);
    if step.Begin? {
      BeginShape(cfg, s, step);
      if Inserts(s, step) {
        NewRowIsPositive(cfg, s, step.t, step.preflightFails);
      }
    } else {
      CoreAlways(cfg, steps);
      OnlyBeginInserts(cfg, s, step);
    }
  }

  lemma NewRowIsPositive(cfg: Config, s: State, t: nat, fails: bool)
    requires Inserts(s, Begin(t, fails))
    ensures var s' := Next(cfg, s, Begin(t, fails)); |s'.runs| == |s.runs| + 1 && s'.runs[|s.runs|].attempt >= 1
  {
  }

  /** With max_attempts 0 the first row of all is past the cap. */
  lemma NoneWithinZero(cfg: Config, steps: seq<Step>)
    requires cfg.maxAttempts == 0
    ensures WithinCap(cfg, After(cfg, steps)) <==> After(cfg, steps).runs == []
  {
    AttemptsArePositive(cfg, steps);
    var runs := After(cfg, steps).runs;
    if runs != [] {
      assert runs[0].attempt >= 1;
    }
  }

  /** With no launch overtaken, that is always so if a task may be tried twice. */
  lemma {:induction false} AttemptsBounded(cfg: Config, steps: seq<Step>)
    requires cfg.maxAttempts >= 2 && Undisturbed(cfg, steps)
    ensures FailuresHadAttempts(cfg, steps) && WithinCap(cfg, After(cfg, steps))
  {
    if steps != [] {
      var n := |steps| - 1;
      AttemptsBounded(cfg, steps[..n]);
      PromptFailureHadAttempt(cfg, steps[..n], steps[n]);
    }
    BoundedIff(cfg, steps);
  }

  lemma PromptFailureHadAttempt(cfg: Config, steps: seq<Step>, step: Step)
    requires cfg.maxAttempts >= 2 && !Overtaken(After(cfg, steps), step)
    ensures FailureHadAttempt(cfg, After(cfg, steps), step)
  {
    if Inserts(After(cfg, steps), step) && step.preflightFails {
      PreflightFits(cfg, steps, step.t);
    }
  }

  // ---------------------------------------------------------------- the length of a chain

  function Rows(runs: seq<Run>, t: nat): (n: nat)
    ensures n <= |runs|
  {
    if runs == [] then 0
    else Rows(runs[..|runs| - 1], t) + if runs[|runs| - 1].task == t then 1 else 0
  }

  lemma {:induction false} RowsSame(a: seq<Run>, b: seq<Run>, t: nat)
    requires |a| == |b| && forall i :: 0 <= i < |a| ==> a[i].task == b[i].task
    ensures Rows(a, t) == Rows(b, t)
  {
    if a != [] {
      RowsSame(a[..|a| - 1], b[..|b| - 1], t);
    }
  }

  /** A step that does not give `t` a fresh budget: no reset, and no launch from scratch. */
  predicate NoFreshBudget(cfg: Config, s: State, step: Step, t: nat) {
    var s' := Next(cfg, s, step);
    && t in s.tasks && t in s'.tasks && s'.tasks[t].attemptReset == s.tasks[t].attemptReset
    && (step == Begin(t, false) && IsLaunched(s, t) ==> s.inflight[t].phase.c.resume.Some?)
  }

  /** The step starts a run that resumes `t`. */
  predicate Resumes(s: State, step: Step, t: nat) {
    step == Begin(t, false) && Inserts(s, step) && s.inflight[t].phase.c.resume.Some?
  }

  /** What a launch of `t` leaves behind: one more row, and the attempts it is numbered with. */
  lemma OwnInsertion(cfg: Config, s: State, t: nat, fails: bool)
    requires Core(s) && Counted(cfg, s) && Inserts(s, Begin(t, fails))
    ensures var s' := Next(cfg, s, Begin(t, fails));
      && t in s'.tasks && Rows(s'.runs, t) == Rows(s.runs, t) + 1
      && Spent(s', t) == (if fails then Spent(s, t) + 1 else FirstAttempt(s.inflight[t].phase.c))
  {
    var s' := Next(cfg, s, Begin(t, fails));
    assert TaskCount(cfg, s, t);
    BeginShape(cfg, s, Begin(t, fails));
    OwnRow(s, s', s'.runs[|s.runs|], t);
  }

  /** A new row past the reset point is what the task has spent. */
  lemma OwnRow(s: State, s': State, row: Run, t: nat)
    requires s'.runs == s.runs + [row] && row.task == t && row.id == |s.runs| + 1 && t in s.tasks && t in s'.tasks
    requires s'.tasks[t].attemptReset == s.tasks[t].attemptReset <= |s.runs|
    ensures Rows(s'.runs, t) == Rows(s.runs, t) + 1 && Spent(s', t) == row.attempt
  {
    NewestPush(s.runs, row);
    RowsPush(s.runs, row, t);
  }

  lemma RowsPush(a: seq<Run>, r: Run, t: nat)
    ensures Rows(a + [r], t) == Rows(a, t) + if r.task == t then 1 else 0
  {
    assert (a + [r])[..|a|] == a;
  }

  /** Any other step leaves the rows of `t` and its count alone, unless it is reset. */
  lemma OtherStep(cfg: Config, s: State, step: Step, t: nat)
    requires Core(s) && !(Inserts(s, step) && step.t == t)
    requires var s' := Next(cfg, s, step);
      t in s.tasks && t in s'.tasks && s'.tasks[t].attemptReset == s.tasks[t].attemptReset
    ensures var s' := Next(cfg, s, step); Rows(s'.runs, t) == Rows(s.runs, t) && Spent(s', t) == Spent(s, t)
  {
    var s' := Next(cfg, s, step);
    BeginShape(cfg, s, step);
    if Inserts(s, step) {
      OthersRow(s, s', s'.runs[|s.runs|], t);
    } else {
      if !step.Begin? {
        OnlyBeginInserts(cfg, s, step);
      }
      RowsSame(s.runs, s'.runs, t);
      SpentSame(s, s', t);
    }
  }

  lemma OthersRow(s: State, s': State, row: Run, t: nat)
    requires s'.runs == s.runs + [row] && row.task != t && t in s.tasks && t in s'.tasks
    requires s'.tasks[t].attemptReset == s.tasks[t].attemptReset
    ensures Rows(s'.runs, t) == Rows(s.runs, t) && Spent(s', t) == Spent(s, t)
  {
    NewestPush(s.runs, row);
    RowsPush(s.runs, row, t);
  }

  lemma SpentSame(s: State, s': State, t: nat)
    requires SameNumbers(s, s') && t in s.tasks && t in s'.tasks
    requires s'.tasks[t].attemptReset == s.tasks[t].attemptReset
    ensures Spent(s', t) == Spent(s, t)
  {
  }

  /** Without a fresh budget, each run row of `t` is paid for with an attempt, always when the
      launch fails its pre-flight, and otherwise exactly when the attempt it resumes with is
      more than the task had spent by then. */
  lemma EachRetrySpends(cfg: Config, steps: seq<Step>, step: Step, t: nat)
    requires AttemptsLeft(cfg) && NoFreshBudget(cfg, After(cfg, steps), step, t)
    ensures var s := After(cfg, steps);
      var s' := Next(cfg, s, step);
      Rows(s'.runs, t) - Rows(s.runs, t) <= Spent(s', t) - Spent(s, t)
      <==> (Resumes(s, step, t) ==> FirstAttempt(s.inflight[t].phase.c) > Spent(s, t))
  {
    var s := After(cfg, steps);
    CoreAlways(cfg, steps);
    if Inserts(s, step) && step.t == t {
      CountAlways(cfg, steps);
      OwnInsertion(cfg, s, t, step.preflightFails);
    } else {
      OtherStep(cfg, s, step, t);
    }
  }

  /** A resume nobody overtook always spends. */
  lemma PromptResumeSpends(cfg: Config, s: State, step: Step, t: nat)
    requires Core(s) && Counted(cfg, s) && Resumes(s, step, t) && !Overtaken(s, step)
    ensures FirstAttempt(s.inflight[t].phase.c) > Spent(s, t)
  {
    var c := s.inflight[t].phase.c;
    assert LiveOk(s, t);
    assert Holds(s, c) && Fits(cfg, s, c);
    RowIds(s);
  }

  /** `t` gets no fresh budget anywhere along `more`. */
  predicate Chain(cfg: Config, s: State, more: seq<Step>, t: nat) {
    more != [] ==>
      && Chain(cfg, s, more[..|more| - 1], t)
      && NoFreshBudget(cfg, Path(cfg, s, more[..|more| - 1]), more[|more| - 1], t)
  }

  /** The attempts `t` has left. */
  function Left(cfg: Config, s: State, t: nat): nat
    requires t in s.tasks
  {
    if Spent(s, t) < cfg.maxAttempts then cfg.maxAttempts - Spent(s, t) else 0
  }

  /** How many of the launches of `t` along `more` were overtaken. */
  function Late(cfg: Config, s: State, more: seq<Step>, t: nat): nat {
    if more == [] then 0
    else
      var n := |more| - 1;
      var before := Path(cfg, s, more[..n]);
      Late(cfg, s, more[..n], t) + if Overtaken(before, more[n]) && more[n].t == t then 1 else 0
  }

  /** A launch that is not overtaken uses up an attempt that was left; one that is, leaves at
      least one attempt spent. */
  lemma LaunchUses(cfg: Config, steps: seq<Step>, step: Step, t: nat)
    requires cfg.maxAttempts >= 2 && NoFreshBudget(cfg, After(cfg, steps), step, t)
    requires Inserts(After(cfg, steps), step) && step.t == t
    ensures var s := After(cfg, steps);
      var s' := Next(cfg, s, step);
      && Rows(s'.runs, t) == Rows(s.runs, t) + 1
      && 1 + Left(cfg, s', t) <= if Overtaken(s, step) then cfg.maxAttempts else Left(cfg, s, t)
  {
    var s := After(cfg, steps);
    CoreAlways(cfg, steps);
    CountAlways(cfg, steps);
    OwnInsertion(cfg, s, t, step.preflightFails);
    if step.preflightFails {
      PreflightFits(cfg, steps, t);
    } else {
      var c := s.inflight[t].phase.c;
      assert LiveOk(s, t);
      assert Holds(s, c) && Fits(cfg, s, c);
      if !Overtaken(s, step) {
        PromptResumeSpends(cfg, s, step, t);
      }
    }
  }

  /** Every chain is finite: with no reset and no launch from scratch, a task gets at most
      the runs its remaining attempts allow, and at most max_attempts more for each launch
      that was overtaken. */
  lemma {:induction false} ChainsAreFinite(cfg: Config, steps: seq<Step>, more: seq<Step>, t: nat)
    requires cfg.maxAttempts >= 2 && t in After(cfg, steps).tasks && Chain(cfg, After(cfg, steps), more, t)
    ensures var s, s' := After(cfg, steps), Path(cfg, After(cfg, steps), more);
      && t in s'.tasks
      && Rows(s'.runs, t) - Rows(s.runs, t) + Left(cfg, s', t)
           <= Left(cfg, s, t) + Late(cfg, s, more, t) * cfg.maxAttempts
  {
    if more != [] {
      var n := |more| - 1;
      var front := more[..n];
      ChainsAreFinite(cfg, steps, front, t);
      PathAppend(cfg, Initial, steps, front);
      ChainStep(cfg, steps + front, more[n], t);
      LateTimes(cfg, After(cfg, steps), more, t);
    }
  }

  lemma ChainStep(cfg: Config, steps: seq<Step>, step: Step, t: nat)
    requires cfg.maxAttempts >= 2 && NoFreshBudget(cfg, After(cfg, steps), step, t)
    ensures var s := After(cfg, steps);
      var s' := Next(cfg, s, step);
      Rows(s'.runs, t) - Rows(s.runs, t) + Left(cfg, s', t)
        <= Left(cfg, s, t) + if Overtaken(s, step) && step.t == t then cfg.maxAttempts else 0
  {
    var s := After(cfg, steps);
    if Inserts(s, step) && step.t == t {
      LaunchUses(cfg, steps, step, t);
    } else {
      CoreAlways(cfg, steps);
      OtherStep(cfg, s, step, t);
    }
  }

  lemma {:induction false} LateTimes(cfg: Config, s: State, more: seq<Step>, t: nat)
    requires more != []
    ensures var n := |more| - 1;
      Late(cfg, s, more, t) * cfg.maxAttempts
      == Late(cfg, s, more[..n], t) * cfg.maxAttempts
         + if Overtaken(Path(cfg, s, more[..n]), more[n]) && more[n].t == t then cfg.maxAttempts else 0
  {
    OneMore(Late(cfg, s, more[..|more| - 1], t), cfg.maxAttempts);
  }

  lemma OneMore(a: nat, m: nat)
    ensures (a + 1) * m == a * m + m
  {
  }

  /** And a chain that has used its budget up is over: the task is not queued, and if it is
      resumable the next pass gives it up and does not launch it. */
  lemma SpentTasksAreGivenUp(cfg: Config, steps: seq<Step>, t: nat, e: Reading, running: seq<nat>)
    requires cfg.maxAttempts >= 2 && t in After(cfg, steps).tasks
    requires var s := After(cfg, steps); Spent(s, t) >= cfg.maxAttempts && Lists(running, s.inflight.Keys) && t !in s.inflight
    ensures var s := After(cfg, steps);
      && !s.tasks[t].status.Queued?
      && (s.tasks[t].status.Resumable? ==> ToFail(t) in PassTickets(cfg, s, e, running))
      && (forall c :: ToLaunch(c) in PassTickets(cfg, s, e, running) ==> c.task != t)
  {
    var s := After(cfg, steps);
    CountAlways(cfg, steps);
    CoreAlways(cfg, steps);
    assert TaskCount(cfg, s, t);
    var cs := Candidates(s);
    var inp := InputFor(cfg, s, e, running, {});
    var ds := Verdicts(inp);
    forall c | ToLaunch(c) in PassTickets(cfg, s, e, running)
      ensures c.task != t
    {
      PlannedFits(cfg, s, e, running, c);
      NoLaunchAmongOthers(cs, ds, c);
      var i := TicketIndex(cs, ds, c);
      assert cs[i] in cs;
    }
    if s.tasks[t].status.Resumable? {
      assert TaskOk(s, t);
      assert t in s.order;
      assert ResumeCandidate(s, t) in cs;
      var i :| 0 <= i < |cs| && cs[i] == ResumeCandidate(s, t);
      assert inp.candidates[i] == ForPolicy(cs[i]);
      assert Policy.Verdict(inp, i).action.Fail?;
      FailIsTicketed(cs, ds, i);
    }
  }

  lemma {:induction false} FailIsTicketed(cs: seq<Candidate>, ds: seq<Policy.Decision>, i: nat)
    requires |cs| == |ds| && i < |cs| && ds[i].action.Fail?
    ensures ToFail(cs[i].task) in FailTickets(cs, ds)
  {
    var n := |cs| - 1;
    if i < n {
      FailIsTicketed(cs[..n], ds[..n], i);
    }
  }
}
