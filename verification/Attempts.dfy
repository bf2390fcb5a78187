/** Attempts are bounded: what a run's number may be, and how long a chain of retries can go
    on without the user stepping in.

    The invariant counts what each task has spent, as the scheduler does: the attempt of its
    newest run, or nothing if it was reset since. A queued task has an attempt left. So had
    every candidate that is planned and not started yet when it was planned, and it has one
    still if its task has not run since. The lemmas below keep the count through every kind of
    step; the two that matter are a plan, which takes only candidates with an attempt left,
    and the start of a run, which is where attempts are spent. */
module Attempts {
  import opened Domain
  import opened Lifecycle
  import opened Safety
  import opened SafetySteps
  import opened SafetyRuns
  import Frames
  import Policy

  /** How many attempts task `t` has behind it, as the scheduler counts them now. */
  function Spent(s: State, t: nat): nat
    requires t in s.tasks
  {
    EffectiveAttempt(s.tasks[t].attemptReset, LatestRun(s.runs, t))
  }

  // ---------------------------------------------------------------- the invariant

  /** The task has an attempt left. A task that may be tried only once is queued again with
      none left when its run got no token. */
  predicate HasBudget(cfg: Config, s: State, t: nat)
    requires t in s.tasks
  {
    Spent(s, t) < cfg.maxAttempts || cfg.maxAttempts == 1
  }

  /** A reset never points past the run table, and a queued task has attempts left. */
  predicate TaskCount(cfg: Config, s: State, t: nat)
    requires t in s.tasks
  {
    s.tasks[t].attemptReset <= |s.runs| && (s.tasks[t].status.Queued? ==> HasBudget(cfg, s, t))
  }

  /** A planned candidate had attempts left when it was planned, and has them still if its
      task has not run since. */
  predicate Fits(cfg: Config, s: State, c: Candidate) {
    && c.task < s.nextTask && c.newest <= |s.runs|
    && (c.resume.Some? ==>
          && c.newest >= 1 && c.resume.value.id == c.newest
          && c.resume.value.attempt == s.runs[c.newest - 1].attempt
          && EffectiveAttempt(c.attemptReset, c.resume) < cfg.maxAttempts)
    && (c.task in s.tasks ==>
          && c.attemptReset <= s.tasks[c.task].attemptReset
          && (Newest(s.runs, c.task) == c.newest ==> HasBudget(cfg, s, c.task)))
  }

  /** `c` is planned and not started yet. */
  predicate Holds(s: State, c: Candidate) {
    || ToLaunch(c) in s.todo || c in s.byHand
    || (c.task in s.inflight && s.inflight[c.task].phase == Launched(c))
  }

  /** A fresh run that has not been invoked yet is its task's attempt 1. */
  predicate FreshStart(s: State, t: nat)
    requires t in s.inflight
  {
    match s.inflight[t].phase
    case Working(r, prior, _, invoked, _) =>
      !invoked && prior == "" ==> 1 <= r <= |s.runs| && s.runs[r - 1].attempt == 1
    case _ => true
  }

  ghost predicate Counted(cfg: Config, s: State) {
    && (forall t :: t in s.tasks ==> TaskCount(cfg, s, t))
    && (forall c :: Holds(s, c) ==> Fits(cfg, s, c))
    && (forall t :: t in s.inflight ==> FreshStart(s, t))
  }

  // ---------------------------------------------------------------- steps that insert no run

  predicate SameNumbers(s: State, s': State) {
    && |s'.runs| == |s.runs|
    && forall i :: 0 <= i < |s.runs| ==>
         s'.runs[i].id == s.runs[i].id && s'.runs[i].task == s.runs[i].task && s'.runs[i].attempt == s.runs[i].attempt
  }

  /** A task keeps its count when resets move forward only, and a task that becomes queued
      has attempts left. */
  predicate TaskAdvances(cfg: Config, s: State, s': State, t: nat)
    requires t in s'.tasks
  {
    if t in s.tasks then
      && s.tasks[t].attemptReset <= s'.tasks[t].attemptReset <= |s.runs|
      && (s'.tasks[t].status.Queued? ==> s.tasks[t].status.Queued? || HasBudget(cfg, s', t))
    else
      t >= s.nextTask && s'.tasks[t].attemptReset == 0 && Newest(s'.runs, t) == 0 && cfg.maxAttempts > 0
  }

  lemma CountFrame(cfg: Config, s: State, s': State)
    requires Core(s) && Counted(cfg, s) && SameNumbers(s, s') && s.nextTask <= s'.nextTask
    requires forall t :: t in s'.tasks ==> TaskAdvances(cfg, s, s', t)
    requires forall c :: Holds(s', c) ==> Holds(s, c)
    requires forall t :: t in s'.inflight ==>
      (t in s.inflight && s'.inflight[t].phase == s.inflight[t].phase) || FreshStart(s', t)
    ensures Counted(cfg, s')
  {
    forall t | t in s'.tasks
      ensures TaskCount(cfg, s', t)
    {
      assert TaskAdvances(cfg, s, s', t);
      if t in s.tasks {
        assert TaskCount(cfg, s, t);
      }
    }
    forall c | Holds(s', c)
      ensures Fits(cfg, s', c)
    {
      assert Fits(cfg, s, c);
      if c.task in s'.tasks {
        assert TaskAdvances(cfg, s, s', c.task);
      }
    }
    forall t | t in s'.inflight
      ensures FreshStart(s', t)
    {
      if t in s.inflight {
        assert FreshStart(s, t);
      }
    }
  }

  /** Re-queueing gives a full budget. */
  lemma RequeueSpends(s: State, t: nat, fromSession: bool)
    requires t in s.tasks && forall i :: 0 <= i < |s.runs| ==> s.runs[i].id == i + 1
    ensures var s' := Requeue(s, t, fromSession);
      && s' == s.(tasks := s.tasks[t := s'.tasks[t]])
      && Spent(s', t) == 0 && s'.tasks[t].attemptReset >= s.tasks[t].attemptReset
      && (s.tasks[t].attemptReset <= |s.runs| ==> s'.tasks[t].attemptReset <= |s.runs|)
  {
  }

  lemma ResetSpends(s: State, t: nat)
    requires t in s.tasks && forall i :: 0 <= i < |s.runs| ==> s.runs[i].id == i + 1
    ensures var s' := ResetAttempts(s, t);
      && s' == s.(tasks := s.tasks[t := s'.tasks[t]]) && s'.tasks[t].status == s.tasks[t].status
      && Spent(s', t) == 0 && s'.tasks[t].attemptReset >= s.tasks[t].attemptReset
      && (s.tasks[t].attemptReset <= |s.runs| ==> s'.tasks[t].attemptReset <= |s.runs|)
  {
  }

  lemma RowIds(s: State)
    requires Core(s)
    ensures forall i :: 0 <= i < |s.runs| ==> s.runs[i].id == i + 1 && s.runs[i].task in s.tasks
  {
    forall i | 0 <= i < |s.runs|
      ensures s.runs[i].id == i + 1 && s.runs[i].task in s.tasks
    {
      assert RunOk(s, i);
    }
  }

  /** A task may be tried at all. */
  predicate AttemptsLeft(cfg: Config) {
    cfg.maxAttempts >= 1
  }

  /** Steps that write one task row, and possibly comments and requests. */
  lemma OneTaskKeepsCount(cfg: Config, s: State, s': State, t: nat)
    requires Core(s) && Counted(cfg, s) && t in s.tasks && t in s'.tasks
    requires s' == s.(tasks := s.tasks[t := s'.tasks[t]], comments := s'.comments, nextComment := s'.nextComment,
                      requests := s'.requests, grants := s'.grants)
    requires s.tasks[t].attemptReset <= s'.tasks[t].attemptReset <= |s.runs|
    requires s'.tasks[t].status.Queued? ==> s.tasks[t].status.Queued? || HasBudget(cfg, s', t)
    ensures Counted(cfg, s')
  {
    forall u | u in s'.tasks
      ensures TaskAdvances(cfg, s, s', u)
    {
      assert TaskCount(cfg, s, u);
    }
    assert forall c :: Holds(s', c) ==> Holds(s, c);
    CountFrame(cfg, s, s');
  }

  lemma UpdateKeepsCount(cfg: Config, s: State, t: nat, newMode: Option<bool>)
    requires AttemptsLeft(cfg) && Core(s) && Counted(cfg, s)
    ensures Counted(cfg, DoUpdateTask(s, t, newMode))
  {
    if t in s.tasks {
      assert TaskCount(cfg, s, t);
      RowIds(s);
      var row := if newMode.Some? then s.tasks[t].(agentMode := newMode.value) else s.tasks[t];
      Frames.UpdateEdits(s, t, newMode);
      ResetSpends(s.(tasks := s.tasks[t := row]), t);
      OneTaskKeepsCount(cfg, s, DoUpdateTask(s, t, newMode), t);
    }
  }

  lemma PauseKeepsCount(cfg: Config, s: State, t: nat)
    requires AttemptsLeft(cfg) && Core(s) && Counted(cfg, s)
    ensures Counted(cfg, DoPause(s, t))
  {
    if t in s.tasks {
      assert TaskCount(cfg, s, t);
      OneTaskKeepsCount(cfg, s, DoPause(s, t), t);
    }
  }

  lemma ResumeKeepsCount(cfg: Config, s: State, t: nat)
    requires AttemptsLeft(cfg) && Core(s) && Counted(cfg, s)
    ensures Counted(cfg, DoResume(s, t))
  {
    if t in s.tasks && s.tasks[t].status.Paused? {
      assert TaskCount(cfg, s, t);
      RowIds(s);
      RequeueSpends(s, t, CanResume(s.runs, t));
      OneTaskKeepsCount(cfg, s, DoResume(s, t), t);
    }
  }

  lemma RetireKeepsCount(cfg: Config, s: State, t: nat, st: TaskStatus)
    requires AttemptsLeft(cfg) && Core(s) && Counted(cfg, s) && !st.Queued?
    ensures Counted(cfg, DoRetire(s, t, st))
  {
    if t in s.tasks && !Busy(s, t) {
      assert TaskCount(cfg, s, t);
      OneTaskKeepsCount(cfg, s, DoRetire(s, t, st), t);
    }
  }

  lemma MoveKeepsCount(cfg: Config, s: State, t: nat, to: TaskStatus)
    requires AttemptsLeft(cfg) && Core(s) && Counted(cfg, s)
    ensures Counted(cfg, DoMove(s, t, to))
  {
    if MoveAllowed(s, t, to) {
      var s' := DoMove(s, t, to);
      assert TaskCount(cfg, s, t);
      RowIds(s);
      if to.Done? || to.Dismissed? {
        Frames.MoveRetires(s, t, to);
      } else {
        Frames.MoveEdits(s, t, to);
        ResetSpends(SetStatus(s, t, MoveTarget(s, t, to)), t);
      }
      OneTaskKeepsCount(cfg, s, s', t);
    }
  }

  lemma AddCommentKeepsCount(cfg: Config, s: State, t: nat)
    requires AttemptsLeft(cfg) && Core(s) && Counted(cfg, s)
    ensures Counted(cfg, DoAddComment(s, t))
  {
    if t in s.tasks && !Busy(s, t) {
      assert TaskCount(cfg, s, t);
      RowIds(s);
      Frames.AddCommentComments(s, t);
      if !s.tasks[t].status.Backlog? {
        RequeueSpends(InsertComment(s, t, ByForm, 0), t, CanResume(s.runs, t));
      }
      OneTaskKeepsCount(cfg, s, DoAddComment(s, t), t);
    }
  }

  lemma RespondKeepsCount(cfg: Config, s: State, q: nat)
    requires AttemptsLeft(cfg) && Core(s) && Counted(cfg, s)
    ensures Counted(cfg, DoRespond(s, q))
  {
    var s' := DoRespond(s, q);
    if IsPending(s, q) {
      assert RequestOk(s, q);
      var t := s.requests[q].task;
      assert TaskCount(cfg, s, t);
      RespondAdvances(cfg, s, q);
      OneTaskKeepsCount(cfg, s, s', t);
    }
  }

  lemma RespondAdvances(cfg: Config, s: State, q: nat)
    requires AttemptsLeft(cfg) && Core(s) && IsPending(s, q) && s.requests[q].task in s.tasks
    requires TaskCount(cfg, s, s.requests[q].task)
    ensures var s' := DoRespond(s, q);
      var t := s.requests[q].task;
      && s' == s.(tasks := s'.tasks, comments := s'.comments, nextComment := s'.nextComment, requests := s'.requests)
      && t in s'.tasks && s'.tasks == s.tasks[t := s'.tasks[t]] && TaskAdvances(cfg, s, s', t)
  {
    var t := s.requests[q].task;
    RowIds(s);
    if s.tasks[t].status.AwaitingHuman? {
      RequeueSpends(Reply(s, q), t, HasSession(s.runs, t));
    }
  }

  /** Steps that write no task and no run row, and plan nothing. */
  lemma IdleKeepsCount(cfg: Config, s: State, s': State)
    requires Core(s) && Counted(cfg, s) && s'.tasks == s.tasks && s'.nextTask == s.nextTask && s'.runs == s.runs
    requires forall c :: Holds(s', c) ==> Holds(s, c)
    requires forall t :: t in s'.inflight ==>
      (t in s.inflight && s'.inflight[t].phase == s.inflight[t].phase) || FreshStart(s', t)
    ensures Counted(cfg, s')
  {
    forall u | u in s'.tasks
      ensures TaskAdvances(cfg, s, s', u)
    {
      assert TaskCount(cfg, s, u);
    }
    CountFrame(cfg, s, s');
  }

  lemma CreateKeepsCount(cfg: Config, s: State, backlog: bool, agentMode: bool)
    requires AttemptsLeft(cfg) && Core(s) && Counted(cfg, s)
    ensures Counted(cfg, DoCreateTask(s, backlog, agentMode))
  {
    var s' := DoCreateTask(s, backlog, agentMode);
    RowIds(s);
    forall t | t in s.tasks
      ensures t < s.nextTask
    {
      assert TaskOk(s, t);
    }
    forall u | u in s'.tasks
      ensures TaskAdvances(cfg, s, s', u)
    {
      if u in s.tasks {
        assert TaskCount(cfg, s, u);
      }
    }
    assert forall c :: Holds(s', c) ==> Holds(s, c);
    CountFrame(cfg, s, s');
  }

  lemma DeleteKeepsCount(cfg: Config, s: State, t: nat)
    requires Core(s) && Counted(cfg, s)
    ensures Counted(cfg, DoDeleteTask(s, t))
  {
    var s' := DoDeleteTask(s, t);
    forall u | u in s'.tasks
      ensures TaskAdvances(cfg, s, s', u)
    {
      assert TaskCount(cfg, s, u);
    }
    assert forall c :: Holds(s', c) ==> Holds(s, c);
    CountFrame(cfg, s, s');
  }

  lemma CancelKeepsCount(cfg: Config, s: State, r: nat)
    requires Core(s) && s.booted && Counted(cfg, s)
    ensures Counted(cfg, DoCancelRun(s, r))
  {
    CancelRunSignals(s, r);
    var s' := DoCancelRun(s, r);
    assert forall c :: Holds(s', c) ==> Holds(s, c);
    IdleKeepsCount(cfg, s, s');
  }

  lemma RequestingKeepsCount(cfg: Config, s: State, s': State, q: nat)
    requires Core(s) && Counted(cfg, s) && Frames.Requesting(s, s', q)
    ensures Counted(cfg, s')
  {
    assert forall c :: Holds(s', c) ==> Holds(s, c);
    IdleKeepsCount(cfg, s, s');
  }

  lemma ReorderKeepsCount(cfg: Config, s: State, order: seq<nat>)
    requires Core(s) && Counted(cfg, s)
    ensures Counted(cfg, s.(order := order))
  {
    var s' := s.(order := order);
    assert forall c :: Holds(s', c) ==> Holds(s, c);
    IdleKeepsCount(cfg, s, s');
  }

  lemma RequestStepKeepsCount(cfg: Config, s: State, step: Step)
    requires AttemptsLeft(cfg) && Core(s) && s.booted && Counted(cfg, s) && RequestStep(step)
    ensures Counted(cfg, Next(cfg, s, step))
  {
    if step.Respond? {
      RespondKeepsCount(cfg, s, step.q);
    } else {
      Frames.RequestSteps(cfg, s, step);
      RequestingKeepsCount(cfg, s, Next(cfg, s, step), Frames.Subject(s, step));
    }
  }

  lemma UserStepKeepsCount(cfg: Config, s: State, step: Step)
    requires AttemptsLeft(cfg) && Core(s) && s.booted && Counted(cfg, s)
    requires !GoroutineStep(step) && !SchedulerStep(step) && !RequestStep(step)
    ensures Counted(cfg, UserNext(s, step))
  {
    match step
    case CreateTask(b, a) => CreateKeepsCount(cfg, s, b, a);
    case UpdateTask(t, a) => UpdateKeepsCount(cfg, s, t, a);
    case DeleteTask(t) => DeleteKeepsCount(cfg, s, t);
    case ReorderTasks(o) => ReorderKeepsCount(cfg, s, o);
    case PauseTask(t) => PauseKeepsCount(cfg, s, t);
    case ResumeTask(t) => ResumeKeepsCount(cfg, s, t);
    case CompleteTask(t) => RetireKeepsCount(cfg, s, t, Done);
    case DismissTask(t) => RetireKeepsCount(cfg, s, t, Dismissed);
    case MoveTask(t, to) => MoveKeepsCount(cfg, s, t, to);
    case AddComment(t) => AddCommentKeepsCount(cfg, s, t);
    case CancelRun(r) => CancelKeepsCount(cfg, s, r);
  }

  // ---------------------------------------------------------------- the scheduler

  /** What the policy lets through has attempts left. */
  lemma LaunchableFits(cfg: Config, s: State, inp: Policy.Input, i: nat)
    requires Core(s) && Counted(cfg, s) && i < |Candidates(s)| == |inp.candidates|
    requires inp.candidates[i] == ForPolicy(Candidates(s)[i]) && inp.limits.maxAttempts == cfg.maxAttempts
    requires Policy.Verdict(inp, i).action.Launch?
    ensures Fits(cfg, s, Candidates(s)[i])
  {
    var c := Candidates(s)[i];
    assert c in Candidates(s);
    assert TaskOk(s, c.task);
    assert TaskCount(cfg, s, c.task);
    RowIds(s);
    assert !Policy.Capped(inp, inp.candidates[i]);
  }

  lemma {:induction false} TicketIndex(cs: seq<Candidate>, ds: seq<Policy.Decision>, c: Candidate) returns (i: nat)
    requires |cs| == |ds| && ToLaunch(c) in LaunchTickets(cs, ds)
    ensures i < |cs| && cs[i] == c && ds[i].action.Launch?
  {
    var n := |cs| - 1;
    if ds[n].action.Launch? && cs[n] == c {
      i := n;
    } else {
      i := TicketIndex(cs[..n], ds[..n], c);
    }
  }

  lemma {:induction false} NoLaunchAmongOthers(cs: seq<Candidate>, ds: seq<Policy.Decision>, c: Candidate)
    requires |cs| == |ds|
    ensures ToLaunch(c) !in FailTickets(cs, ds)
  {
    if cs != [] {
      NoLaunchAmongOthers(cs[..|cs| - 1], ds[..|cs| - 1], c);
    }
  }

  lemma PlannedFits(cfg: Config, s: State, e: Reading, running: seq<nat>, c: Candidate)
    requires Core(s) && Counted(cfg, s) && ToLaunch(c) in PassTickets(cfg, s, e, running)
    ensures Fits(cfg, s, c)
  {
    var cs := Candidates(s);
    var inp := InputFor(cfg, s, e, running, {});
    var ds := Verdicts(inp);
    NoLaunchAmongOthers(cs, ds, c);
    assert ToLaunch(c) in LaunchTickets(cs, ds);
    var i := TicketIndex(cs, ds, c);
    LaunchableFits(cfg, s, inp, i);
  }

  /** Steps that write no row but hand candidates on, or plan new ones that fit. */
  lemma PlanningKeepsCount(cfg: Config, s: State, s': State)
    requires Core(s) && Counted(cfg, s) && s'.tasks == s.tasks && s'.nextTask == s.nextTask && s'.runs == s.runs
    requires s'.inflight == s.inflight
    requires forall c :: Holds(s', c) ==> Holds(s, c) || Fits(cfg, s, c)
    ensures Counted(cfg, s')
  {
    forall t | t in s'.tasks
      ensures TaskCount(cfg, s', t)
    {
      assert TaskCount(cfg, s, t);
    }
    forall c | Holds(s', c)
      ensures Fits(cfg, s', c)
    {
      assert Fits(cfg, s, c);
    }
    forall t | t in s'.inflight
      ensures FreshStart(s', t)
    {
      assert FreshStart(s, t);
    }
  }

  lemma PlanPassKeepsCount(cfg: Config, s: State, e: Reading, running: seq<nat>)
    requires Core(s) && Counted(cfg, s)
    ensures Counted(cfg, DoPlanPass(cfg, s, e, running))
  {
    var s' := DoPlanPass(cfg, s, e, running);
    if s.todo == [] && Lists(running, s.inflight.Keys) {
      forall c | Holds(s', c)
        ensures Holds(s, c) || Fits(cfg, s, c)
      {
        if ToLaunch(c) in s'.todo {
          PlannedFits(cfg, s, e, running, c);
        }
      }
      PlanningKeepsCount(cfg, s, s');
    }
  }

  lemma RunNowKeepsCount(cfg: Config, s: State, t: nat, f: bool, e: Reading, running: seq<nat>)
    requires Core(s) && Counted(cfg, s)
    ensures Counted(cfg, DoRunNow(cfg, s, t, f, e, running))
  {
    var s' := DoRunNow(cfg, s, t, f, e, running);
    var m := ManualCandidate(cfg, s, t, f, e, running);
    if m.Some? {
      var inp := InputFor(cfg, s, e, running, {t});
      var k := DecisionFor(Verdicts(inp), t);
      LaunchableFits(cfg, s, inp, k);
      PlanningKeepsCount(cfg, s, s');
    }
  }

  lemma PerformKeepsCount(cfg: Config, s: State)
    requires AttemptsLeft(cfg) && Core(s) && s.booted && Counted(cfg, s) && s.todo != []
    ensures Counted(cfg, DoPerformNext(s))
  {
    var s1 := s.(todo := s.todo[1..]);
    assert s.todo == [s.todo[0]] + s1.todo;
    PlanningKeepsCount(cfg, s, s1);
    WriteQueues(s, s1.todo, s.byHand) by {
      assert forall k :: k in s1.todo ==> k in s.todo;
    }
    match s.todo[0]
    case ToFail(t) => FailKeepsCount(cfg, s1, t);
    case ToSuspend(t) =>
      assert forall c :: Holds(CancelLive(s1, t, SuspendCause), c) ==> Holds(s1, c);
      IdleKeepsCount(cfg, s1, CancelLive(s1, t, SuspendCause));
    case ToLaunch(c) =>
      assert Holds(s, c) && Fits(cfg, s, c);
      LaunchKeepsCount(cfg, s1, c, false);
  }

  lemma FailKeepsCount(cfg: Config, s: State, t: nat)
    requires Core(s) && Counted(cfg, s)
    ensures Counted(cfg, SetStatus(s, t, Failed))
  {
    if t in s.tasks {
      assert TaskCount(cfg, s, t);
      OneTaskKeepsCount(cfg, s, SetStatus(s, t, Failed), t);
    }
  }

  lemma LaunchKeepsCount(cfg: Config, s: State, c: Candidate, manual: bool)
    requires Counted(cfg, s) && Fits(cfg, s, c)
    ensures Counted(cfg, Launch(s, c, manual))
  {
    if c.task !in s.inflight {
      var s' := Launch(s, c, manual);
      forall t | t in s'.tasks
        ensures TaskCount(cfg, s', t)
      {
        assert TaskCount(cfg, s, t);
      }
      forall d | Holds(s', d)
        ensures Fits(cfg, s', d)
      {
        assert Holds(s, d) || d == c;
      }
      forall t | t in s'.inflight
        ensures FreshStart(s', t)
      {
        if t in s.inflight {
          assert FreshStart(s, t);
        }
      }
    }
  }

  lemma ByHandKeepsCount(cfg: Config, s: State, k: nat)
    requires Core(s) && Counted(cfg, s) && k < |s.byHand|
    ensures Counted(cfg, DoLaunchByHand(s, k))
  {
    var s1 := s.(byHand := s.byHand[..k] + s.byHand[k + 1..]);
    assert s.byHand == s.byHand[..k] + [s.byHand[k]] + s.byHand[k + 1..];
    PlanningKeepsCount(cfg, s, s1);
    assert Holds(s, s.byHand[k]) && Fits(cfg, s, s.byHand[k]);
    LaunchKeepsCount(cfg, s1, s.byHand[k], true);
  }

  predicate QueuesNothing(s: State, s': State) {
    && s' == s.(tasks := s'.tasks, runs := s'.runs) && SameNumbers(s, s') && s'.tasks.Keys == s.tasks.Keys
    && forall t :: t in s.tasks ==>
         && s'.tasks[t].attemptReset == s.tasks[t].attemptReset
         && (s'.tasks[t].status.Queued? ==> s.tasks[t].status.Queued?)
  }

  lemma BuryOneQueuesNothing(s: State, k: nat)
    requires 1 <= k <= |s.runs|
    ensures var r := s.runs[k - 1];
      QueuesNothing(s, SetStatus(FinishRun(s, k, Errored), r.task, TaskStatusAfterInterruption(r.session != "")))
  {
  }

  lemma {:induction false} BurialQueuesNothing(s: State, k: nat)
    requires k <= |s.runs|
    ensures QueuesNothing(s, BuryOrphans(s, k))
    decreases k
  {
    if k > 0 {
      var r := s.runs[k - 1];
      BuryOneQueuesNothing(s, k);
      var s2 := if Orphan(s, k - 1)
        then SetStatus(FinishRun(s, k, Errored), r.task, TaskStatusAfterInterruption(r.session != "")) else s;
      BurialQueuesNothing(s2, k - 1);
    }
  }

  lemma ReconcileKeepsCount(cfg: Config, s: State)
    requires Core(s) && Counted(cfg, s)
    ensures Counted(cfg, DoReconcile(s))
  {
    var s' := DoReconcile(s);
    BurialQueuesNothing(s, |s.runs|);
    forall u | u in s'.tasks
      ensures TaskAdvances(cfg, s, s', u)
    {
      assert TaskCount(cfg, s, u);
    }
    assert forall c :: Holds(s', c) ==> Holds(s, c);
    forall t | t in s'.inflight
      ensures t in s.inflight && s'.inflight[t].phase == s.inflight[t].phase
    {
    }
    CountFrame(cfg, s, s');
  }

  lemma ShutdownKeepsCount(cfg: Config, s: State)
    requires Core(s) && Counted(cfg, s)
    ensures Counted(cfg, DoShutdown(s))
  {
    var s' := DoShutdown(s);
    assert forall c :: Holds(s', c) ==> Holds(s, c);
    IdleKeepsCount(cfg, s, s');
  }

  lemma CrashKeepsCount(cfg: Config, s: State)
    requires Core(s) && Counted(cfg, s)
    ensures Counted(cfg, DoCrash(s))
  {
    var s' := DoCrash(s);
    assert forall c :: Holds(s', c) ==> Holds(s, c);
    IdleKeepsCount(cfg, s, s');
  }

  lemma SchedulerStepKeepsCount(cfg: Config, s: State, step: Step)
    requires AttemptsLeft(cfg) && Core(s) && Counted(cfg, s) && SchedulerStep(step)
    requires s.booted || step.Reconcile? || step.Crash?
    ensures Counted(cfg, SchedulerNext(cfg, s, step))
  {
    match step
    case PlanPass(e, running) => PlanPassKeepsCount(cfg, s, e, running);
    case PerformNext => if s.todo != [] { PerformKeepsCount(cfg, s); }
    case RunNow(t, f, e, running) => RunNowKeepsCount(cfg, s, t, f, e, running);
    case LaunchByHand(k) => if k < |s.byHand| { ByHandKeepsCount(cfg, s, k); }
    case Reconcile => ReconcileKeepsCount(cfg, s);
    case Shutdown => ShutdownKeepsCount(cfg, s);
    case Crash => CrashKeepsCount(cfg, s);
  }

  // ---------------------------------------------------------------- run goroutines

  /** Inserting a run of `t`, whose goroutine thereby leaves the launched phase. */
  predicate Inserting(cfg: Config, s: State, s': State, t: nat, row: Run) {
    && t in s.tasks && t in s'.tasks && IsLaunched(s, t) && row.id == |s.runs| + 1 && row.task == t
    && s' == s.(runs := s.runs + [row], tasks := s.tasks[t := s'.tasks[t]], inflight := s'.inflight)
    && s'.tasks[t].attemptReset == s.tasks[t].attemptReset
    && (s'.tasks[t].status.Queued? ==> row.attempt < cfg.maxAttempts)
    && t in s'.inflight && s'.inflight == s.inflight[t := s'.inflight[t]] && !s'.inflight[t].phase.Launched?
    && FreshStart(s', t)
  }

  lemma InsertingKeepsTask(cfg: Config, s: State, s': State, t: nat, row: Run, u: nat)
    requires Inserting(cfg, s, s', t, row) && u in s.tasks && TaskCount(cfg, s, u)
    ensures TaskCount(cfg, s', u)
  {
    NewestPush(s.runs, row);
  }

  lemma InsertingKeepsCount(cfg: Config, s: State, s': State, t: nat, row: Run)
    requires Counted(cfg, s) && Inserting(cfg, s, s', t, row)
    ensures Counted(cfg, s')
  {
    forall u | u in s'.tasks
      ensures TaskCount(cfg, s', u)
    {
      InsertingKeepsTask(cfg, s, s', t, row, u);
    }
    forall c | Holds(s', c)
      ensures Fits(cfg, s', c)
    {
      assert Holds(s, c);
    }
    forall u | u in s'.inflight
      ensures FreshStart(s', u)
    {
      if u != t {
        assert FreshStart(s, u);
      }
    }
  }

  lemma BeginInserts(cfg: Config, s: State, t: nat, fails: bool)
    requires AttemptsLeft(cfg) && Core(s) && IsLaunched(s, t) && t in s.tasks
    ensures var s' := DoBegin(cfg, s, t, fails);
      |s'.runs| == |s.runs| + 1 && Inserting(cfg, s, s', t, s'.runs[|s.runs|])
  {
    assert LiveOk(s, t);
  }

  lemma BeginKeepsCount(cfg: Config, s: State, t: nat, fails: bool)
    requires AttemptsLeft(cfg) && Core(s) && s.booted && Counted(cfg, s)
    ensures Counted(cfg, DoBegin(cfg, s, t, fails))
  {
    var s' := DoBegin(cfg, s, t, fails);
    if IsLaunched(s, t) {
      if t in s.tasks {
        BeginInserts(cfg, s, t, fails);
        InsertingKeepsCount(cfg, s, s', t, s'.runs[|s.runs|]);
      } else {
        assert forall c :: Holds(s', c) ==> Holds(s, c);
        IdleKeepsCount(cfg, s, s');
      }
    }
  }

  /** Steps of a goroutine at work: they rewrite its row and its task. */
  lemma WorkingKeepsCount(cfg: Config, s: State, s': State, t: nat)
    requires AttemptsLeft(cfg) && Core(s) && Counted(cfg, s) && IsWorking(s, t) && t in s.tasks && t in s'.tasks
    requires SameNumbers(s, s') && s'.nextTask == s.nextTask && s'.todo == s.todo && s'.byHand == s.byHand
    requires s'.tasks == s.tasks[t := s'.tasks[t]]
    requires s.tasks[t].attemptReset <= s'.tasks[t].attemptReset <= |s.runs|
    requires s'.tasks[t].status.Queued? ==> HasBudget(cfg, s', t)
    requires t in s'.inflight && s'.inflight == s.inflight[t := s'.inflight[t]]
    requires !s'.inflight[t].phase.Launched? && FreshStart(s', t)
    ensures Counted(cfg, s')
  {
    forall u | u in s'.tasks
      ensures TaskAdvances(cfg, s, s', u)
    {
      assert TaskCount(cfg, s, u);
    }
    assert forall c :: Holds(s', c) ==> Holds(s, c);
    CountFrame(cfg, s, s');
  }

  /** An invocation in progress: its task stays as it is, and the run counts as invoked. */
  lemma InvokedKeepsCount(cfg: Config, s: State, s': State, t: nat)
    requires AttemptsLeft(cfg) && Core(s) && Counted(cfg, s) && IsWorking(s, t)
    requires Frames.Minor(s, s', t) && s'.tasks == s.tasks
    requires t in s'.inflight && s'.inflight[t].phase.Working? && s'.inflight[t].phase.invoked
    ensures Counted(cfg, s')
  {
    assert LiveOk(s, t);
    assert RunOk(s, s.inflight[t].phase.run - 1);
    assert TaskCount(cfg, s, t);
    WorkingKeepsCount(cfg, s, s', t);
  }

  lemma InvocationKeepsCount(cfg: Config, s: State, step: Step)
    requires AttemptsLeft(cfg) && Core(s) && s.booted && Counted(cfg, s)
    requires step.Invoke? || step.AutoContinue? || step.SessionSeen? || step.RestartFresh?
    ensures Counted(cfg, GoroutineNext(cfg, s, step))
  {
    var t := step.t;
    var s' := GoroutineNext(cfg, s, step);
    if s' != s {
      if step.Invoke? {
        Frames.InvokeIsMinor(s, t);
      } else if step.AutoContinue? {
        Frames.AutoContinueIsMinor(s, t);
      } else if step.SessionSeen? {
        Frames.SessionSeenIsMinor(s, t, step.id);
      } else {
        Frames.RestartFreshIsMinor(s, t);
      }
      InvokedKeepsCount(cfg, s, s', t);
    }
  }

  lemma ExitKeepsCount(cfg: Config, s: State, t: nat)
    requires Core(s) && Counted(cfg, s)
    ensures Counted(cfg, DoExit(s, t))
  {
    var s' := DoExit(s, t);
    assert forall c :: Holds(s', c) ==> Holds(s, c);
    IdleKeepsCount(cfg, s, s');
  }

  lemma TokenFailureKeepsCount(cfg: Config, s: State, t: nat)
    requires AttemptsLeft(cfg) && Core(s) && s.booted && Counted(cfg, s)
    ensures Counted(cfg, DoTokenFailure(s, t))
  {
    if IsWorking(s, t) && !s.inflight[t].phase.invoked {
      var s' := DoTokenFailure(s, t);
      var r := s.inflight[t].phase.run;
      assert LiveOk(s, t);
      assert RunOk(s, r - 1);
      assert TaskCount(cfg, s, t);
      assert FreshStart(s, t);
      WorkingKeepsCount(cfg, s, s', t);
    }
  }

  lemma ClassifyKeepsCount(cfg: Config, s: State, t: nat, err: InvokeError, waiting: bool, text: bool)
    requires AttemptsLeft(cfg) && Core(s) && s.booted && Counted(cfg, s)
    ensures Counted(cfg, DoClassify(s, t, err, waiting, text))
  {
    if IsWorking(s, t) && s.inflight[t].phase.invoked {
      var l := s.inflight[t];
      var s' := DoClassify(s, t, err, waiting, text);
      assert LiveOk(s, t);
      assert RunOk(s, l.phase.run - 1);
      assert TaskCount(cfg, s, t);
      ClassifyFrame(s, t, err, waiting, text);
      if err.NoError? {
        ClassifySuccessIsClassified(s, t, waiting, text);
      } else {
        ClassifyFailureIsClassified(s, t, err, waiting, text);
      }
      ClassifyResets(s, t, err, waiting, text);
      WorkingKeepsCount(cfg, s, s', t);
    }
  }

  /** A classification that re-queues its task resets it too. */
  lemma ClassifyResets(s: State, t: nat, err: InvokeError, waiting: bool, text: bool)
    requires Core(s) && IsWorking(s, t) && s.inflight[t].phase.invoked && t in s.tasks
    requires s.tasks[t].attemptReset <= |s.runs|
    ensures var s' := DoClassify(s, t, err, waiting, text);
      && t in s'.tasks && s.tasks[t].attemptReset <= s'.tasks[t].attemptReset <= |s.runs|
      && (s'.tasks[t].status.Queued? ==> Spent(s', t) == 0)
  {
    var l := s.inflight[t];
    RowIds(s);
    if err.NoError? {
      SuccessResets(s, t, l.phase, l.cause, waiting, text);
    } else {
      FailureSettles(s, t, l.phase, l.cause, err, waiting, text);
    }
  }

  lemma SuccessResets(s: State, t: nat, p: Phase, cause: Cause, waiting: bool, text: bool)
    requires p.Working? && 1 <= p.run <= |s.runs| && t in s.tasks
    requires s.tasks[t].attemptReset <= |s.runs| && forall i :: 0 <= i < |s.runs| ==> s.runs[i].id == i + 1
    ensures var s' := Settle(s, t, p, cause, NoError, waiting, text);
      && t in s'.tasks && s.tasks[t].attemptReset <= s'.tasks[t].attemptReset <= |s.runs|
      && (s'.tasks[t].status.Queued? ==> Spent(s', t) == 0)
  {
    SuccessSettles(s, t, p, cause, waiting, text);
    var s2 := Delivered(s, t, p, waiting, text);
    if AnsweredMeanwhile(s, p, waiting) {
      RequeueSpends(s2, t, Carried(p) != "");
    }
  }

  lemma GoroutineStepKeepsCount(cfg: Config, s: State, step: Step)
    requires AttemptsLeft(cfg) && Core(s) && s.booted && Counted(cfg, s) && GoroutineStep(step)
    ensures Counted(cfg, GoroutineNext(cfg, s, step))
  {
    if step.Begin? {
      BeginKeepsCount(cfg, s, step.t, step.preflightFails);
    } else if step.TokenFailure? {
      TokenFailureKeepsCount(cfg, s, step.t);
    } else if step.Classify? {
      ClassifyKeepsCount(cfg, s, step.t, step.err, step.waiting, step.text);
    } else if step.Exit? {
      ExitKeepsCount(cfg, s, step.t);
    } else {
      InvocationKeepsCount(cfg, s, step);
    }
  }

  lemma StepKeepsCount(cfg: Config, s: State, step: Step)
    requires AttemptsLeft(cfg) && Core(s) && Counted(cfg, s)
    ensures Counted(cfg, Next(cfg, s, step))
  {
    if step.Reconcile? || step.Crash? {
      SchedulerStepKeepsCount(cfg, s, step);
    } else if s.booted {
      if SchedulerStep(step) {
        SchedulerStepKeepsCount(cfg, s, step);
      } else if GoroutineStep(step) {
        GoroutineStepKeepsCount(cfg, s, step);
      } else if RequestStep(step) {
        RequestStepKeepsCount(cfg, s, step);
      } else {
        UserStepKeepsCount(cfg, s, step);
      }
    }
  }

  lemma {:induction false} CountAlways(cfg: Config, steps: seq<Step>)
    requires AttemptsLeft(cfg)
    ensures Counted(cfg, After(cfg, steps))
  {
    if steps != [] {
      var front := steps[..|steps| - 1];
      CountAlways(cfg, front);
      CoreAlways(cfg, front);
      StepKeepsCount(cfg, After(cfg, front), steps[|steps| - 1]);
    }
  }
}
