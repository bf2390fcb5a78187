/** The worker cap holds whatever happens between planning and launching.

    A pass plans no more launches than workers are free, and only then; until it has been
    carried out no other pass is planned. So what the scheduler has launched and not finished,
    plus what it still owes from its plan, never exceeds the cap: completions only free
    workers, suspensions and cancellations free none before the goroutine ends, and a manual
    launch takes a task the plan can then no longer launch. Manual launches come on top, and
    are the only ones that do. */
module WorkerCap {
  import opened Domain
  import opened Lifecycle
  import opened Safety
  import opened SafetyRuns
  import Frames
  import Policy
  import PolicyLaws

  function Scheduled(s: State): set<nat> {
    set t | t in s.inflight && !s.inflight[t].manual
  }

  function Manual(s: State): set<nat> {
    set t | t in s.inflight && s.inflight[t].manual
  }

  /** Launches the current pass still has to make. */
  function Owed(todo: seq<Ticket>): nat {
    if todo == [] then 0 else (if todo[0].ToLaunch? then 1 else 0) + Owed(todo[1..])
  }

  predicate Capped(cfg: Config, s: State) {
    |Scheduled(s)| + Owed(s.todo) <= PolicyLaws.Max0(cfg.workers)
  }

  // ---------------------------------------------------------------- a pass owes no more than is free

  lemma {:induction false} OwedAppend(a: seq<Ticket>, b: seq<Ticket>)
    ensures Owed(a + b) == Owed(a) + Owed(b)
  {
    if a == [] {
      assert a + b == b;
    } else {
      assert (a + b)[1..] == a[1..] + b;
      OwedAppend(a[1..], b);
    }
  }

  lemma {:induction false} OwedByLaunches(cs: seq<Candidate>, ds: seq<Policy.Decision>)
    requires |cs| == |ds|
    ensures Owed(LaunchTickets(cs, ds)) == |Policy.WithAction(ds, Policy.Launch)|
    ensures Owed(FailTickets(cs, ds)) == 0
  {
    if cs != [] {
      var n := |cs| - 1;
      OwedByLaunches(cs[..n], ds[..n]);
      OwedAppend(LaunchTickets(cs[..n], ds[..n]), if ds[n].action.Launch? then [ToLaunch(cs[n])] else []);
      OwedAppend(FailTickets(cs[..n], ds[..n]), if ds[n].action.Fail? then [ToFail(cs[n].task)] else []);
    }
  }

  lemma {:induction false} SuspensionsOweNothing(todo: seq<Ticket>)
    requires forall i :: 0 <= i < |todo| ==> todo[i].ToSuspend?
    ensures Owed(todo) == 0
  {
    if todo != [] {
      SuspensionsOweNothing(todo[1..]);
    }
  }

  lemma {:induction false} DistinctCount(xs: seq<nat>, keys: set<nat>)
    requires Lists(xs, keys)
    ensures |xs| == |keys|
  {
    if xs == [] {
      assert keys == {};
    } else {
      var n := |xs| - 1;
      assert xs[n] in keys;
      forall k | k in keys - {xs[n]}
        ensures k in xs[..n]
      {
        var i :| 0 <= i < |xs| && xs[i] == k;
        assert xs[..n][i] == k;
      }
      DistinctCount(xs[..n], keys - {xs[n]});
    }
  }

  lemma PassOwes(cfg: Config, s: State, e: Reading, running: seq<nat>)
    requires Lists(running, s.inflight.Keys)
    ensures Owed(PassTickets(cfg, s, e, running)) <= PolicyLaws.Max0(cfg.workers - |s.inflight|)
  {
    var cs := Candidates(s);
    var inp := InputFor(cfg, s, e, running, {});
    var ds := Verdicts(inp);
    OwedByLaunches(cs, ds);
    SuspensionsOweNothing(Suspensions(inp));
    OwedAppend(Suspensions(inp) + FailTickets(cs, ds), LaunchTickets(cs, ds));
    OwedAppend(Suspensions(inp), FailTickets(cs, ds));
    PolicyLaws.UnforcedLaunchesFit(inp, ds);
    DistinctCount(running, s.inflight.Keys);
  }

  lemma Partition(s: State)
    ensures |s.inflight| == |Scheduled(s)| + |Manual(s)|
  {
    assert s.inflight.Keys == Scheduled(s) + Manual(s);
    assert Scheduled(s) !! Manual(s);
    assert |s.inflight| == |s.inflight.Keys|;
  }

  // ---------------------------------------------------------------- every step keeps the cap

  lemma LaunchAddsOne(s: State, c: Candidate, manual: bool)
    ensures |Scheduled(Launch(s, c, manual))| <= |Scheduled(s)| + (if manual then 0 else 1)
  {
    var s' := Launch(s, c, manual);
    Fewer(Scheduled(s'), Scheduled(s) + (if manual then {} else {c.task}));
  }

  lemma PerformKeepsCap(cfg: Config, s: State)
    requires Capped(cfg, s) && s.todo != []
    ensures Capped(cfg, DoPerformNext(s))
  {
    var s1 := s.(todo := s.todo[1..]);
    var s' := DoPerformNext(s);
    assert Scheduled(s1) == Scheduled(s);
    match s.todo[0]
    case ToLaunch(c) => LaunchAddsOne(s1, c, false);
    case ToSuspend(t) => assert Scheduled(s') == Scheduled(s);
    case ToFail(t) => assert Scheduled(s') == Scheduled(s);
  }

  lemma PlanKeepsCap(cfg: Config, s: State, e: Reading, running: seq<nat>)
    requires Capped(cfg, s)
    ensures Capped(cfg, DoPlanPass(cfg, s, e, running))
  {
    if s.todo == [] && Lists(running, s.inflight.Keys) {
      PassOwes(cfg, s, e, running);
      Partition(s);
      assert Scheduled(DoPlanPass(cfg, s, e, running)) == Scheduled(s);
    }
  }

  lemma ByHandKeepsCap(cfg: Config, s: State, k: nat)
    requires Capped(cfg, s)
    ensures Capped(cfg, DoLaunchByHand(s, k))
  {
    if k < |s.byHand| {
      var s1 := s.(byHand := s.byHand[..k] + s.byHand[k + 1..]);
      assert Scheduled(s1) == Scheduled(s);
      LaunchAddsOne(s1, s.byHand[k], true);
    }
  }

  /** No other step adds a goroutine or a ticket. */
  predicate NoneAdded(s: State, s': State) {
    && (s'.todo == s.todo || s'.todo == [])
    && forall t :: t in s'.inflight ==> t in s.inflight && s'.inflight[t].manual == s.inflight[t].manual
  }

  lemma NoneAddedKeepsCap(cfg: Config, s: State, s': State)
    requires Capped(cfg, s) && NoneAdded(s, s')
    ensures Capped(cfg, s')
  {
    Fewer(Scheduled(s'), Scheduled(s));
  }

  lemma {:induction false} BurialAddsNone(s: State, k: nat)
    requires k <= |s.runs|
    ensures BuryOrphans(s, k).inflight == s.inflight && BuryOrphans(s, k).todo == s.todo
    decreases k
  {
    if k > 0 {
      var r := s.runs[k - 1];
      BurialAddsNone(
        if Orphan(s, k - 1)
        then SetStatus(FinishRun(s, k, Errored), r.task, TaskStatusAfterInterruption(r.session != "")) else s,
        k - 1);
    }
  }

  lemma MinorAddsNone(s: State, s': State, t: nat)
    requires Frames.Minor(s, s', t)
    ensures NoneAdded(s, s')
  {
  }

  lemma BeginAddsNone(cfg: Config, s: State, t: nat, fails: bool)
    ensures NoneAdded(s, DoBegin(cfg, s, t, fails))
  {
  }

  lemma CancelAddsNone(s: State, r: nat)
    ensures NoneAdded(s, DoCancelRun(s, r))
  {
  }

  lemma GoroutineKeepsCap(cfg: Config, s: State, step: Step)
    requires Capped(cfg, s) && s.booted && GoroutineStep(step)
    ensures Capped(cfg, Next(cfg, s, step))
  {
    if step.Begin? {
      BeginAddsNone(cfg, s, step.t, step.preflightFails);
    } else if step.Classify? {
      ClassifyAddsNone(s, step.t, step.err, step.waiting, step.text);
    } else {
      Frames.MinorSteps(cfg, s, step);
      MinorAddsNone(s, Next(cfg, s, step), step.t);
    }
    NoneAddedKeepsCap(cfg, s, Next(cfg, s, step));
  }

  lemma UserAddsNone(s: State, step: Step)
    requires !GoroutineStep(step) && !SchedulerStep(step) && !RequestStep(step)
    ensures NoneAdded(s, UserNext(s, step))
  {
    match step
    case CreateTask(b, a) =>
    case UpdateTask(t, a) => Frames.UpdateEdits(s, t, a);
    case DeleteTask(t) => Frames.DeleteFrame(s, t);
    case ReorderTasks(o) =>
    case PauseTask(t) => Frames.PauseEdits(s, t);
    case ResumeTask(t) => Frames.ResumeEdits(s, t);
    case CompleteTask(t) => Frames.RetireRetires(s, t, Done);
    case DismissTask(t) => Frames.RetireRetires(s, t, Dismissed);
    case MoveTask(t, to) =>
      if to.Done? || to.Dismissed? {
        Frames.MoveRetires(s, t, to);
      } else {
        Frames.MoveEdits(s, t, to);
      }
    case AddComment(t) => Frames.AddCommentComments(s, t);
    case CancelRun(r) => CancelAddsNone(s, r);
  }

  lemma RequestAddsNone(s: State, step: Step)
    requires RequestStep(step)
    ensures NoneAdded(s, RequestNext(s, step))
  {
    if step.Respond? && IsPending(s, step.q) {
      Frames.RespondResponds(s, step.q);
    }
  }

  lemma SchedulerKeepsCap(cfg: Config, s: State, step: Step)
    requires Capped(cfg, s) && SchedulerStep(step)
    ensures Capped(cfg, SchedulerNext(cfg, s, step))
  {
    match step
    case PlanPass(e, running) => PlanKeepsCap(cfg, s, e, running);
    case PerformNext => if s.todo != [] { PerformKeepsCap(cfg, s); }
    case RunNow(t, f, e, running) =>
      NoneAddedKeepsCap(cfg, s, DoRunNow(cfg, s, t, f, e, running));
    case LaunchByHand(k) => ByHandKeepsCap(cfg, s, k);
    case Reconcile =>
      BurialAddsNone(s, |s.runs|);
      NoneAddedKeepsCap(cfg, s, DoReconcile(s));
    case Shutdown => NoneAddedKeepsCap(cfg, s, DoShutdown(s));
    case Crash => NoneAddedKeepsCap(cfg, s, DoCrash(s));
  }

  lemma StepKeepsCap(cfg: Config, s: State, step: Step)
    requires Capped(cfg, s)
    ensures Capped(cfg, Next(cfg, s, step))
  {
    if SchedulerStep(step) {
      SchedulerKeepsCap(cfg, s, step);
    } else if s.booted {
      if GoroutineStep(step) {
        GoroutineKeepsCap(cfg, s, step);
      } else if RequestStep(step) {
        RequestAddsNone(s, step);
        NoneAddedKeepsCap(cfg, s, RequestNext(s, step));
      } else {
        UserAddsNone(s, step);
        NoneAddedKeepsCap(cfg, s, UserNext(s, step));
      }
    }
  }

  lemma ClassifyAddsNone(s: State, t: nat, err: InvokeError, waiting: bool, text: bool)
    ensures NoneAdded(s, DoClassify(s, t, err, waiting, text))
  {
    ClassifyFrame(s, t, err, waiting, text);
  }

  lemma {:induction false} CapAlways(cfg: Config, steps: seq<Step>)
    ensures Capped(cfg, After(cfg, steps))
  {
    if steps == [] {
      assert Scheduled(Initial) == {};
    } else {
      CapAlways(cfg, steps[..|steps| - 1]);
      StepKeepsCap(cfg, After(cfg, steps[..|steps| - 1]), steps[|steps| - 1]);
    }
  }

  /** In every reachable state the runs the scheduler started fit the pool, and all runs
      together exceed it by no more than the manual ones. One task never has two runs: the
      inflight map has one entry a task. */
  lemma WorkersNeverExceeded(cfg: Config, steps: seq<Step>)
    ensures |Scheduled(After(cfg, steps))| <= PolicyLaws.Max0(cfg.workers)
    ensures |After(cfg, steps).inflight| <= PolicyLaws.Max0(cfg.workers) + |Manual(After(cfg, steps))|
  {
    CapAlways(cfg, steps);
    Partition(After(cfg, steps));
  }
}
