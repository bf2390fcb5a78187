/** Short histories from the empty database, for the theorems whose assumptions are needed.

    All of them are about one task in agent mode, launched by hand or by a pass. Each lemma
    takes the steps that lead to a state, adds one or two of its own, and says which state
    these lead to; the state is written out in full, as a change to the empty database. A
    history is then put together by handing the steps from lemma to lemma. `Ready` is the
    state in which the scheduler has the one task as its only candidate: queued, or resumable
    with an attempt left. Quota is never the point here, so every pass and every manual launch
    sees the same reading, `OPEN`, under which the gate is open. */
module Histories {
  import opened Domain
  import opened Lifecycle
  import Policy

  const OPEN := Reading(0, Some(Policy.Snapshot(0, 0.0, None, 0.0)), 1.0, 1.0, 10, 0, None)

  function Only(st: TaskStatus): map<nat, Task> { map[1 := Task(st, 0, true)] }

  function Planned(newest: nat): Candidate { Candidate(1, None, 0, true, newest) }

  function Queue(st: TaskStatus, runs: seq<Run>): State {
    Initial.(tasks := Only(st), order := [1], nextTask := 2, runs := runs, booted := true)
  }

  /** The first run of the task, before or after the CLI has started. */
  function FirstRun(st: RunStatus): Run { Run(1, 1, "", st, 1, {}, 1) }

  function AtWork(invoked: bool): State {
    Queue(TaskStatus.Running, [FirstRun(if invoked then Executing else Starting)]).(
      inflight := map[1 := Live(true, NoCause, Working(1, "", "", invoked, true))])
  }

  lemma Then(cfg: Config, p: seq<Step>, x: Step, s: State)
    requires s == After(cfg, p)
    ensures After(cfg, p + [x]) == Next(cfg, s, x)
    ensures Undisturbed(cfg, p) && !Overtaken(s, x) ==> Undisturbed(cfg, p + [x])
  {
    PathLast(cfg, Initial, p, x, s);
    if Undisturbed(cfg, p) && !Overtaken(s, x) {
      UndisturbedPush(cfg, p, x);
    }
  }

  /** What the scheduler would launch: the task from scratch, or from its newest session. */
  function TheCandidate(s: State): Candidate
    requires 1 in s.tasks
  {
    if s.tasks[1].status.Queued? then QueuedCandidate(s, 1) else ResumeCandidate(s, 1)
  }

  /** The one task is queued, or resumable with an attempt left. */
  predicate Ready(cfg: Config, s: State) {
    && s.booted && s.order == [1] && s.inflight == map[] && 1 in s.tasks
    && (s.tasks[1].status.Queued?
        || (Offered(s, 1) && EffectiveAttempt(s.tasks[1].attemptReset, LatestRun(s.runs, 1)) < cfg.maxAttempts))
  }

  lemma OneCandidate(cfg: Config, s: State)
    requires Ready(cfg, s)
    ensures Candidates(s) == [TheCandidate(s)]
  {
    assert s.order[..0] == [];
    assert Resumables(s, []) == [] && QueuedTasks(s, []) == [];
    if s.tasks[1].status.Queued? {
      assert Resumables(s, [1]) == [] && QueuedTasks(s, [1]) == [QueuedCandidate(s, 1)];
    } else {
      assert Resumables(s, [1]) == [ResumeCandidate(s, 1)] && QueuedTasks(s, [1]) == [];
    }
  }

  /** The policy launches it, by hand or with a worker free. */
  lemma Launches(cfg: Config, s: State, force: set<nat>)
    requires Ready(cfg, s) && (force == {1} || (force == {} && cfg.workers > 0))
    ensures var ds := Verdicts(InputFor(cfg, s, OPEN, [], force));
      |ds| == 1 && ds[0].task == 1 && ds[0].action.Launch?
  {
    OneCandidate(cfg, s);
    var inp := InputFor(cfg, s, OPEN, [], force);
    assert inp.candidates == [ForPolicy(TheCandidate(s))];
    assert Verdicts(inp)[0] == Policy.Verdict(inp, 0);
  }

  lemma ChooseIt(cfg: Config, s: State)
    requires Ready(cfg, s)
    ensures ManualCandidate(cfg, s, 1, true, OPEN, []) == Some(TheCandidate(s))
  {
    OneCandidate(cfg, s);
    Launches(cfg, s, {1});
    assert DecisionFor(Verdicts(InputFor(cfg, s, OPEN, [], {1})), 1) == 0;
  }

  lemma RunIt(cfg: Config, s: State)
    requires Ready(cfg, s) && s.byHand == []
    ensures Next(cfg, s, RunNow(1, true, OPEN, [])) == s.(byHand := [TheCandidate(s)])
  {
    ChooseIt(cfg, s);
    assert DoRunNow(cfg, s, 1, true, OPEN, []) == s.(byHand := s.byHand + [TheCandidate(s)]);
  }

  lemma TakeIt(cfg: Config, s: State, c: Candidate)
    requires s.booted && s.byHand == [c] && s.inflight == map[] && c.task == 1
    ensures Next(cfg, s, LaunchByHand(0)) == WithLaunch(s.(byHand := []), c, true)
  {
    assert s.byHand[..0] + s.byHand[1..] == [];
  }

  /** A pass plans the task. */
  lemma PlanIt(cfg: Config, p: seq<Step>, s: State) returns (p': seq<Step>)
    requires s == After(cfg, p) && Ready(cfg, s) && s.todo == [] && cfg.workers > 0
    ensures After(cfg, p') == s.(todo := [ToLaunch(TheCandidate(s))])
  {
    OneCandidate(cfg, s);
    Launches(cfg, s, {});
    var cs := Candidates(s);
    var ds := Verdicts(InputFor(cfg, s, OPEN, [], {}));
    assert cs[..0] == [] && ds[..0] == [];
    assert LaunchTickets(cs, ds) == LaunchTickets([], []) + [ToLaunch(cs[0])];
    assert FailTickets(cs, ds) == FailTickets([], []) + [];
    Then(cfg, p, PlanPass(OPEN, []), s);
    p' := p + [PlanPass(OPEN, [])];
  }

  function WithLaunch(s: State, c: Candidate, manual: bool): State {
    s.(inflight := map[1 := Live(manual, NoCause, Launched(c))])
  }

  /** The task is launched by hand. */
  lemma LaunchIt(cfg: Config, p: seq<Step>, s: State) returns (p': seq<Step>)
    requires s == After(cfg, p) && Ready(cfg, s) && s.byHand == []
    ensures After(cfg, p') == WithLaunch(s, TheCandidate(s), true)
    ensures Undisturbed(cfg, p) ==> Undisturbed(cfg, p')
  {
    var c := TheCandidate(s);
    RunIt(cfg, s);
    TakeIt(cfg, s.(byHand := [c]), c);
    Then(cfg, p, RunNow(1, true, OPEN, []), s);
    p' := p + [RunNow(1, true, OPEN, [])];
    Then(cfg, p', LaunchByHand(0), s.(byHand := [c]));
    p' := p' + [LaunchByHand(0)];
  }

  /** The daemon boots and a task is queued. */
  lemma Boot(cfg: Config) returns (p: seq<Step>)
    ensures After(cfg, p) == Queue(Queued, []) && Undisturbed(cfg, p)
  {
    BootSteps(cfg);
    p := [];
    Then(cfg, p, Reconcile, Initial);
    p := p + [Reconcile];
    Then(cfg, p, CreateTask(false, true), Initial.(booted := true));
    p := p + [CreateTask(false, true)];
  }

  lemma BootSteps(cfg: Config)
    ensures Next(cfg, Initial, Reconcile) == Initial.(booted := true)
    ensures Next(cfg, Initial.(booted := true), CreateTask(false, true)) == Queue(Queued, [])
  {
  }

  /** Its first run starts, and then the CLI. */
  lemma Start(cfg: Config) returns (p: seq<Step>)
    ensures After(cfg, p) == AtWork(false) && Undisturbed(cfg, p)
  {
    p := Boot(cfg);
    p := LaunchIt(cfg, p, Queue(Queued, []));
    BeginFirst(cfg);
    Then(cfg, p, Begin(1, false), WithLaunch(Queue(Queued, []), Planned(0), true));
    p := p + [Begin(1, false)];
  }

  lemma BeginFirst(cfg: Config)
    ensures Next(cfg, WithLaunch(Queue(Queued, []), Planned(0), true), Begin(1, false)) == AtWork(false)
  {
    assert FollowUps(WithLaunch(Queue(Queued, []), Planned(0), true), 1) == {};
  }

  lemma StartAndInvoke(cfg: Config) returns (p: seq<Step>)
    ensures After(cfg, p) == AtWork(true)
  {
    p := Start(cfg);
    Then(cfg, p, Invoke(1), AtWork(false));
    p := p + [Invoke(1)];
  }

  // ---------------------------------------------------------------- a task that ever ran stays

  /** Deleting a task succeeds exactly when it is not busy and never ran: its run rows refer to
      it. */
  lemma DeletedIff(cfg: Config, s: State, t: nat)
    requires s.booted && t in s.tasks
    ensures t !in Next(cfg, s, DeleteTask(t)).tasks <==> !Busy(s, t) && Newest(s.runs, t) == 0
  {
  }

  /** So a task whose run is over and done with cannot be deleted. */
  lemma RanTaskStays(cfg: Config)
    ensures exists steps :: var s := After(cfg, steps);
      && 1 in s.tasks && s.tasks[1].status.PrCreated? && !Busy(s, 1)
      && 1 in Next(cfg, s, DeleteTask(1)).tasks
  {
    var p := StartAndInvoke(cfg);
    var s := Queue(PrCreated, [FirstRun(Succeeded)]);
    EndSteps(cfg);
    Then(cfg, p, Classify(1, NoError, false, false), AtWork(true));
    p := p + [Classify(1, NoError, false, false)];
    Then(cfg, p, Exit(1), s.(inflight := map[1 := Live(true, NoCause, Returned)]));
    p := p + [Exit(1)];
    assert Newest(s.runs, 1) == 1;
    DeletedIff(cfg, s, 1);
  }

  lemma EndSteps(cfg: Config)
    ensures var s := Queue(PrCreated, [FirstRun(Succeeded)]);
      var s1 := s.(inflight := map[1 := Live(true, NoCause, Returned)]);
      Next(cfg, AtWork(true), Classify(1, NoError, false, false)) == s1 && Next(cfg, s1, Exit(1)) == s
  {
  }
}
