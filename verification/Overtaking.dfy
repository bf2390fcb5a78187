/** Why the attempt bound needs launches not to be overtaken, and more than one attempt.

    With max_attempts 2, a pass plans a queued task, the user launches it by hand twice before
    the pass gets to it, both launches fail their pre-flight, and the pass's own launch then
    fails as attempt 3. With max_attempts 1, a fresh run whose token cannot be fetched goes
    back in the queue with its attempt spent. And a resume that was planned before a manual
    launch failed runs under a number the task has used already, so it costs nothing. Each is
    a history from the empty database. */
module Overtaking {
  import opened Domain
  import opened Lifecycle
  import opened Attempts
  import opened Retries
  import opened Histories
  import Policy

  const CFG := Config(2, 1)

  function Failure(n: nat): Run { Run(n, 1, "", Errored, n, {}, 1) }

  /** The state after one more pre-flight failure. */
  function FailedOnce(cfg: Config, s: State): State
    requires 1 in s.tasks
  {
    var n := PreflightAttempt(s, 1);
    s.(runs := s.runs + [Run(|s.runs| + 1, 1, "", Errored, n, {}, s.nextComment)],
       tasks := s.tasks[1 := s.tasks[1].(status := if cfg.maxAttempts > 0 && n >= cfg.maxAttempts then Failed else Queued)],
       inflight := map[])
  }

  /** The launch fails its pre-flight, and its goroutine ends. */
  lemma FailIt(cfg: Config, p: seq<Step>, s: State, c: Candidate, manual: bool) returns (p': seq<Step>)
    requires After(cfg, p) == WithLaunch(s, c, manual) && s.booted && 1 in s.tasks && s.inflight == map[]
    ensures After(cfg, p') == FailedOnce(cfg, s)
    ensures Undisturbed(cfg, p) && c.newest == Newest(s.runs, 1) ==> Undisturbed(cfg, p')
  {
    BeginFails(cfg, s, c, manual);
    Then(cfg, p, Begin(1, true), WithLaunch(s, c, manual));
    p' := p + [Begin(1, true)];
    Then(cfg, p', Exit(1), Ending(FailedOnce(cfg, s), manual));
    p' := p' + [Exit(1)];
  }

  function Ending(s: State, manual: bool): State {
    s.(inflight := map[1 := Live(manual, NoCause, Returned)])
  }

  lemma BeginFails(cfg: Config, s: State, c: Candidate, manual: bool)
    requires s.booted && 1 in s.tasks && s.inflight == map[]
    ensures Next(cfg, WithLaunch(s, c, manual), Begin(1, true)) == Ending(FailedOnce(cfg, s), manual)
    ensures Next(cfg, Ending(FailedOnce(cfg, s), manual), Exit(1)) == FailedOnce(cfg, s)
  {
    assert Preflight(cfg, WithLaunch(s, c, manual), 1) == WithLaunch(FailedOnce(cfg, s), c, manual);
  }

  /** A manual launch that fails its pre-flight. */
  lemma ByHandFailure(cfg: Config, p: seq<Step>, s: State) returns (p': seq<Step>)
    requires s == After(cfg, p) && Ready(cfg, s) && s.byHand == []
    ensures After(cfg, p') == FailedOnce(cfg, s)
    ensures Undisturbed(cfg, p) ==> Undisturbed(cfg, p')
  {
    p' := LaunchIt(cfg, p, s);
    p' := FailIt(cfg, p', s, TheCandidate(s), true);
  }

  lemma OvertakenLaunchExceedsCap()
    ensures AttemptsLeft(CFG)
    ensures exists steps :: !WithinCap(CFG, After(CFG, steps))
  {
    var todo := [ToLaunch(Planned(0))];
    var p := Boot(CFG);
    p := PlanIt(CFG, p, Queue(Queued, []));
    TwoFailures(todo);
    p := ByHandFailure(CFG, p, Queue(Queued, []).(todo := todo));
    p := ByHandFailure(CFG, p, Queue(Queued, [Failure(1)]).(todo := todo));
    p := StaleFailure(p);
    assert After(CFG, p).runs[2] == Failure(3);
  }

  lemma TwoFailures(todo: seq<Ticket>)
    ensures FailedOnce(CFG, Queue(Queued, []).(todo := todo)) == Queue(Queued, [Failure(1)]).(todo := todo)
    ensures FailedOnce(CFG, Queue(Queued, [Failure(1)]).(todo := todo)) == Queue(Failed, [Failure(1), Failure(2)]).(todo := todo)
  {
  }

  /** The pass gets to the task it planned, and the launch fails its pre-flight. */
  lemma StaleFailure(p: seq<Step>) returns (p': seq<Step>)
    requires After(CFG, p) == Queue(Failed, [Failure(1), Failure(2)]).(todo := [ToLaunch(Planned(0))])
    ensures After(CFG, p').runs == [Failure(1), Failure(2), Failure(3)]
  {
    var s := Queue(Failed, [Failure(1), Failure(2)]);
    Then(CFG, p, PerformNext, s.(todo := [ToLaunch(Planned(0))]));
    p' := FailIt(CFG, p + [PerformNext], s, Planned(0), false);
  }

  const ONE := Config(1, 1)

  /** Why the bound needs max_attempts to be at least 2. With 1, a fresh run whose token cannot
      be fetched goes back in the queue although its one attempt is spent, and a pre-flight
      failure then counts as attempt 2, with no launch overtaken. */
  lemma OneAttemptIsExceeded()
    ensures exists steps :: Undisturbed(ONE, steps) && !WithinCap(ONE, After(ONE, steps))
  {
    var p := Start(ONE);
    Then(ONE, p, TokenFailure(1), AtWork(false));
    p := p + [TokenFailure(1)];
    var s := Queue(Queued, [Failure(1)]);
    Then(ONE, p, Exit(1), s.(inflight := map[1 := Live(true, NoCause, Returned)]));
    p := p + [Exit(1)];
    p := ByHandFailure(ONE, p, s);
    assert After(ONE, p).runs[1] == Failure(2);
  }

  const THREE := Config(3, 1)

  /** Run 1 hit a rate limit and can be resumed. */
  function Limited(): State {
    Queue(Resumable, [FirstRun(RateLimited).(session := "s")])
  }

  lemma LimitedRun() returns (p: seq<Step>)
    ensures After(THREE, p) == Limited()
  {
    p := StartAndInvoke(THREE);
    Then(THREE, p, SessionSeen(1, "s"), AtWork(true));
    p := p + [SessionSeen(1, "s")];
    var s := Queue(TaskStatus.Running, [FirstRun(Executing).(session := "s")]).(
      inflight := map[1 := Live(true, NoCause, Working(1, "", "s", true, true))]);
    assert After(THREE, p) == s;
    Then(THREE, p, Classify(1, RateLimitError, false, false), s);
    p := p + [Classify(1, RateLimitError, false, false)];
    var s' := Limited().(inflight := map[1 := Live(true, NoCause, Returned)]);
    assert After(THREE, p) == s';
    Then(THREE, p, Exit(1), s');
    p := p + [Exit(1)];
  }

  /** An overtaken resume can be free: a pass plans the resume of attempt 1, a manual launch
      fails its pre-flight as attempt 2, and the planned resume then runs as attempt 2 too. */
  lemma OvertakenResumeIsFree()
    ensures exists steps ::
      var s := After(THREE, steps);
      && Resumes(s, Begin(1, false), 1) && FirstAttempt(s.inflight[1].phase.c) == Spent(s, 1) == 2
  {
    var p := LimitedRun();
    var s := Limited();
    var c := ResumeCandidate(s, 1);
    p := PlanIt(THREE, p, s);
    s := s.(todo := [ToLaunch(c)]);
    p := ByHandFailure(THREE, p, s);
    s := FailedOnce(THREE, s);
    assert s.runs[1] == Failure(2);
    Then(THREE, p, PerformNext, s);
    p := p + [PerformNext];
    assert After(THREE, p) == WithLaunch(s.(todo := []), c, false);
    assert Resumes(After(THREE, p), Begin(1, false), 1);
  }
}
