/** How a run begins and carries on, read off its row and its goroutine before and after: the
    attempt it makes, the session it resumes, the comments it is given to read, and what is
    written when the CLI starts, announces a session, is denied a call or does not know the
    session. A run that never comes to that point spends an attempt or gives its task back,
    and a task deleted in between starts nothing at all. */
module Beginnings {
  import opened Domain
  import opened Lifecycle
  import opened Safety
  import SafetyRuns

  // ---------------------------------------------------------------- the start

  /** The attempts task `t` has behind it: its newest row's number, unless it was reset since. */
  function Used(s: State, t: nat): nat
    requires t in s.tasks
  {
    var n := Newest(s.runs, t);
    if n == 0 || s.runs[n - 1].id <= s.tasks[t].attemptReset then 0 else s.runs[n - 1].attempt
  }

  /** The attempt a resumed run makes: one more than the run it resumes, unless its task had
      been reset since. A run that starts afresh is attempt 1. */
  function NextAttempt(c: Candidate): nat {
    if c.resume.None? || c.resume.value.id <= c.attemptReset then 1 else c.resume.value.attempt + 1
  }

  /** Pre-flight failed: one more attempt is spent on a row that says so. The last one fails
      the task, any other leaves it in the queue. */
  predicate GaveUp(cfg: Config, s: State, s': State, t: nat)
    requires t in s.tasks && t in s.inflight
  {
    var n := Used(s, t) + 1;
    && s' == s.(runs := s'.runs, tasks := s'.tasks, inflight := s'.inflight)
    && s'.runs == s.runs + [Run(|s.runs| + 1, t, "", Errored, n, {}, s.nextComment)]
    && s'.tasks == s.tasks[t := s.tasks[t].(status :=
         if cfg.maxAttempts > 0 && n >= cfg.maxAttempts then TaskStatus.Failed else Queued)]
    && s'.inflight == s.inflight[t := s.inflight[t].(phase := Returned)]
  }

  /** The run has started: it has a row with the session it resumes, if any, its attempt and
      the comments from people nobody has read yet, and its goroutine works on that row. */
  predicate Started(s: State, s': State, t: nat, c: Candidate)
    requires t in s.tasks && t in s.inflight
  {
    var r, session := |s.runs| + 1, if c.resume.Some? then c.resume.value.session else "";
    && s' == s.(runs := s'.runs, tasks := s'.tasks, inflight := s'.inflight)
    && |s'.runs| == r && s'.runs[..r - 1] == s.runs
    && s'.runs[r - 1] == Run(r, t, session, if c.resume.Some? then Resuming else Starting, NextAttempt(c),
                             s'.runs[r - 1].prompt, s.nextComment)
    && s'.runs[r - 1].prompt <= s.comments.Keys
    && (forall k :: k in s.comments ==>
          (k in s'.runs[r - 1].prompt <==>
             s.comments[k].task == t && s.comments[k].consumedBy == 0 && s.comments[k].via != ByAgent))
    && s'.tasks == s.tasks[t := s.tasks[t].(status := TaskStatus.Running)]
    && s'.inflight == s.inflight[t := s.inflight[t].(phase := Working(r, session, "", false, c.agentMode))]
  }

  lemma Beginning(cfg: Config, s: State, t: nat)
    requires t in s.tasks && t in s.inflight && s.inflight[t].phase.Launched?
    ensures GaveUp(cfg, s, DoBegin(cfg, s, t, true), t)
    ensures Started(s, DoBegin(cfg, s, t, false), t, s.inflight[t].phase.c)
  {
    var s' := DoBegin(cfg, s, t, false);
    assert s'.runs[|s.runs|].prompt == FollowUps(s, t);
  }

  /** What a goroutine does first: for a task deleted since it was planned, nothing but
      return; otherwise it gives up at pre-flight or starts a run. */
  lemma BeginMeans(cfg: Config, s: State, t: nat, fails: bool)
    requires s.booted && t in s.inflight && s.inflight[t].phase.Launched?
    ensures var s' := Next(cfg, s, Begin(t, fails));
      if t !in s.tasks then s' == s.(inflight := s.inflight[t := s.inflight[t].(phase := Returned)])
      else if fails then GaveUp(cfg, s, s', t)
      else Started(s, s', t, s.inflight[t].phase.c)
  {
    if t in s.tasks {
      Beginning(cfg, s, t);
    }
  }

  // ---------------------------------------------------------------- while the CLI works

  /** The goroutine of `t` is at work, and the CLI has been started or not. */
  predicate AtWork(s: State, t: nat, invoked: bool) {
    t in s.inflight && s.inflight[t].phase.Working? && 1 <= s.inflight[t].phase.run <= |s.runs|
    && s.inflight[t].phase.invoked == invoked
  }

  /** The row now has this session and status, and the goroutine is where `p` says. */
  predicate RowIs(s: State, s': State, t: nat, session: string, st: RunStatus, p: Phase)
    requires AtWork(s, t, true) || AtWork(s, t, false)
  {
    var r := s.inflight[t].phase.run;
    && s' == s.(runs := s.runs[r - 1 := s.runs[r - 1].(session := session, status := st)], inflight := s'.inflight, tasks := s'.tasks)
    && s'.inflight == s.inflight[t := s.inflight[t].(phase := p)]
  }

  /** Before the CLI starts its row says so, or the token is missing: then the run is over,
      and its task goes back to the session it was to resume or else to the queue. */
  lemma StartingTheCli(cfg: Config, s: State, t: nat)
    requires Core(s) && s.booted && AtWork(s, t, false)
    ensures var row := s.runs[s.inflight[t].phase.run - 1];
      && var s' := Next(cfg, s, Invoke(t));
         RowIs(s, s', t, row.session, Executing, s.inflight[t].phase.(invoked := true)) && s'.tasks == s.tasks
    ensures var row := s.runs[s.inflight[t].phase.run - 1];
      && var s' := Next(cfg, s, TokenFailure(t));
         RowIs(s, s', t, row.session, Errored, Returned)
         && t in s.tasks && s'.tasks == s.tasks[t := s.tasks[t].(status := if s.inflight[t].phase.prior != "" then Resumable else Queued)]
  {
    assert LiveOk(s, t);
    assert RunOk(s, s.inflight[t].phase.run - 1);
    TokenLost(s, t);
    Invoked(s, t);
  }

  lemma TokenLost(s: State, t: nat)
    requires AtWork(s, t, false) && t in s.tasks
    ensures var row := s.runs[s.inflight[t].phase.run - 1];
      && RowIs(s, DoTokenFailure(s, t), t, row.session, Errored, Returned)
      && DoTokenFailure(s, t).tasks == s.tasks[t := s.tasks[t].(status := if s.inflight[t].phase.prior != "" then Resumable else Queued)]
  {
  }

  lemma Invoked(s: State, t: nat)
    requires AtWork(s, t, false)
    ensures var row := s.runs[s.inflight[t].phase.run - 1];
      && RowIs(s, DoInvoke(s, t), t, row.session, Executing, s.inflight[t].phase.(invoked := true))
      && DoInvoke(s, t).tasks == s.tasks
  {
  }

  /** A session the CLI announces is in the row at once, and the goroutine carries it. */
  lemma SessionIsRecorded(cfg: Config, s: State, t: nat, id: string)
    requires s.booted && AtWork(s, t, true) && id != ""
    ensures var row := s.runs[s.inflight[t].phase.run - 1];
      var s' := Next(cfg, s, SessionSeen(t, id));
      && RowIs(s, s', t, id, row.status, s.inflight[t].phase.(seen := id)) && s'.tasks == s.tasks
      && Carried(s'.inflight[t].phase) == id
  {
  }

  /** Carrying on past a denial shows in the row. */
  lemma ContinuingShows(cfg: Config, s: State, t: nat)
    requires s.booted && AtWork(s, t, true)
    ensures var row := s.runs[s.inflight[t].phase.run - 1];
      var s' := Next(cfg, s, AutoContinue(t));
      RowIs(s, s', t, row.session, Resuming, s.inflight[t].phase) && s'.tasks == s.tasks
  {
    assert s.inflight == s.inflight[t := s.inflight[t].(phase := s.inflight[t].phase)];
  }

  /** A run told that its session does not exist forgets it everywhere. */
  lemma StartingOver(cfg: Config, s: State, t: nat)
    requires s.booted && AtWork(s, t, true) && s.inflight[t].phase.prior != ""
    ensures var s' := Next(cfg, s, RestartFresh(t));
      && RowIs(s, s', t, "", Executing, s.inflight[t].phase.(prior := "", seen := "")) && s'.tasks == s.tasks
      && Carried(s'.inflight[t].phase) == ""
  {
  }

  // ---------------------------------------------------------------- from one run to the next

  /** A planned resume takes up the session of the row it was planned from: the new row is the
      newest of its task and carries that session, which is never empty. */
  lemma SessionIsTakenUp(cfg: Config, s: State, t: nat)
    requires Core(s) && s.booted && t in s.tasks && t in s.inflight && s.inflight[t].phase.Launched?
    requires s.inflight[t].phase.c.resume.Some?
    ensures var s' := Next(cfg, s, Begin(t, false));
      LastOf(s'.runs, |s.runs| + 1, t) && s'.runs[|s.runs|].session == s.inflight[t].phase.c.resume.value.session != ""
  {
    BeginMeans(cfg, s, t, false);
    assert LiveOk(s, t);
  }
}
