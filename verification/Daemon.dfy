/** The daemon in the form the source gives it: one object whose fields are the tables and
    the scheduler's maps, and methods that write them row by row. Each method is proved to
    have exactly the effect of its step of the lifecycle, and to fail exactly when it says. */
module Daemon {
  import opened Domain
  import opened Lifecycle
  import Policy

  datatype Error = NotFound | Conflict | Invalid

  class Daemon {
    const cfg: Config
    var tasks: map<nat, Task>
    var order: seq<nat>
    var nextTask: nat
    var runs: seq<Run>
    var comments: map<nat, Comment>
    var nextComment: nat
    var requests: map<nat, Request>
    var nextRequest: nat
    var grants: set<nat>
    var inflight: map<nat, Live>
    var todo: seq<Ticket>
    var byHand: seq<Candidate>
    var booted: bool

    function Now(): State
      reads this
    {
      State(tasks, order, nextTask, runs, comments, nextComment, requests, nextRequest, grants,
            inflight, todo, byHand, booted)
    }

    constructor (cfg: Config)
      ensures Now() == Initial && this.cfg == cfg
    {
      this.cfg := cfg;
      tasks, order, nextTask, runs := map[], [], 1, [];
      comments, nextComment, requests, nextRequest, grants := map[], 1, map[], 1, {};
      inflight, todo, byHand, booted := map[], [], [], false;
    }

    // -------------------------------------------------------------- store rows

    method SetTaskStatus(t: nat, st: TaskStatus)
      modifies this`tasks
      ensures Now() == SetStatus(old(Now()), t, st)
    {
      if t in tasks {
        tasks := tasks[t := tasks[t].(status := st)];
      }
    }

    /** MAX(attempt_reset_run_id, newest): a reset never moves backwards. */
    method ResetTaskAttempts(t: nat)
      modifies this`tasks
      ensures Now() == ResetAttempts(old(Now()), t)
    {
      if t in tasks {
        var newest := Newest(runs, t);
        if newest > tasks[t].attemptReset {
          tasks := tasks[t := tasks[t].(attemptReset := newest)];
        } else {
          assert tasks == tasks[t := tasks[t].(attemptReset := tasks[t].attemptReset)];
        }
      }
    }

    method FinishRunRow(r: nat, st: RunStatus)
      requires 1 <= r <= |runs|
      modifies this`runs
      ensures Now() == FinishRun(old(Now()), r, st)
    {
      runs := runs[r - 1 := runs[r - 1].(status := st)];
    }

    method CreateRun(t: nat, attempt: nat) returns (r: nat)
      modifies this`runs
      ensures r == |runs| == |old(runs)| + 1
      ensures Now() == InsertRun(old(Now()), t, "", Starting, attempt, {})
    {
      runs := runs + [Run(|runs| + 1, t, "", Starting, attempt, {}, nextComment)];
      r := |runs|;
    }

    method InsertCommentRow(t: nat, via: Via) returns (c: nat)
      modifies this`comments, this`nextComment
      ensures c == old(nextComment)
      ensures Now() == InsertComment(old(Now()), t, via, 0)
    {
      c := nextComment;
      comments := comments[c := Comment(t, via, 0)];
      nextComment := nextComment + 1;
    }

    method MarkCommentsConsumed(t: nat, r: nat)
      modifies this`comments
      ensures Now() == ConsumeComments(old(Now()), t, r)
    {
      comments := map c | c in comments ::
        if comments[c].task == t && comments[c].consumedBy == 0
        then comments[c].(consumedBy := r) else comments[c];
    }

    method CancelTaskRequests(t: nat)
      modifies this`requests
      ensures Now() == CancelRequests(old(Now()), t)
    {
      requests := map q | q in requests ::
        if requests[q].task == t && requests[q].status.Pending?
        then requests[q].(status := Canceled) else requests[q];
    }

    method RequeueTask(t: nat, hasSession: bool)
      modifies this`tasks
      ensures Now() == Requeue(old(Now()), t, hasSession)
    {
      if hasSession {
        SetTaskStatus(t, Resumable);
      } else {
        SetTaskStatus(t, Queued);
      }
      ResetTaskAttempts(t);
    }

    /** The newest run has a session and was cut short, so the task resumes from it. */
    method HasInterruptedSession(t: nat) returns (resumable: bool)
      ensures resumable == CanResume(runs, t)
    {
      resumable := false;
      var latest := LatestRun(runs, t);
      if latest.Some? && latest.value.session != "" {
        match latest.value.status {
          case RateLimited => resumable := true;
          case TimedOut => resumable := true;
          case Errored => resumable := true;
          case _ =>
        }
      }
    }

    predicate IsInflight(t: nat)
      reads this
    {
      t in inflight
    }

    // -------------------------------------------------------------- the task service

    method CreateTask(backlog: bool, agentMode: bool) returns (t: nat)
      modifies this
      ensures Now() == DoCreateTask(old(Now()), backlog, agentMode) && t == old(nextTask)
    {
      t := nextTask;
      tasks := tasks[t := Task(if backlog then Backlog else Queued, 0, agentMode)];
      order := order + [t];
      nextTask := nextTask + 1;
    }

    method UpdateTask(t: nat, newMode: Option<bool>) returns (err: Option<Error>)
      modifies this
      ensures Now() == DoUpdateTask(old(Now()), t, newMode)
      ensures err == if t in old(tasks) then None else Some(NotFound)
    {
      if t !in tasks {
        return Some(NotFound);
      }
      var agentMode := tasks[t].agentMode;
      if newMode.Some? {
        agentMode := newMode.value;
      }
      tasks := tasks[t := tasks[t].(agentMode := agentMode)];
      ResetTaskAttempts(t);
      return None;
    }

    method DeleteTask(t: nat) returns (err: Option<Error>)
      modifies this
      ensures Now() == DoDeleteTask(old(Now()), t)
      ensures err.None? <==> t in old(tasks) && t !in tasks
    {
      if t !in tasks {
        return Some(NotFound);
      }
      if tasks[t].status.Running? || IsInflight(t) {
        return Some(Conflict);
      }
      if Newest(runs, t) > 0 {
        // The foreign key of the run table refuses.
        return Some(Conflict);
      }
      tasks := tasks - {t};
      order := Without(order, t);
      comments := map c | c in comments && comments[c].task != t :: comments[c];
      requests := map q | q in requests && requests[q].task != t :: requests[q];
      return None;
    }

    method PauseTask(t: nat) returns (err: Option<Error>)
      modifies this
      ensures Now() == DoPause(old(Now()), t)
      ensures err.None? <==> t in old(tasks) && Schedulable(old(tasks)[t].status)
    {
      if t !in tasks {
        return Some(NotFound);
      }
      if !tasks[t].status.Queued? && !tasks[t].status.Resumable? {
        return Some(Conflict);
      }
      SetTaskStatus(t, Paused);
      return None;
    }

    method ResumeTask(t: nat) returns (err: Option<Error>)
      modifies this
      ensures Now() == DoResume(old(Now()), t)
      ensures err.None? <==> t in old(tasks) && old(tasks)[t].status.Paused?
    {
      if t !in tasks {
        return Some(NotFound);
      }
      if !tasks[t].status.Paused? {
        return Some(Conflict);
      }
      var resumable := HasInterruptedSession(t);
      RequeueTask(t, resumable);
      return None;
    }

    method CompleteTask(t: nat) returns (err: Option<Error>)
      modifies this
      ensures Now() == DoRetire(old(Now()), t, Done)
      ensures err.None? <==> t in old(tasks) && !Busy(old(Now()), t)
    {
      if t !in tasks {
        return Some(NotFound);
      }
      if tasks[t].status.Running? || IsInflight(t) {
        return Some(Conflict);
      }
      CancelTaskRequests(t);
      SetTaskStatus(t, Done);
      return None;
    }

    method DismissTask(t: nat) returns (err: Option<Error>)
      modifies this
      ensures Now() == DoRetire(old(Now()), t, Dismissed)
      ensures err.None? <==> t in old(tasks) && !Busy(old(Now()), t)
    {
      if t !in tasks {
        return Some(NotFound);
      }
      if tasks[t].status.Running? || IsInflight(t) {
        return Some(Conflict);
      }
      CancelTaskRequests(t);
      SetTaskStatus(t, Dismissed);
      return None;
    }

    /** The transition rule: what a user may ask for. `from` is checked again although every
        caller has checked it. */
    static function ValidateStatusTransition(from: TaskStatus, to: TaskStatus): (ok: bool)
      ensures ok <==> !from.Running? && UserTarget(to)
    {
      if from.Running? then false
      else if to.PrCreated? then false
      else if to.Running? then false
      else !to.AwaitingHuman?
    }

    method MoveTask(t: nat, to: TaskStatus) returns (err: Option<Error>)
      modifies this
      ensures Now() == DoMove(old(Now()), t, to)
      ensures err.None? <==> MoveAllowed(old(Now()), t, to)
    {
      if t !in tasks {
        return Some(NotFound);
      }
      if tasks[t].status.Running? || IsInflight(t) {
        return Some(Conflict);
      }
      if !ValidateStatusTransition(tasks[t].status, to) {
        return Some(Conflict);
      }
      var latest := LatestRun(runs, t);
      if to.Resumable? {
        if latest.None? || latest.value.session == "" {
          return Some(Conflict);
        }
      }
      if to.Done? || to.Dismissed? {
        CancelTaskRequests(t);
      }
      var final := to;
      if tasks[t].status.Backlog? && to.Queued? {
        if latest.Some? && latest.value.session != "" {
          final := Resumable;
        }
      }
      SetTaskStatus(t, final);
      if Schedulable(final) {
        ResetTaskAttempts(t);
      }
      return None;
    }

    method AddComment(t: nat) returns (err: Option<Error>)
      modifies this
      ensures Now() == DoAddComment(old(Now()), t)
      ensures err.None? <==> t in old(tasks) && !Busy(old(Now()), t)
    {
      if t !in tasks {
        return Some(NotFound);
      }
      if tasks[t].status.Running? || IsInflight(t) {
        return Some(Conflict);
      }
      var _ := InsertCommentRow(t, ByForm);
      if !tasks[t].status.Backlog? {
        var resumable := HasInterruptedSession(t);
        RequeueTask(t, resumable);
      }
      return None;
    }

    method CancelTask(t: nat) returns (found: bool)
      modifies this`inflight
      ensures Now() == CancelLive(old(Now()), t, UserCause) && found == (t in old(inflight))
    {
      found := t in inflight;
      if found {
        Cancel(t, UserCause);
      }
    }

    /** A context remembers only its first cancellation. */
    method Cancel(t: nat, cause: Cause)
      requires t in inflight
      modifies this`inflight
      ensures Now() == CancelLive(old(Now()), t, cause)
    {
      if inflight[t].cause.NoCause? {
        inflight := inflight[t := inflight[t].(cause := cause)];
      }
    }

    method CancelRun(r: nat) returns (err: Option<Error>)
      modifies this
      ensures Now() == DoCancelRun(old(Now()), r)
      ensures err.None? <==> Listed(old(Now()), r) && Active(old(runs)[r - 1].status)
    {
      if r < 1 || r > |runs| || |runs| - r >= CANCEL_WINDOW {
        return Some(NotFound);
      }
      var run := runs[r - 1];
      if !run.status.Starting? && !run.status.Executing? && !run.status.Resuming? {
        return Some(Conflict);
      }
      var signalled := CancelTask(run.task);
      if !signalled {
        FinishRunRow(r, Abandoned);
        SetTaskStatus(run.task, Paused);
      }
      return None;
    }

    // -------------------------------------------------------------- the request service

    method SetHumanRequestStatus(q: nat, st: RequestStatus)
      requires q in requests
      modifies this`requests
      ensures Now() == SettleRequest(old(Now()), q, st)
    {
      requests := requests[q := requests[q].(status := st)];
    }

    predicate HasRunGrant(r: nat)
      reads this
    {
      r != 0 && r in grants
    }

    method CreateRequest(t: nat, r: nat, kind: Kind) returns (res: Option<nat>)
      modifies this
      ensures Now() == DoCreateRequest(old(Now()), t, r, kind)
      ensures res == if t in old(tasks) then Some(old(nextRequest)) else None
    {
      if t !in tasks {
        return None;
      }
      var preApproved := kind.CaptureApproval? && HasRunGrant(r);
      var q := nextRequest;
      requests := requests[q := Request(t, r, kind, Pending, false, 0)];
      nextRequest := nextRequest + 1;
      if preApproved {
        SetHumanRequestStatus(q, Answered);
      }
      return Some(q);
    }

    method Respond(q: nat) returns (err: Option<Error>)
      modifies this
      ensures Now() == DoRespond(old(Now()), q)
      ensures err.None? <==> IsPending(old(Now()), q)
    {
      if q !in requests {
        return Some(NotFound);
      }
      var req := requests[q];
      if !req.status.Pending? {
        return Some(Conflict);
      }
      RecordReply(q);
      ResumeParked(req.task);
      return None;
    }

    /** The reply becomes a comment the request points at. */
    method RecordReply(q: nat)
      requires IsPending(Now(), q)
      modifies this`comments, this`nextComment, this`requests
      ensures Now() == Reply(old(Now()), q)
    {
      var req := requests[q];
      var c := InsertCommentRow(req.task, ByReply(req.live));
      requests := requests[q := requests[q].(status := Answered, response := c)];
      if req.live {
        // A reply handed over in-band is delivered: retire this one comment.
        var reader := if req.run == 0 then -1 else req.run;
        comments := comments[c := comments[c].(consumedBy := reader)];
        assert comments == old(comments)[c := Comment(req.task, ByReply(req.live), reader)];
      }
    }

    /** A task parked on its human goes back in the queue, from its session if it has one. */
    method ResumeParked(t: nat)
      modifies this`tasks
      ensures Now() == Unpark(old(Now()), t)
    {
      if t in tasks && tasks[t].status.AwaitingHuman? {
        var latest := LatestRun(runs, t);
        RequeueTask(t, latest.Some? && latest.value.session != "");
      }
    }

    /** A poll goes live while it waits, and stops being live when it ends. */
    method SetHumanRequestLive(q: nat, live: bool)
      requires q in requests && (live ==> requests[q].status.Pending?)
      modifies this`requests
      ensures Now() == DoSetLive(old(Now()), q, live)
    {
      requests := requests[q := requests[q].(live := live)];
    }

    method Approve(q: nat, wholeRun: bool) returns (err: Option<Error>)
      modifies this
      ensures Now() == DoApprove(old(Now()), q, wholeRun)
      ensures err.None? <==> IsPending(old(Now()), q)
    {
      if q !in requests {
        return Some(NotFound);
      }
      if !requests[q].status.Pending? {
        return Some(Conflict);
      }
      if wholeRun && requests[q].run != 0 {
        grants := grants + {requests[q].run};
      }
      SetHumanRequestStatus(q, Answered);
      return None;
    }

    method Deny(q: nat) returns (err: Option<Error>)
      modifies this
      ensures Now() == DoSettle(old(Now()), q, Denied)
      ensures err.None? <==> IsPending(old(Now()), q)
    {
      if q !in requests {
        return Some(NotFound);
      }
      if !requests[q].status.Pending? {
        return Some(Conflict);
      }
      SetHumanRequestStatus(q, Denied);
      return None;
    }

    /** Expiring a settled request is not an error; it does nothing. */
    method Expire(q: nat) returns (err: Option<Error>)
      modifies this
      ensures Now() == DoSettle(old(Now()), q, Expired)
      ensures err.None? <==> q in old(requests)
    {
      if q !in requests {
        return Some(NotFound);
      }
      if requests[q].status.Pending? {
        SetHumanRequestStatus(q, Expired);
      }
      return None;
    }

    // -------------------------------------------------------------- the scheduler

    /** The order of the queue, read twice: resumable tasks, then queued ones. */
    method FetchCandidates() returns (cs: seq<Candidate>)
      ensures cs == Candidates(Now())
    {
      var resumable: seq<Candidate> := [];
      for i := 0 to |order|
        invariant resumable == Resumables(Now(), order[..i])
      {
        var t := order[i];
        assert order[..i + 1][..i] == order[..i];
        if t in tasks && tasks[t].status.Resumable? {
          var latest := LatestRun(runs, t);
          if latest.Some? && latest.value.session != "" {
            resumable := resumable + [Candidate(t, latest, tasks[t].attemptReset, tasks[t].agentMode, Newest(runs, t))];
          }
        }
      }
      var queued: seq<Candidate> := [];
      for i := 0 to |order|
        invariant queued == QueuedTasks(Now(), order[..i])
      {
        var t := order[i];
        assert order[..i + 1][..i] == order[..i];
        if t in tasks && tasks[t].status.Queued? {
          queued := queued + [Candidate(t, None, tasks[t].attemptReset, tasks[t].agentMode, Newest(runs, t))];
        }
      }
      assert order[..|order|] == order;
      cs := resumable + queued;
    }

    method Plan(e: Reading, running: seq<nat>, force: set<nat>) returns (plan: Policy.Plan, cs: seq<Candidate>)
      ensures cs == Candidates(Now())
      ensures var inp := InputFor(cfg, Now(), e, running, force);
        Policy.IsPlan(inp, plan) && plan.decisions == Verdicts(inp)
    {
      cs := FetchCandidates();
      var policyCandidates: seq<Policy.Candidate> := [];
      for i := 0 to |cs|
        invariant |policyCandidates| == i
        invariant forall j :: 0 <= j < i ==> policyCandidates[j] == ForPolicy(cs[j])
      {
        var c := cs[i];
        var pc := Policy.Candidate(c.task, false, 0);
        if c.resume.Some? {
          pc := pc.(resume := true, attempt := EffectiveAttempt(c.attemptReset, c.resume));
        }
        policyCandidates := policyCandidates + [pc];
      }
      var limits := Policy.Limits(cfg.workers, e.sessionThreshold, e.weeklyThreshold, cfg.maxAttempts, e.runTimeout, e.maxSnapshotAge);
      var inp := Policy.Input(e.now, e.snapshot, limits, policyCandidates, running, e.weeklyBackoffUntil, force);
      assert inp == InputFor(cfg, Now(), e, running, force);
      plan := Policy.Decide(inp);
      assert plan.decisions == Verdicts(inp);
    }

    /** What a pass is going to do, in the order it is going to do it. */
    method Tickets(e: Reading, running: seq<nat>) returns (ts: seq<Ticket>)
      ensures ts == PassTickets(cfg, Now(), e, running)
    {
      var plan, cs := Plan(e, running, {});
      var suspends := Suspends(plan.suspend);
      SuspendsAreThePlans(InputFor(cfg, Now(), e, running, {}), plan, suspends);
      var failures, launches := FailuresAndLaunches(cs, plan.decisions);
      ts := suspends + failures + launches;
    }

    /** The head of a scheduling pass. */
    method Evaluate(e: Reading, running: seq<nat>)
      requires todo == [] && Lists(running, inflight.Keys)
      modifies this`todo
      ensures Now() == DoPlanPass(cfg, old(Now()), e, running)
    {
      todo := Tickets(e, running);
    }

    method LaunchCandidate(c: Candidate, manual: bool)
      modifies this`inflight
      ensures Now() == Launch(old(Now()), c, manual)
    {
      if c.task in inflight {
        return;
      }
      inflight := inflight[c.task := Live(manual, NoCause, Launched(c))];
    }

    method PerformNext()
      modifies this
      ensures Now() == DoPerformNext(old(Now()))
    {
      if todo == [] {
        return;
      }
      var ticket := todo[0];
      todo := todo[1..];
      match ticket {
        case ToSuspend(t) =>
          if t in inflight {
            Cancel(t, SuspendCause);
          }
        case ToFail(t) => SetTaskStatus(t, Failed);
        case ToLaunch(c) => LaunchCandidate(c, false);
      }
    }

    /** The candidate the plan starts for `t`, when `t` jumps the queue. */
    method ChosenByHand(t: nat, e: Reading, running: seq<nat>) returns (c: Option<Candidate>)
      ensures var cs, ds := Candidates(Now()), Verdicts(InputFor(cfg, Now(), e, running, {t}));
        var k := DecisionFor(ds, t);
        c == if k < |ds| && ds[k].action.Launch? then Some(cs[k]) else None
    {
      var plan, cs := Plan(e, running, {t});
      var k := FindDecision(plan.decisions, t);
      if k == |plan.decisions| || !plan.decisions[k].action.Launch? {
        return None;
      }
      return Some(cs[k]);
    }

    /** A manual launch up to the plan. `err` says why it was refused. */
    method RunNow(t: nat, claudeFound: bool, e: Reading, running: seq<nat>) returns (err: Option<Error>)
      requires Lists(running, inflight.Keys)
      modifies this`byHand
      ensures Now() == DoRunNow(cfg, old(Now()), t, claudeFound, e, running)
      ensures err.None? <==> ManualCandidate(cfg, old(Now()), t, claudeFound, e, running).Some?
    {
      if t !in tasks {
        return Some(NotFound);
      }
      if !Schedulable(tasks[t].status) {
        return Some(Conflict);
      }
      if !claudeFound {
        return Some(Invalid);
      }
      if IsInflight(t) {
        return Some(Conflict);
      }
      var c := ChosenByHand(t, e, running);
      if c.None? {
        return Some(Conflict);
      }
      byHand := byHand + [c.value];
      return None;
    }

    method LaunchByHand(k: nat)
      requires k < |byHand|
      modifies this
      ensures Now() == DoLaunchByHand(old(Now()), k)
    {
      var c := byHand[k];
      byHand := byHand[..k] + byHand[k + 1..];
      LaunchCandidate(c, true);
    }

    /** The rows in an active status, newest first. */
    method RunsByStatus() returns (ids: seq<nat>)
      ensures ids == ActiveIds(runs, |runs|)
    {
      ids := [];
      var k: nat := |runs|;
      while k > 0
        invariant k <= |runs| && ids + ActiveIds(runs, k) == ActiveIds(runs, |runs|)
      {
        k := k - 1;
        if Active(runs[k].status) {
          assert ids + ([k + 1] + ActiveIds(runs, k)) == ids + [k + 1] + ActiveIds(runs, k);
          ids := ids + [k + 1];
        }
      }
      assert ids + [] == ids;
    }

    method Reconcile()
      modifies this
      ensures Now() == DoReconcile(old(Now()))
    {
      var ids := RunsByStatus();
      ListIsBurial(Now(), |runs|);
      ActiveIdsInRange(runs, |runs|);
      ghost var rows := |runs|;
      for j := 0 to |ids|
        invariant |runs| == rows && (forall i :: 0 <= i < |ids| ==> 1 <= ids[i] <= rows)
        invariant BuryList(Now(), ids[j..]) == BuryOrphans(old(Now()), rows)
        invariant booted == old(booted)
      {
        var r := runs[ids[j] - 1];
        assert ids[j..][1..] == ids[j + 1..];
        if r.task in inflight {
          continue;
        }
        FinishRunRow(ids[j], Errored);
        SetTaskStatus(r.task, TaskStatusAfterInterruption(r.session != ""));
      }
      booted := true;
    }

    method CancelAll()
      modifies this`inflight
      ensures Now() == DoShutdown(old(Now()))
    {
      var left := inflight.Keys;
      while left != {}
        invariant left <= inflight.Keys == old(inflight).Keys
        invariant forall t :: t in inflight ==>
          inflight[t] == if t in left then old(inflight)[t] else Stopped(old(inflight)[t])
        decreases |left|
      {
        var t :| t in left;
        left := left - {t};
        Cancel(t, ShutdownCause);
      }
    }

    // -------------------------------------------------------------- one run goroutine

    method SetPhaseOf(t: nat, p: Phase)
      requires t in inflight
      modifies this`inflight
      ensures Now() == SetPhase(old(Now()), t, p)
    {
      inflight := inflight[t := inflight[t].(phase := p)];
    }

    method PreflightError(t: nat)
      requires IsLaunched(Now(), t) && t in tasks
      modifies this
      ensures Now() == DoBegin(cfg, old(Now()), t, true)
    {
      var prior := LatestRun(runs, t);
      var attempt := EffectiveAttempt(tasks[t].attemptReset, prior) + 1;
      var r := CreateRun(t, attempt);
      FinishRunRow(r, Errored);
      if cfg.maxAttempts > 0 && attempt >= cfg.maxAttempts {
        SetTaskStatus(t, Failed);
      } else {
        SetTaskStatus(t, Queued);
      }
      SetPhaseOf(t, Returned);
      assert runs == old(runs) + [Run(|old(runs)| + 1, t, "", Errored, attempt, {}, nextComment)];
    }

    /** The row of a starting run: its attempt number, the session it resumes, its prompt. */
    method OpenRun(t: nat, c: Candidate, prompt: set<nat>) returns (r: nat)
      modifies this`runs
      ensures r == |old(runs)| + 1
      ensures Now() == InsertRun(old(Now()), t, ResumedSession(c), if c.resume.Some? then Resuming else Starting,
                                 FirstAttempt(c), prompt)
    {
      var attempt := 1;
      if c.resume.Some? {
        attempt := EffectiveAttempt(c.attemptReset, c.resume) + 1;
      }
      r := CreateRun(t, attempt);
      runs := runs[r - 1 := runs[r - 1].(prompt := prompt)];
      if c.resume.Some? {
        runs := runs[r - 1 := runs[r - 1].(session := c.resume.value.session)];
        FinishRunRow(r, Resuming);
      }
      assert runs == old(runs) + [runs[r - 1]];
    }

    /** `Run` once its workspace stands: the row, the session to resume, the prompt. */
    method BeginRun(t: nat)
      requires IsLaunched(Now(), t) && t in tasks
      modifies this
      ensures Now() == DoBegin(cfg, old(Now()), t, false)
    {
      var c := inflight[t].phase.c;
      var unconsumed := set k | k in comments && comments[k].task == t && comments[k].consumedBy == 0;
      var followUps := set k | k in unconsumed && !comments[k].via.ByAgent?;
      assert followUps == FollowUps(Now(), t);
      var r := OpenRun(t, c, followUps);
      SetTaskStatus(t, TaskStatus.Running);
      SetPhaseOf(t, Working(r, ResumedSession(c), "", false, c.agentMode));
    }

    method TokenFailure(t: nat)
      requires IsWorking(Now(), t) && !inflight[t].phase.invoked
      modifies this
      ensures Now() == DoTokenFailure(old(Now()), t)
    {
      var p := inflight[t].phase;
      FinishRunRow(p.run, Errored);
      if p.prior != "" {
        SetTaskStatus(t, Resumable);
      } else {
        SetTaskStatus(t, Queued);
      }
      SetPhaseOf(t, Returned);
    }

    /** The CLI is about to start. */
    method MarkRunning(t: nat)
      requires IsWorking(Now(), t) && !inflight[t].phase.invoked
      modifies this
      ensures Now() == DoInvoke(old(Now()), t)
    {
      var p := inflight[t].phase;
      FinishRunRow(p.run, Executing);
      SetPhaseOf(t, p.(invoked := true));
    }

    /** A denial is being carried past: the session is resumed once more. */
    method MarkContinued(t: nat)
      requires IsWorking(Now(), t) && inflight[t].phase.invoked
      modifies this
      ensures Now() == DoAutoContinue(old(Now()), t)
    {
      FinishRunRow(inflight[t].phase.run, Resuming);
    }

    /** The session id goes to the row the moment the CLI announces it. */
    method RecordSession(t: nat, id: string)
      requires IsWorking(Now(), t) && inflight[t].phase.invoked && id != ""
      modifies this
      ensures Now() == DoSessionSeen(old(Now()), t, id)
    {
      var p := inflight[t].phase;
      runs := runs[p.run - 1 := runs[p.run - 1].(session := id)];
      SetPhaseOf(t, p.(seen := id));
    }

    /** The session to resume is gone: forget it before starting over. */
    method RestartFresh(t: nat)
      requires IsWorking(Now(), t) && inflight[t].phase.invoked && inflight[t].phase.prior != ""
      modifies this
      ensures Now() == DoRestartFresh(old(Now()), t)
    {
      var p := inflight[t].phase;
      runs := runs[p.run - 1 := runs[p.run - 1].(session := "")];
      FinishRunRow(p.run, Executing);
      SetPhaseOf(t, p.(prior := "", seen := ""));
    }

    method SettleInterrupted(t: nat, hasSession: bool)
      modifies this`tasks
      ensures Now() == SetStatus(old(Now()), t, TaskStatusAfterInterruption(hasSession))
    {
      SetTaskStatus(t, TaskStatusAfterInterruption(hasSession));
    }

    /** How many requests a run raised, and how many of them are pending. */
    method RequestCountsForRun(r: nat) returns (total: nat, pending: nat)
      ensures total > 0 <==> Raised(Now(), r)
      ensures pending > 0 <==> Waiting(Now(), r)
    {
      var raised := set q | q in requests && requests[q].run == r;
      var waiting := set q | q in raised && requests[q].status.Pending?;
      total, pending := |raised|, |waiting|;
      forall q | q in requests && requests[q].run == r
        ensures q in raised
      {
      }
      forall q | q in requests && requests[q].run == r && requests[q].status.Pending?
        ensures q in waiting
      {
      }
      if total > 0 {
        var q :| q in raised;
      }
      if pending > 0 {
        var q :| q in waiting;
      }
    }

    /** The ending of a run, by the first cause that applies. */
    method Classify(t: nat, err: InvokeError, waiting: bool, text: bool)
      requires IsWorking(Now(), t) && inflight[t].phase.invoked
      modifies this
      ensures Now() == DoClassify(old(Now()), t, err, waiting, text)
    {
      var p, cause := inflight[t].phase, inflight[t].cause;
      if err.NoError? {
        ClassifySuccess(t, p, cause, waiting, text);
      } else {
        ClassifyFailure(t, p, cause, err, waiting, text);
      }
      SetPhaseOf(t, Returned);
    }

    method ClassifySuccess(t: nat, p: Phase, cause: Cause, waiting: bool, text: bool)
      requires p.Working? && 1 <= p.run <= |runs|
      modifies this`tasks, this`runs, this`comments, this`nextComment
      ensures Now() == Settle(old(Now()), t, p, cause, NoError, waiting, text)
    {
      if p.agentMode && waiting {
        var total, pending := RequestCountsForRun(p.run);
        var answered := total > 0 && pending == 0;
        FinishRunRow(p.run, Succeeded);
        FinishThread(t, p.run, !answered, text);
        if answered {
          RequeueTask(t, p.seen != "" || p.prior != "");
        } else {
          SetTaskStatus(t, AwaitingHuman);
        }
      } else {
        FinishRunRow(p.run, Succeeded);
        FinishThread(t, p.run, true, text);
        SetTaskStatus(t, PrCreated);
      }
    }

    method ClassifyFailure(t: nat, p: Phase, cause: Cause, err: InvokeError, waiting: bool, text: bool)
      requires p.Working? && 1 <= p.run <= |runs| && !err.NoError?
      modifies this`tasks, this`runs
      ensures Now() == Settle(old(Now()), t, p, cause, err, waiting, text)
    {
      var hasSession := p.seen != "" || p.prior != "";
      if cause.SuspendCause? {
        FinishRunRow(p.run, RateLimited);
        SettleInterrupted(t, hasSession);
      } else if cause.UserCause? {
        FinishRunRow(p.run, Errored);
        SetTaskStatus(t, Paused);
      } else if err.RateLimitError? {
        FinishRunRow(p.run, RateLimited);
        SettleInterrupted(t, hasSession);
      } else if err.DeniedError? {
        FinishRunRow(p.run, Errored);
        SettleInterrupted(t, hasSession);
      } else if err.TimeoutError? {
        FinishRunRow(p.run, TimedOut);
        SettleInterrupted(t, hasSession);
      } else {
        FinishRunRow(p.run, Errored);
        SettleInterrupted(t, hasSession);
      }
    }

    method FinishThread(t: nat, r: nat, consume: bool, report: bool)
      modifies this`comments, this`nextComment
      ensures Now() == Deliver(old(Now()), t, r, consume, report)
    {
      if consume {
        MarkCommentsConsumed(t, r);
      }
      if report {
        var _ := InsertCommentRow(t, ByAgent);
      }
    }

    method Exit(t: nat)
      requires t in inflight && inflight[t].phase.Returned?
      modifies this`inflight
      ensures Now() == DoExit(old(Now()), t)
    {
      inflight := inflight - {t};
    }
  }

  // ---------------------------------------------------------------- about the loops

  /** The index of the decision about `t`. */
  method FindDecision(ds: seq<Policy.Decision>, t: nat) returns (k: nat)
    ensures k == DecisionFor(ds, t)
  {
    k := 0;
    while k < |ds| && ds[k].task != t
      invariant k <= |ds| && forall j :: 0 <= j < k ==> ds[j].task != t
    {
      k := k + 1;
    }
  }

  method FailuresAndLaunches(cs: seq<Candidate>, ds: seq<Policy.Decision>)
    returns (failures: seq<Ticket>, launches: seq<Ticket>)
    requires |cs| == |ds|
    ensures failures == FailTickets(cs, ds) && launches == LaunchTickets(cs, ds)
  {
    failures, launches := [], [];
    for i := 0 to |ds|
      invariant failures == FailTickets(cs[..i], ds[..i])
      invariant launches == LaunchTickets(cs[..i], ds[..i])
    {
      assert cs[..i + 1][..i] == cs[..i] && ds[..i + 1][..i] == ds[..i];
      if ds[i].action.Fail? {
        failures := failures + [ToFail(cs[i].task)];
      } else if ds[i].action.Launch? {
        launches := launches + [ToLaunch(cs[i])];
      }
    }
    assert cs[..|cs|] == cs && ds[..|ds|] == ds;
  }

  method Suspends(ds: seq<Policy.Decision>) returns (ts: seq<Ticket>)
    ensures |ts| == |ds| && forall j :: 0 <= j < |ts| ==> ts[j] == ToSuspend(ds[j].task)
  {
    ts := [];
    for i := 0 to |ds|
      invariant |ts| == i && forall j :: 0 <= j < i ==> ts[j] == ToSuspend(ds[j].task)
    {
      ts := ts + [ToSuspend(ds[i].task)];
    }
  }

  lemma SuspendsAreThePlans(inp: Policy.Input, plan: Policy.Plan, ts: seq<Ticket>)
    requires Policy.IsPlan(inp, plan)
    requires |ts| == |plan.suspend| && forall j :: 0 <= j < |ts| ==> ts[j] == ToSuspend(plan.suspend[j].task)
    ensures ts == Suspensions(inp)
  {
  }

  function Stopped(l: Live): Live {
    if l.cause.NoCause? then l.(cause := ShutdownCause) else l
  }

  /** The ids of the active rows among the first `k`, newest first. */
  function ActiveIds(runs: seq<Run>, k: nat): seq<nat>
    requires k <= |runs|
  {
    if k == 0 then []
    else if Active(runs[k - 1].status) then [k] + ActiveIds(runs, k - 1)
    else ActiveIds(runs, k - 1)
  }

  lemma {:induction false} ActiveIdsInRange(runs: seq<Run>, k: nat)
    requires k <= |runs|
    ensures forall i :: 0 <= i < |ActiveIds(runs, k)| ==> 1 <= ActiveIds(runs, k)[i] <= k
  {
    if k > 0 {
      ActiveIdsInRange(runs, k - 1);
    }
  }

  /** Reconciling one active row: a row of this daemon's own is left alone. */
  function OneSettled(s: State, id: nat): (s': State)
    requires 1 <= id <= |s.runs|
    ensures |s'.runs| == |s.runs|
  {
    var r := s.runs[id - 1];
    if r.task in s.inflight then s
    else SetStatus(FinishRun(s, id, Errored), r.task, TaskStatusAfterInterruption(r.session != ""))
  }

  function BuryList(s: State, ids: seq<nat>): State
    requires forall i :: 0 <= i < |ids| ==> 1 <= ids[i] <= |s.runs|
    decreases ids
  {
    if ids == [] then s else BuryList(OneSettled(s, ids[0]), ids[1..])
  }

  lemma {:induction false} SameActiveIds(a: seq<Run>, b: seq<Run>, k: nat)
    requires k <= |a| == |b| && forall i :: 0 <= i < k ==> a[i].status == b[i].status
    ensures ActiveIds(a, k) == ActiveIds(b, k)
  {
    if k > 0 {
      SameActiveIds(a, b, k - 1);
    }
  }

  /** Walking the list of active rows once is the burial. */
  lemma {:induction false} ListIsBurial(s: State, k: nat)
    requires k <= |s.runs|
    ensures forall i :: 0 <= i < |ActiveIds(s.runs, k)| ==> 1 <= ActiveIds(s.runs, k)[i] <= |s.runs|
    ensures BuryList(s, ActiveIds(s.runs, k)) == BuryOrphans(s, k)
    decreases k
  {
    ActiveIdsInRange(s.runs, k);
    if k > 0 {
      var ids := ActiveIds(s.runs, k);
      if Active(s.runs[k - 1].status) {
        var s2 := OneSettled(s, k);
        assert ids == [k] + ActiveIds(s.runs, k - 1);
        assert ids[1..] == ActiveIds(s.runs, k - 1);
        SameActiveIds(s.runs, s2.runs, k - 1);
        ListIsBurial(s2, k - 1);
        assert BuryOrphans(s, k) == BuryOrphans(s2, k - 1);
      } else {
        ListIsBurial(s, k - 1);
        assert BuryOrphans(s, k) == BuryOrphans(s, k - 1);
      }
    }
  }

}
