/** What users and their answers do to a task, read off the tables before and after. Where a
    task goes is said in terms of its rows: it is back in line with all its attempts, to
    resume exactly when its newest run left a session to resume, and then the next pass has
    it among its candidates. None of these laws goes through the functions that define the
    steps, so they hold the steps to what the source promises. */
module Effects {
  import opened Domain
  import opened Lifecycle
  import opened Safety
  import SafetyRuns

  // ---------------------------------------------------------------- reading the tables

  /** The newest run of `t` recorded a session. */
  predicate SessionAtHand(s: State, t: nat) {
    exists r :: 1 <= r <= |s.runs| && LastOf(s.runs, r, t) && s.runs[r - 1].session != ""
  }

  /** The newest run of `t` recorded a session and was cut short. */
  predicate StoppedShort(s: State, t: nat) {
    exists r :: 1 <= r <= |s.runs| && LastOf(s.runs, r, t) && s.runs[r - 1].session != "" && s.runs[r - 1].status in {RateLimited, TimedOut, Errored}
  }

  lemma AtHand(s: State, t: nat)
    ensures SessionAtHand(s, t) <==> HasSession(s.runs, t)
    ensures StoppedShort(s, t) <==> CanResume(s.runs, t)
  {
    var n := Newest(s.runs, t);
    assert n > 0 ==> LastOf(s.runs, n, t);
  }

  /** No run of `t` counts against its attempts. */
  predicate Unspent(s: State, t: nat) {
    t in s.tasks && forall i :: 0 <= i < |s.runs| && s.runs[i].task == t ==> i < s.tasks[t].attemptReset
  }

  /** Back in the queue with all attempts, to resume or from the start; no other task changed. */
  predicate Requeued(s: State, s': State, t: nat, resumes: bool) {
    && t in s.tasks && Unspent(s', t)
    && s'.tasks == s.tasks[t := s.tasks[t].(status := if resumes then Resumable else Queued,
                                            attemptReset := s'.tasks[t].attemptReset)]
  }

  /** The next pass has `t` among its candidates, a resumable task with its newest run, whose
      session it resumes. */
  predicate InLine(s: State, t: nat)
    requires t in s.tasks
  {
    exists c :: c in Candidates(s) && c.task == t
      && if s.tasks[t].status.Resumable?
         then c.resume.Some? && LastOf(s.runs, c.resume.value.id, t) && c.resume.value == s.runs[c.resume.value.id - 1]
              && c.resume.value.session != ""
         else c.resume.None?
  }

  lemma QueuesUp(s: State, t: nat)
    requires Core(s) && t in s.tasks && Schedulable(s.tasks[t].status)
    ensures InLine(s, t)
  {
    assert TaskOk(s, t);
    assert t in s.order;
    if s.tasks[t].status.Resumable? {
      assert ResumeCandidate(s, t) in Candidates(s);
      assert RunOk(s, Newest(s.runs, t) - 1);
    } else {
      assert QueuedCandidate(s, t) in Candidates(s);
    }
  }

  lemma RequeueMeans(s: State, t: nat, resumes: bool)
    requires t in s.tasks
    ensures Requeued(s, Requeue(s, t, resumes), t, resumes)
    ensures Requeue(s, t, resumes) == s.(tasks := Requeue(s, t, resumes).tasks)
  {
  }

  // ---------------------------------------------------------------- follow-ups, pause and resume

  /** The task is at rest: no goroutine has it and it is not marked running. */
  predicate AtRest(s: State, t: nat) {
    t in s.tasks && t !in s.inflight && !s.tasks[t].status.Running?
  }

  /** A follow-up on a task at rest is stored unread, and the task goes back in line with all
      its attempts: to its session when its newest run was cut short with one, to the queue
      otherwise. In the backlog it stays where it is; a busy task takes no follow-up. */
  predicate FollowedUp(s: State, s': State, t: nat) {
    if !AtRest(s, t) then s' == s
    else
      && s'.comments == s.comments[s.nextComment := Comment(t, ByForm, 0)]
      && s' == s.(comments := s'.comments, nextComment := s.nextComment + 1, tasks := s'.tasks)
      && if s.tasks[t].status.Backlog? then s'.tasks == s.tasks else Requeued(s, s', t, StoppedShort(s, t))
  }

  lemma FollowUp(s: State, t: nat)
    ensures FollowedUp(s, DoAddComment(s, t), t)
  {
    if AtRest(s, t) && !s.tasks[t].status.Backlog? {
      AtHand(s, t);
      RequeueMeans(InsertComment(s, t, ByForm, 0), t, CanResume(s.runs, t));
    }
  }

  lemma FollowUpRequeues(cfg: Config, steps: seq<Step>, t: nat)
    requires After(cfg, steps).booted
    ensures FollowedUp(After(cfg, steps), After(cfg, steps + [AddComment(t)]), t)
    ensures AtRest(After(cfg, steps), t) && !After(cfg, steps).tasks[t].status.Backlog? ==>
      t in After(cfg, steps + [AddComment(t)]).tasks && InLine(After(cfg, steps + [AddComment(t)]), t)
  {
    var s := After(cfg, steps);
    PathLast(cfg, Initial, steps, AddComment(t), s);
    SafetyRuns.CoreAlways(cfg, steps + [AddComment(t)]);
    FollowUp(s, t);
    if AtRest(s, t) && !s.tasks[t].status.Backlog? {
      QueuesUp(After(cfg, steps + [AddComment(t)]), t);
    }
  }

  /** A paused task goes back in line with all its attempts: to its session when its newest run
      was cut short with one, to the queue otherwise. */
  predicate Resumed(s: State, s': State, t: nat) {
    if t in s.tasks && s.tasks[t].status.Paused?
    then Requeued(s, s', t, StoppedShort(s, t)) && s' == s.(tasks := s'.tasks) else s' == s
  }

  /** Pausing takes a queued or resumable task out of line, and no other. */
  predicate PausedFrom(s: State, s': State, t: nat) {
    s' == if t in s.tasks && s.tasks[t].status in {Queued, Resumable}
          then s.(tasks := s.tasks[t := s.tasks[t].(status := Paused)]) else s
  }

  lemma PauseResume(s: State, t: nat)
    ensures PausedFrom(s, DoPause(s, t), t) && Resumed(s, DoResume(s, t), t)
  {
    AtHand(s, t);
    if t in s.tasks {
      RequeueMeans(s, t, CanResume(s.runs, t));
    }
  }

  lemma PauseMeans(cfg: Config, s: State, t: nat)
    requires s.booted
    ensures PausedFrom(s, Next(cfg, s, PauseTask(t)), t)
  {
    PauseResume(s, t);
  }

  lemma ResumeRequeues(cfg: Config, steps: seq<Step>, t: nat)
    requires After(cfg, steps).booted
    ensures Resumed(After(cfg, steps), After(cfg, steps + [ResumeTask(t)]), t)
    ensures t in After(cfg, steps).tasks && After(cfg, steps).tasks[t].status.Paused? ==>
      t in After(cfg, steps + [ResumeTask(t)]).tasks && InLine(After(cfg, steps + [ResumeTask(t)]), t)
  {
    var s := After(cfg, steps);
    PathLast(cfg, Initial, steps, ResumeTask(t), s);
    SafetyRuns.CoreAlways(cfg, steps + [ResumeTask(t)]);
    PauseResume(s, t);
    if t in s.tasks && s.tasks[t].status.Paused? {
      QueuesUp(After(cfg, steps + [ResumeTask(t)]), t);
    }
  }

  // ---------------------------------------------------------------- moving a task

  /** What a user may ask of the board: a task at rest, any column but the three the daemon
      fills, and Resumable only with a session. */
  predicate Movable(s: State, t: nat, to: TaskStatus) {
    AtRest(s, t) && to !in {TaskStatus.Running, PrCreated, AwaitingHuman} && (to.Resumable? ==> SessionAtHand(s, t))
  }

  /** The pending requests of `t` are cancelled and no other is touched. */
  predicate AsksNoMore(s: State, s': State, t: nat) {
    s'.requests.Keys == s.requests.Keys
    && forall q :: q in s.requests ==>
      s'.requests[q] == if s.requests[q].task == t && s.requests[q].status.Pending?
                        then s.requests[q].(status := Canceled) else s.requests[q]
  }

  /** A task moved to a column is there, except that one queued from the backlog with a session
      becomes resumable. Back in line it has all its attempts; retired it asks no more. */
  predicate MovedTo(s: State, s': State, t: nat, to: TaskStatus) {
    if !Movable(s, t, to) then s' == s
    else
      && s' == s.(tasks := s'.tasks, requests := s'.requests)
      && (if to in {Done, Dismissed} then AsksNoMore(s, s', t) else s'.requests == s.requests)
      && if to in {Queued, Resumable}
         then Requeued(s, s', t, to.Resumable? || (s.tasks[t].status.Backlog? && SessionAtHand(s, t)))
         else s'.tasks == s.tasks[t := s.tasks[t].(status := to)]
  }

  lemma Moving(s: State, t: nat, to: TaskStatus)
    ensures MovedTo(s, DoMove(s, t, to), t, to)
  {
    AtHand(s, t);
    if MoveAllowed(s, t, to) && Schedulable(to) {
      RequeueMeans(s, t, MoveTarget(s, t, to).Resumable?);
      assert DoMove(s, t, to) == Requeue(s, t, MoveTarget(s, t, to).Resumable?);
    }
  }

  lemma Leaving(s: State, t: nat, to: TaskStatus)
    requires to in {Done, Dismissed}
    ensures DoRetire(s, t, to) == DoMove(s, t, to)
  {
  }

  lemma MoveMeans(cfg: Config, s: State, t: nat, to: TaskStatus)
    requires s.booted
    ensures MovedTo(s, Next(cfg, s, MoveTask(t, to)), t, to)
  {
    Moving(s, t, to);
  }

  /** Completing and dismissing are moves. */
  lemma RetireMeans(cfg: Config, s: State, t: nat, step: Step)
    requires s.booted && step in {CompleteTask(t), DismissTask(t)}
    ensures var to := if step.CompleteTask? then Done else Dismissed;
      MovedTo(s, Next(cfg, s, step), t, to)
  {
    Leaving(s, t, if step.CompleteTask? then Done else Dismissed);
    Moving(s, t, if step.CompleteTask? then Done else Dismissed);
  }

  /** A new task is last in the order, in the backlog or the queue. */
  predicate Created(s: State, s': State, backlog: bool, mode: bool) {
    && s' == s.(tasks := s'.tasks, order := s.order + [s.nextTask], nextTask := s.nextTask + 1)
    && s'.tasks == s.tasks[s.nextTask := Task(if backlog then Backlog else Queued, 0, mode)]
  }

  /** An edited task keeps its column and gets all its attempts back. */
  predicate Edited(s: State, s': State, t: nat, newMode: Option<bool>) {
    if t !in s.tasks then s' == s
    else
      && s' == s.(tasks := s'.tasks) && Unspent(s', t)
      && s'.tasks == s.tasks[t := Task(s.tasks[t].status, s'.tasks[t].attemptReset,
                                       if newMode.Some? then newMode.value else s.tasks[t].agentMode)]
  }

  lemma Editing(s: State, t: nat, newMode: Option<bool>)
    ensures Edited(s, DoUpdateTask(s, t, newMode), t, newMode)
  {
  }

  lemma CreateAndEdit(cfg: Config, s: State, backlog: bool, mode: bool, t: nat, newMode: Option<bool>)
    requires s.booted
    ensures Created(s, Next(cfg, s, CreateTask(backlog, mode)), backlog, mode)
    ensures Edited(s, Next(cfg, s, UpdateTask(t, newMode)), t, newMode)
  {
    Editing(s, t, newMode);
  }

  lemma {:induction false} WithoutCuts(xs: seq<nat>, k: nat)
    requires Distinct(xs) && k < |xs|
    ensures Without(xs, xs[k]) == xs[..k] + xs[k + 1..]
  {
    var n := |xs| - 1;
    var front := xs[..n];
    assert xs == front + [xs[n]];
    if k < n {
      WithoutCuts(front, k);
      assert front[k] == xs[k];
      assert xs[..k] + xs[k + 1..] == (front[..k] + front[k + 1..]) + [xs[n]];
    } else {
      Untouched(front, xs[n]);
      assert xs[..n] + xs[n + 1..] == front;
    }
  }

  lemma {:induction false} Untouched(xs: seq<nat>, x: nat)
    requires x !in xs
    ensures Without(xs, x) == xs
  {
    if xs != [] {
      var n := |xs| - 1;
      Untouched(xs[..n], x);
      assert xs == xs[..n] + [xs[n]];
    }
  }

  /** A task at rest that never ran is deleted with its comments and requests, and the others
      close ranks. */
  predicate Deleted(s: State, s': State, t: nat)
    requires t in s.tasks
  {
    && s' == s.(tasks := s'.tasks, order := s'.order, comments := s'.comments, requests := s'.requests)
    && s'.tasks == s.tasks - {t}
    && (exists k :: 0 <= k < |s.order| && s.order[k] == t && s'.order == s.order[..k] + s.order[k + 1..])
    && (forall c :: c in s'.comments ==> c in s.comments && s'.comments[c] == s.comments[c])
    && (forall c :: c in s.comments ==> (c in s'.comments <==> s.comments[c].task != t))
    && (forall q :: q in s'.requests ==> q in s.requests && s'.requests[q] == s.requests[q])
    && (forall q :: q in s.requests ==> (q in s'.requests <==> s.requests[q].task != t))
  }

  lemma Deleting(s: State, t: nat)
    requires Core(s) && AtRest(s, t) && NeverRan(s, t)
    ensures Deleted(s, DoDeleteTask(s, t), t)
  {
    var k :| 0 <= k < |s.order| && s.order[k] == t;
    WithoutCuts(s.order, k);
  }

  predicate NeverRan(s: State, t: nat) {
    forall i :: 0 <= i < |s.runs| ==> s.runs[i].task != t
  }

  predicate DeletedOrKept(s: State, s': State, t: nat) {
    if AtRest(s, t) && NeverRan(s, t) then Deleted(s, s', t) else s' == s
  }

  lemma DeletingOrKeeping(s: State, t: nat)
    requires Core(s)
    ensures DeletedOrKept(s, DoDeleteTask(s, t), t)
  {
    if AtRest(s, t) && NeverRan(s, t) {
      Deleting(s, t);
    }
  }

  lemma DeleteMeans(cfg: Config, s: State, t: nat)
    requires Core(s) && s.booted
    ensures DeletedOrKept(s, Next(cfg, s, DeleteTask(t)), t)
  {
    DeletingOrKeeping(s, t);
  }

  /** A user's cancellation reaches the goroutine of an active run among the newest thousand,
      and counts if it comes first. */
  lemma CancelMeans(cfg: Config, s: State, r: nat)
    requires Core(s) && s.booted
    ensures var s' := Next(cfg, s, CancelRun(r));
      if 1 <= r <= |s.runs| && |s.runs| - r < 1000 && s.runs[r - 1].status in {Starting, Executing, Resuming}
      then
        var t := s.runs[r - 1].task;
        && WorksOn(s, t, r)
        && s' == if s.inflight[t].cause.NoCause? then s.(inflight := s.inflight[t := s.inflight[t].(cause := UserCause)]) else s
      else s' == s
  {
    if 1 <= r <= |s.runs| {
      assert RunOk(s, r - 1);
    }
  }

  // ---------------------------------------------------------------- questions and answers

  /** A request is pending, unless it asks to capture under a grant of its own run. */
  lemma FilingMeans(cfg: Config, s: State, t: nat, r: nat, kind: Kind)
    requires s.booted
    ensures var s' := Next(cfg, s, CreateRequest(t, r, kind));
      if t !in s.tasks then s' == s
      else
        var granted := kind.CaptureApproval? && r != 0 && r in s.grants;
        s' == s.(requests := s.requests[s.nextRequest := Request(t, r, kind, if granted then Answered else Pending, false, 0)],
                 nextRequest := s.nextRequest + 1)
  {
  }

  /** Who has read a reply the moment it is given: the run that is polling for it, nobody (0)
      when none is, and nobody known (-1) when the poll belongs to no run. */
  function Reader(q: Request): int {
    if q.live then (if q.run == 0 then -1 else q.run) else 0
  }

  /** A reply is stored as a comment and settles its request. If the task is parked it goes
      back in line with all its attempts, to its session when its newest run has one. A reply
      to a settled request changes nothing. */
  predicate Replied(s: State, s': State, q: nat)
    requires q in s.requests && s.requests[q].task in s.tasks
  {
    var req := s.requests[q];
    if !req.status.Pending? then s' == s
    else
      && s' == s.(comments := s'.comments, nextComment := s.nextComment + 1, requests := s'.requests, tasks := s'.tasks)
      && s'.comments == s.comments[s.nextComment := Comment(req.task, ByReply(req.live), Reader(req))]
      && s'.requests == s.requests[q := req.(status := Answered, response := s.nextComment)]
      && if s.tasks[req.task].status.AwaitingHuman? then Requeued(s, s', req.task, SessionAtHand(s, req.task))
         else s'.tasks == s.tasks
  }

  lemma Replying(s: State, q: nat)
    requires q in s.requests && s.requests[q].task in s.tasks
    ensures Replied(s, DoRespond(s, q), q)
  {
    if s.requests[q].status.Pending? {
      var t := s.requests[q].task;
      var s1 := Reply(s, q);
      AtHand(s, t);
      RequeueMeans(s1, t, HasSession(s.runs, t));
      assert DoRespond(s, q) == Unpark(s1, t);
    }
  }

  lemma ReplyUnparks(cfg: Config, steps: seq<Step>, q: nat)
    requires After(cfg, steps).booted && q in After(cfg, steps).requests
    ensures After(cfg, steps).requests[q].task in After(cfg, steps).tasks
    ensures Replied(After(cfg, steps), After(cfg, steps + [Respond(q)]), q)
    ensures var s, s' := After(cfg, steps), After(cfg, steps + [Respond(q)]);
      var t := s.requests[q].task;
      IsPending(s, q) && s.tasks[t].status.AwaitingHuman? ==> t in s'.tasks && InLine(s', t)
  {
    var s, s' := After(cfg, steps), After(cfg, steps + [Respond(q)]);
    PathLast(cfg, Initial, steps, Respond(q), s);
    SafetyRuns.CoreAlways(cfg, steps);
    SafetyRuns.CoreAlways(cfg, steps + [Respond(q)]);
    assert RequestOk(s, q);
    Replying(s, q);
    if IsPending(s, q) && s.tasks[s.requests[q].task].status.AwaitingHuman? {
      QueuesUp(s', s.requests[q].task);
    }
  }

  /** A pending request is settled by the verdict given; approving it for the whole run leaves
      a grant for the run. A settled one is left as it is. */
  predicate Judged(s: State, s': State, q: nat, verdict: RequestStatus, grants: set<nat>)
    requires q in s.requests
  {
    s' == if s.requests[q].status.Pending?
          then s.(requests := s.requests[q := s.requests[q].(status := verdict)], grants := grants) else s
  }

  lemma Judging(s: State, q: nat, wholeRun: bool)
    requires q in s.requests
    ensures Judged(s, DoApprove(s, q, wholeRun), q, Answered,
                   if wholeRun && s.requests[q].run > 0 then s.grants + {s.requests[q].run} else s.grants)
    ensures Judged(s, DoSettle(s, q, Denied), q, Denied, s.grants) && Judged(s, DoSettle(s, q, Expired), q, Expired, s.grants)
  {
  }

  lemma VerdictsMean(cfg: Config, s: State, q: nat, wholeRun: bool)
    requires s.booted && q in s.requests
    ensures Judged(s, Next(cfg, s, Approve(q, wholeRun)), q, Answered,
                   if wholeRun && s.requests[q].run > 0 then s.grants + {s.requests[q].run} else s.grants)
    ensures Judged(s, Next(cfg, s, Deny(q)), q, Denied, s.grants) && Judged(s, Next(cfg, s, Expire(q)), q, Expired, s.grants)
  {
    Judging(s, q, wholeRun);
  }
}
