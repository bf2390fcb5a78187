/** A parked task always has something to wait for, and when it does not.

    A task whose run ended waiting for a human is parked. Requests name a run that nobody
    checks, so one task may file them under the run of another, and an approval, a denial or
    an expiry settles a request without moving its task. `Strands` spells out the steps that
    leave a parked task with nothing to wait for, from what is there before the step, and
    `StepParksIff` shows that it is these steps and no others. */
module Parking {
  import opened Domain
  import opened Lifecycle
  import opened Safety
  import opened SafetySteps
  import opened SafetyRuns
  import opened Histories
  import opened Requests
  import Frames

  /** Run `r` is the newest run of a task that waits for a human. */
  predicate ParkedRun(s: State, r: nat) {
    && 1 <= r <= |s.runs| && s.runs[r - 1].task in s.tasks
    && s.tasks[s.runs[r - 1].task].status.AwaitingHuman? && Newest(s.runs, s.runs[r - 1].task) == r
  }

  /** The run asked nothing, or still has a question open. */
  predicate SomethingOpen(s: State, r: nat) {
    Raised(s, r) ==> Waiting(s, r)
  }

  predicate Parked(s: State) {
    forall r :: 0 <= r <= |s.runs| && ParkedRun(s, r) ==> SomethingOpen(s, r)
  }

  // ---------------------------------------------------------------- the steps that strand a task

  /** Request `q` is not the last one open of its run. */
  predicate OtherOpen(s: State, q: nat)
    requires q in s.requests
  {
    exists p :: p in s.requests && p != q && s.requests[p].run == s.requests[q].run && s.requests[p].status.Pending?
  }

  /** Request `q` is the last one open of a parked run. */
  predicate LastOpen(s: State, q: nat) {
    IsPending(s, q) && ParkedRun(s, s.requests[q].run) && !OtherOpen(s, q)
  }

  /** A parked run of another task waits, and only for requests that `t` filed. */
  predicate OnlyFrom(s: State, r: nat, t: nat) {
    && ParkedRun(s, r) && s.runs[r - 1].task != t && Waiting(s, r)
    && forall q :: q in s.requests && s.requests[q].run == r && s.requests[q].status.Pending? ==> s.requests[q].task == t
  }

  /** Some task other than `t` filed a request under run `r`. */
  predicate RaisedByOthers(s: State, r: nat, t: nat) {
    exists q :: q in s.requests && s.requests[q].run == r && s.requests[q].task != t
  }

  predicate RetiringStrands(s: State, t: nat) {
    t in s.tasks && !Busy(s, t) && exists r :: 0 <= r <= |s.runs| && OnlyFrom(s, r, t)
  }

  predicate DeletingStrands(s: State, t: nat) {
    && t in s.tasks && !Busy(s, t) && Newest(s.runs, t) == 0
    && exists r :: 0 <= r <= |s.runs| && OnlyFrom(s, r, t) && RaisedByOthers(s, r, t)
  }

  /** The step leaves a parked task with nothing to wait for. Approving, denying or letting
      lapse the last request open does, and so does a reply to it if another task filed it.
      Retiring that other task cancels the requests it filed, deleting it removes them. And a
      standing grant answers a request at once. */
  predicate Strands(s: State, step: Step) {
    s.booted &&
    match step
    case Approve(q, _) => LastOpen(s, q)
    case Deny(q) => LastOpen(s, q)
    case Expire(q) => LastOpen(s, q)
    case Respond(q) => LastOpen(s, q) && s.requests[q].task != s.runs[s.requests[q].run - 1].task
    case CreateRequest(t, r, k) => t in s.tasks && PreApproved(s, r, k) && ParkedRun(s, r) && !Waiting(s, r)
    case CompleteTask(t) => RetiringStrands(s, t)
    case DismissTask(t) => RetiringStrands(s, t)
    case MoveTask(t, to) => MoveAllowed(s, t, to) && (to.Done? || to.Dismissed?) && RetiringStrands(s, t)
    case DeleteTask(t) => DeletingStrands(s, t)
    case _ => false
  }

  // ---------------------------------------------------------------- steps that keep it

  /** Every run parked in `s'` was parked before, has raised nothing new, and waits still. */
  lemma ParkedFrame(s: State, s': State)
    requires Parked(s)
    requires forall r :: ParkedRun(s', r) ==>
      ParkedRun(s, r) && (Raised(s', r) ==> Raised(s, r)) && (Waiting(s, r) ==> Waiting(s', r))
    ensures Parked(s')
  {
    forall r | 0 <= r <= |s'.runs| && ParkedRun(s', r)
      ensures SomethingOpen(s', r)
    {
      assert SomethingOpen(s, r);
    }
  }

  predicate SameRunTasks(s: State, s': State) {
    |s'.runs| == |s.runs| && forall i :: 0 <= i < |s.runs| ==> s'.runs[i].task == s.runs[i].task
  }

  lemma StillParked(s: State, s': State, r: nat)
    requires SameRunTasks(s, s') && NoNewAwaiting(s, s') && ParkedRun(s', r)
    ensures ParkedRun(s, r)
  {
    assert Newest(s.runs, s.runs[r - 1].task) == Newest(s'.runs, s'.runs[r - 1].task);
  }

  /** Steps that leave every request alone. */
  lemma QuietFrame(s: State, s': State)
    requires Parked(s) && SameRunTasks(s, s') && NoNewAwaiting(s, s') && s'.requests == s.requests
    ensures Parked(s')
  {
    forall r | ParkedRun(s', r)
      ensures ParkedRun(s, r)
    {
      StillParked(s, s', r);
    }
    ParkedFrame(s, s');
  }

  lemma BeginKeepsParked(cfg: Config, s: State, t: nat, fails: bool)
    requires Core(s) && Parked(s)
    ensures Parked(DoBegin(cfg, s, t, fails))
  {
    var s' := DoBegin(cfg, s, t, fails);
    if IsLaunched(s, t) && t in s.tasks {
      NewestPush(s.runs, s'.runs[|s.runs|]);
      assert s'.requests == s.requests;
      ParkedFrame(s, s');
    } else {
      QuietFrame(s, s');
    }
  }

  lemma ClassifyKeepsParked(s: State, t: nat, err: InvokeError, waiting: bool, text: bool)
    requires Core(s) && Parked(s)
    ensures Parked(DoClassify(s, t, err, waiting, text))
  {
    if IsWorking(s, t) && s.inflight[t].phase.invoked {
      var r := s.inflight[t].phase.run;
      assert LiveOk(s, t);
      assert RunOk(s, r - 1);
      ClassifyKeepsRequests(s, t, err, waiting, text);
      ClassifyParks(s, t, err, waiting, text);
      ParkingKeepsParked(s, DoClassify(s, t, err, waiting, text), t, r);
    }
  }

  lemma ParkingKeepsParked(s: State, s': State, t: nat, r: nat)
    requires Parked(s) && SameRunTasks(s, s') && s'.requests == s.requests
    requires t in s.tasks && t in s'.tasks && s'.tasks == s.tasks[t := s'.tasks[t]]
    requires Newest(s.runs, t) == r && (s'.tasks[t].status.AwaitingHuman? ==> SomethingOpen(s, r))
    ensures Parked(s')
  {
    forall k | 0 <= k <= |s'.runs| && ParkedRun(s', k)
      ensures SomethingOpen(s', k)
    {
      StillOpen(s, s', t, r, k);
    }
  }

  lemma StillOpen(s: State, s': State, t: nat, r: nat, k: nat)
    requires Parked(s) && SameRunTasks(s, s') && s'.requests == s.requests
    requires t in s.tasks && t in s'.tasks && s'.tasks == s.tasks[t := s'.tasks[t]]
    requires Newest(s.runs, t) == r && (s'.tasks[t].status.AwaitingHuman? ==> SomethingOpen(s, r))
    requires k <= |s'.runs| && ParkedRun(s', k)
    ensures SomethingOpen(s', k)
  {
    assert Newest(s'.runs, s'.runs[k - 1].task) == Newest(s.runs, s.runs[k - 1].task);
    if s.runs[k - 1].task != t {
      assert ParkedRun(s, k);
    } else {
      assert k == r;
    }
    assert SomethingOpen(s, k);
  }

  lemma SuccessParks(s: State, t: nat, p: Phase, cause: Cause, waiting: bool, text: bool)
    requires p.Working? && 1 <= p.run <= |s.runs| && t in s.tasks
    ensures var s' := Settle(s, t, p, cause, NoError, waiting, text);
      && SameRunTasks(s, s') && t in s'.tasks && s'.tasks == s.tasks[t := s'.tasks[t]]
      && (s'.tasks[t].status.AwaitingHuman? ==> SomethingOpen(s, p.run))
  {
    SuccessSettles(s, t, p, cause, waiting, text);
  }

  lemma FailureParksNothing(s: State, t: nat, p: Phase, cause: Cause, err: InvokeError, waiting: bool, text: bool)
    requires p.Working? && 1 <= p.run <= |s.runs| && t in s.tasks && !err.NoError?
    ensures var s' := Settle(s, t, p, cause, err, waiting, text);
      && SameRunTasks(s, s') && t in s'.tasks && s'.tasks == s.tasks[t := s'.tasks[t]]
      && !s'.tasks[t].status.AwaitingHuman?
  {
    FailureSettles(s, t, p, cause, err, waiting, text);
  }

  /** A classification parks its task only while the run has nothing to wait for in vain. */
  lemma ClassifyParks(s: State, t: nat, err: InvokeError, waiting: bool, text: bool)
    requires IsWorking(s, t) && s.inflight[t].phase.invoked && t in s.tasks
    ensures var s' := DoClassify(s, t, err, waiting, text);
      && SameRunTasks(s, s') && t in s'.tasks && s'.tasks == s.tasks[t := s'.tasks[t]]
      && (s'.tasks[t].status.AwaitingHuman? ==> SomethingOpen(s, s.inflight[t].phase.run))
  {
    var l := s.inflight[t];
    if err.NoError? {
      SuccessParks(s, t, l.phase, l.cause, waiting, text);
    } else {
      FailureParksNothing(s, t, l.phase, l.cause, err, waiting, text);
    }
  }

  lemma GoroutinesKeepParked(cfg: Config, s: State, step: Step)
    requires Core(s) && s.booted && Parked(s) && GoroutineStep(step)
    ensures Parked(Next(cfg, s, step))
  {
    if step.Begin? {
      BeginKeepsParked(cfg, s, step.t, step.preflightFails);
    } else if step.Classify? {
      ClassifyKeepsParked(s, step.t, step.err, step.waiting, step.text);
    } else {
      Frames.MinorSteps(cfg, s, step);
      MinorKeepsParked(s, Next(cfg, s, step), step.t);
    }
  }

  lemma MinorKeepsParked(s: State, s': State, t: nat)
    requires Parked(s) && Frames.Minor(s, s', t)
    ensures Parked(s')
  {
    QuietFrame(s, s');
  }

  lemma {:induction false} BurialFrame(s: State, k: nat)
    requires k <= |s.runs|
    ensures SameRunTasks(s, BuryOrphans(s, k)) && NoNewAwaiting(s, BuryOrphans(s, k))
    decreases k
  {
    if k > 0 {
      var r := s.runs[k - 1];
      BurialFrame(
        if Orphan(s, k - 1)
        then SetStatus(FinishRun(s, k, Errored), r.task, TaskStatusAfterInterruption(r.session != "")) else s,
        k - 1);
    }
  }

  lemma SchedulerKeepsParked(cfg: Config, s: State, step: Step)
    requires Parked(s) && SchedulerStep(step) && (s.booted || step.Reconcile? || step.Crash?)
    ensures Parked(Next(cfg, s, step))
  {
    if step.Reconcile? {
      BurialKeepsRequests(s, |s.runs|);
      BurialFrame(s, |s.runs|);
      QuietFrame(s, DoReconcile(s));
    } else if step.Crash? {
      LiveFlagsKeepParked(s, DoCrash(s));
    } else {
      Frames.SchedulerSteps(cfg, s, step);
      QuietFrame(s, Next(cfg, s, step));
    }
  }

  /** Whether a poll is live is no matter. */
  lemma LiveFlagsKeepParked(s: State, s': State)
    requires Parked(s) && s'.runs == s.runs && s'.tasks == s.tasks && s'.requests.Keys == s.requests.Keys
    requires forall q :: q in s.requests ==>
      s'.requests[q].run == s.requests[q].run && s'.requests[q].status == s.requests[q].status
    ensures Parked(s')
  {
    forall r | ParkedRun(s', r)
      ensures ParkedRun(s, r) && (Raised(s', r) ==> Raised(s, r)) && (Waiting(s, r) ==> Waiting(s', r))
    {
      if Waiting(s, r) {
        var q :| q in s.requests && s.requests[q].run == r && s.requests[q].status.Pending?;
        assert s'.requests[q].status.Pending?;
      }
    }
    ParkedFrame(s, s');
  }

  /** The user's steps that neither retire nor delete a task. */
  predicate PlainStep(step: Step) {
    && !GoroutineStep(step) && !SchedulerStep(step) && !RequestStep(step)
    && !step.DeleteTask? && !step.CompleteTask? && !step.DismissTask?
    && (step.MoveTask? ==> !step.to.Done? && !step.to.Dismissed?)
  }

  lemma EditingKeepsParked(s: State, s': State, t: nat)
    requires Parked(s) && Frames.Editing(s, s', t)
    ensures Parked(s')
  {
    QuietFrame(s, s');
  }

  lemma CommentingKeepsParked(s: State, s': State, t: nat)
    requires Parked(s) && Frames.Commenting(s, s', t)
    ensures Parked(s')
  {
    QuietFrame(s, s');
  }

  lemma PlainStepKeepsParked(s: State, step: Step)
    requires Core(s) && s.booted && Parked(s) && PlainStep(step)
    ensures Parked(UserNext(s, step))
  {
    match step
    case CreateTask(b, a) =>
      QuietFrame(s, DoCreateTask(s, b, a));
    case UpdateTask(t, a) =>
      Frames.UpdateEdits(s, t, a);
      EditingKeepsParked(s, DoUpdateTask(s, t, a), t);
    case ReorderTasks(o) =>
      QuietFrame(s, s.(order := o));
    case PauseTask(t) =>
      Frames.PauseEdits(s, t);
      EditingKeepsParked(s, DoPause(s, t), t);
    case ResumeTask(t) =>
      Frames.ResumeEdits(s, t);
      EditingKeepsParked(s, DoResume(s, t), t);
    case MoveTask(t, to) =>
      Frames.MoveEdits(s, t, to);
      EditingKeepsParked(s, DoMove(s, t, to), t);
    case AddComment(t) =>
      Frames.AddCommentComments(s, t);
      CommentingKeepsParked(s, DoAddComment(s, t), t);
    case CancelRun(r) =>
      CancelRunSignals(s, r);
      QuietFrame(s, DoCancelRun(s, r));
  }

  // ---------------------------------------------------------------- filing a request

  lemma FilingParksIff(s: State, t: nat, r: nat, kind: Kind)
    requires Core(s) && s.booted && Parked(s)
    ensures Parked(DoCreateRequest(s, t, r, kind)) <==> !Strands(s, CreateRequest(t, r, kind))
  {
    if t in s.tasks {
      forall q | q in s.requests
        ensures q != s.nextRequest
      {
        assert RequestOk(s, q);
      }
      var row := Request(t, r, kind, if PreApproved(s, r, kind) then Answered else Pending, false, 0);
      if Strands(s, CreateRequest(t, r, kind)) {
        GrantStrands(s, DoCreateRequest(s, t, r, kind), row);
      } else {
        FilingKeepsParked(s, DoCreateRequest(s, t, r, kind), row);
      }
    }
  }

  /** Request `row` is filed. */
  predicate Files(s: State, s': State, row: Request) {
    && s.nextRequest !in s.requests
    && s' == s.(requests := s.requests[s.nextRequest := row], nextRequest := s.nextRequest + 1)
  }

  lemma FilingKeepsParked(s: State, s': State, row: Request)
    requires Parked(s) && Files(s, s', row)
    requires ParkedRun(s, row.run) ==> row.status.Pending? || Waiting(s, row.run)
    ensures Parked(s')
  {
    forall k | 0 <= k <= |s'.runs| && ParkedRun(s', k)
      ensures SomethingOpen(s', k)
    {
      assert ParkedRun(s, k) && SomethingOpen(s, k);
      if Waiting(s, k) {
        var w :| w in s.requests && s.requests[w].run == k && s.requests[w].status.Pending?;
        assert s'.requests[w] == s.requests[w];
      } else if k == row.run {
        assert s'.requests[s.nextRequest].status.Pending?;
      }
    }
  }

  lemma GrantStrands(s: State, s': State, row: Request)
    requires Files(s, s', row) && ParkedRun(s, row.run) && !Waiting(s, row.run) && !row.status.Pending?
    ensures !Parked(s')
  {
    assert s'.requests[s.nextRequest].run == row.run && Raised(s', row.run);
    forall p | p in s'.requests && s'.requests[p].run == row.run
      ensures !s'.requests[p].status.Pending?
    {
      assert p != s.nextRequest ==> s'.requests[p] == s.requests[p];
    }
    assert ParkedRun(s', row.run) && !SomethingOpen(s', row.run);
  }

  // ---------------------------------------------------------------- settling a request

  /** Request `q` is settled, and at most the task that filed it moves. */
  predicate Settles(s: State, s': State, q: nat) {
    && IsPending(s, q) && q in s'.requests && s'.runs == s.runs
    && s'.requests == s.requests[q := s'.requests[q]]
    && s'.requests[q].run == s.requests[q].run && !s'.requests[q].status.Pending?
    && (s'.tasks == s.tasks
        || (s.requests[q].task in s'.tasks && !s'.tasks[s.requests[q].task].status.AwaitingHuman?
            && s'.tasks == s.tasks[s.requests[q].task := s'.tasks[s.requests[q].task]]))
  }

  /** The settled request's run is not parked any more, or it waits for something else. */
  lemma SettlingKeepsParked(s: State, s': State, q: nat)
    requires Parked(s) && Settles(s, s', q)
    requires ParkedRun(s', s.requests[q].run) ==> OtherOpen(s, q)
    ensures Parked(s')
  {
    forall r | ParkedRun(s', r)
      ensures ParkedRun(s, r) && (Raised(s', r) ==> Raised(s, r)) && (Waiting(s, r) ==> Waiting(s', r))
    {
      if Raised(s', r) {
        var p :| p in s'.requests && s'.requests[p].run == r;
        assert s.requests[p].run == r;
      }
      if Waiting(s, r) {
        var w :| w in s.requests && s.requests[w].run == r && s.requests[w].status.Pending? && w != q;
        assert s'.requests[w] == s.requests[w];
      }
    }
    ParkedFrame(s, s');
  }

  lemma SettlingStrands(s: State, s': State, q: nat)
    requires Settles(s, s', q) && LastOpen(s, q) && ParkedRun(s', s.requests[q].run)
    ensures !Parked(s')
  {
    var r := s.requests[q].run;
    assert s'.requests[q].run == r && Raised(s', r);
    forall p | p in s'.requests && s'.requests[p].run == r
      ensures !s'.requests[p].status.Pending?
    {
      assert p != q ==> s'.requests[p] == s.requests[p];
    }
    assert !SomethingOpen(s', r);
  }

  lemma SettlingParksIff(s: State, s': State, q: nat)
    requires Parked(s) && Settles(s, s', q) && s'.tasks == s.tasks
    ensures Parked(s') <==> !LastOpen(s, q)
  {
    assert ParkedRun(s', s.requests[q].run) <==> ParkedRun(s, s.requests[q].run);
    if LastOpen(s, q) {
      SettlingStrands(s, s', q);
    } else {
      SettlingKeepsParked(s, s', q);
    }
  }

  /** A reply re-queues the task that filed the request, if that task is parked. So it strands
      a task exactly when it settles the last request open of a run of another task. */
  lemma ReplyParksIff(s: State, q: nat)
    requires Core(s) && s.booted && Parked(s)
    ensures Parked(DoRespond(s, q)) <==> !Strands(s, Respond(q))
  {
    if IsPending(s, q) {
      assert RequestOk(s, q);
      Frames.RespondResponds(s, q);
      RespondingParksIff(s, DoRespond(s, q), q);
    }
  }

  lemma RespondingParksIff(s: State, s': State, q: nat)
    requires Parked(s) && IsPending(s, q) && s.requests[q].task in s.tasks && Frames.Responding(s, s', q)
    ensures Parked(s') <==> !(LastOpen(s, q) && s.requests[q].task != s.runs[s.requests[q].run - 1].task)
  {
    var r := s.requests[q].run;
    assert Settles(s, s', q);
    assert ParkedRun(s', r) <==> ParkedRun(s, r) && s.runs[r - 1].task != s.requests[q].task;
    if ParkedRun(s', r) && !OtherOpen(s, q) {
      SettlingStrands(s, s', q);
    } else {
      SettlingKeepsParked(s, s', q);
    }
  }

  lemma SettleParksIff(s: State, q: nat, st: RequestStatus)
    requires Parked(s) && !st.Pending?
    ensures Parked(DoSettle(s, q, st)) <==> !LastOpen(s, q)
  {
    if IsPending(s, q) {
      SettlingParksIff(s, DoSettle(s, q, st), q);
    }
  }

  lemma ApproveParksIff(s: State, q: nat, wholeRun: bool)
    requires Parked(s)
    ensures Parked(DoApprove(s, q, wholeRun)) <==> !LastOpen(s, q)
  {
    if IsPending(s, q) {
      SettlingParksIff(s, DoApprove(s, q, wholeRun), q);
    }
  }

  /** An approval, a denial or an expiry strands a task exactly when it settles the last request
      open of a parked run. */
  lemma SettlingStepParksIff(s: State, step: Step)
    requires s.booted && Parked(s) && (step.Approve? || step.Deny? || step.Expire?)
    ensures Parked(RequestNext(s, step)) <==> !Strands(s, step)
  {
    match step
    case Approve(q, w) => ApproveParksIff(s, q, w);
    case Deny(q) => SettleParksIff(s, q, Denied);
    case Expire(q) => SettleParksIff(s, q, Expired);
  }

  lemma SetLiveKeepsParked(s: State, q: nat, live: bool)
    requires Parked(s)
    ensures Parked(DoSetLive(s, q, live))
  {
    LiveFlagsKeepParked(s, DoSetLive(s, q, live));
  }

  lemma RequestStepParksIff(s: State, step: Step)
    requires Core(s) && s.booted && Parked(s) && RequestStep(step)
    ensures Parked(RequestNext(s, step)) <==> !Strands(s, step)
  {
    if step.CreateRequest? {
      FilingParksIff(s, step.t, step.r, step.kind);
    } else if step.Respond? {
      ReplyParksIff(s, step.q);
    } else if step.SetLive? {
      SetLiveKeepsParked(s, step.q, step.live);
    } else {
      SettlingStepParksIff(s, step);
    }
  }

  // ---------------------------------------------------------------- retiring and deleting a task

  /** The pending requests `t` filed are cancelled, or all it filed are gone; `t` itself is not
      parked afterwards, and the other tasks stay as they are. */
  predicate Withdraws(s: State, s': State, t: nat) {
    && s'.runs == s.runs && (t in s'.tasks ==> !s'.tasks[t].status.AwaitingHuman?)
    && (forall u :: u in s.tasks && u != t ==> u in s'.tasks && s'.tasks[u] == s.tasks[u])
    && (forall u :: u in s'.tasks ==> u in s.tasks)
    && (forall q :: q in s'.requests ==> q in s.requests && s'.requests[q].run == s.requests[q].run)
    && (forall q :: q in s.requests && s.requests[q].task != t ==> q in s'.requests && s'.requests[q] == s.requests[q])
    && (forall q :: q in s'.requests && s.requests[q].task == t ==> !s'.requests[q].status.Pending?)
  }

  lemma ParkedElsewhere(s: State, s': State, t: nat, r: nat)
    requires Withdraws(s, s', t)
    ensures ParkedRun(s', r) <==> ParkedRun(s, r) && s.runs[r - 1].task != t
  {
  }

  /** Withdrawing strands no task that still waits for a request of another, nor one whose
      requests are all gone. */
  lemma WithdrawingKeepsParked(s: State, s': State, t: nat)
    requires Parked(s) && Withdraws(s, s', t)
    requires forall r :: 0 <= r <= |s.runs| && OnlyFrom(s, r, t) ==> !Raised(s', r)
    ensures Parked(s')
  {
    forall r | 0 <= r <= |s'.runs| && ParkedRun(s', r)
      ensures SomethingOpen(s', r)
    {
      ParkedElsewhere(s, s', t, r);
      assert SomethingOpen(s, r);
      if Raised(s', r) {
        var p :| p in s'.requests && s'.requests[p].run == r;
        assert s.requests[p].run == r && Raised(s, r) && !OnlyFrom(s, r, t);
        var q :| q in s.requests && s.requests[q].run == r && s.requests[q].status.Pending? && s.requests[q].task != t;
        assert s'.requests[q] == s.requests[q];
      }
    }
  }

  lemma WithdrawingStrands(s: State, s': State, t: nat, r: nat)
    requires Withdraws(s, s', t) && OnlyFrom(s, r, t) && Raised(s', r)
    ensures !Parked(s')
  {
    ParkedElsewhere(s, s', t, r);
    forall q | q in s'.requests && s'.requests[q].run == r
      ensures !s'.requests[q].status.Pending?
    {
      assert s.requests[q].task != t ==> s'.requests[q] == s.requests[q];
    }
    assert !SomethingOpen(s', r);
  }

  lemma RetireParksIff(s: State, t: nat, st: TaskStatus)
    requires Parked(s) && !st.AwaitingHuman?
    ensures Parked(DoRetire(s, t, st)) <==> !RetiringStrands(s, t)
  {
    var s' := DoRetire(s, t, st);
    if t in s.tasks && !Busy(s, t) {
      assert Withdraws(s, s', t);
      forall r | 0 <= r <= |s.runs| && OnlyFrom(s, r, t)
        ensures !Parked(s')
      {
        var q :| q in s.requests && s.requests[q].run == r && s.requests[q].status.Pending?;
        assert q in s'.requests && s'.requests[q].run == r;
        WithdrawingStrands(s, s', t, r);
      }
      if !RetiringStrands(s, t) {
        WithdrawingKeepsParked(s, s', t);
      }
    }
  }

  lemma DeleteParksIff(s: State, t: nat)
    requires Core(s) && Parked(s)
    ensures Parked(DoDeleteTask(s, t)) <==> !DeletingStrands(s, t)
  {
    var s' := DoDeleteTask(s, t);
    if t in s.tasks && !Busy(s, t) && Newest(s.runs, t) == 0 {
      assert Withdraws(s, s', t);
      forall r
        ensures Raised(s', r) <==> RaisedByOthers(s, r, t)
      {
        RaisedAfter(s, s', t, r);
      }
      if r :| 0 <= r <= |s.runs| && OnlyFrom(s, r, t) && RaisedByOthers(s, r, t) {
        WithdrawingStrands(s, s', t, r);
      } else {
        WithdrawingKeepsParked(s, s', t);
      }
    }
  }

  lemma RaisedAfter(s: State, s': State, t: nat, r: nat)
    requires s'.requests == map q | q in s.requests && s.requests[q].task != t :: s.requests[q]
    ensures Raised(s', r) <==> RaisedByOthers(s, r, t)
  {
    if q :| q in s.requests && s.requests[q].run == r && s.requests[q].task != t {
      assert s'.requests[q].run == r;
    }
    if q :| q in s'.requests && s'.requests[q].run == r {
      assert s.requests[q].run == r && s.requests[q].task != t;
    }
  }

  lemma UserStepParksIff(s: State, step: Step)
    requires Core(s) && s.booted && Parked(s) && !GoroutineStep(step) && !SchedulerStep(step) && !RequestStep(step)
    ensures Parked(UserNext(s, step)) <==> !Strands(s, step)
  {
    if step.DeleteTask? {
      DeleteParksIff(s, step.t);
    } else if step.CompleteTask? {
      RetireParksIff(s, step.t, Done);
    } else if step.DismissTask? {
      RetireParksIff(s, step.t, Dismissed);
    } else if step.MoveTask? && (step.to.Done? || step.to.Dismissed?) {
      RetireParksIff(s, step.t, step.to);
    } else {
      PlainStepKeepsParked(s, step);
    }
  }

  // ---------------------------------------------------------------- every step, every history

  /** The daemon's own steps strand no task. */
  lemma OwnStepKeepsParked(cfg: Config, s: State, step: Step)
    requires Core(s) && Parked(s) && (SchedulerStep(step) || GoroutineStep(step))
    ensures Parked(Next(cfg, s, step)) && !Strands(s, step)
  {
    if SchedulerStep(step) {
      if s.booted || step.Reconcile? || step.Crash? {
        SchedulerKeepsParked(cfg, s, step);
      }
    } else if s.booted {
      GoroutinesKeepParked(cfg, s, step);
    }
  }

  lemma CallParksIff(cfg: Config, s: State, step: Step)
    requires Core(s) && Parked(s) && !SchedulerStep(step) && !GoroutineStep(step)
    ensures Parked(Next(cfg, s, step)) <==> !Strands(s, step)
  {
    if s.booted {
      if RequestStep(step) {
        RequestStepParksIff(s, step);
      } else {
        UserStepParksIff(s, step);
      }
    }
  }

  /** From a state in which every parked task has something to wait for, a step leads to
      another exactly when it is none of those that strand one. */
  lemma StepParksIff(cfg: Config, s: State, step: Step)
    requires Core(s) && Parked(s)
    ensures Parked(Next(cfg, s, step)) <==> !Strands(s, step)
  {
    if SchedulerStep(step) || GoroutineStep(step) {
      OwnStepKeepsParked(cfg, s, step);
    } else {
      CallParksIff(cfg, s, step);
    }
  }

  /** At every moment of the history every parked task has something to wait for. */
  predicate AlwaysParked(cfg: Config, steps: seq<Step>) {
    Parked(After(cfg, steps)) && (steps != [] ==> AlwaysParked(cfg, steps[..|steps| - 1]))
  }

  predicate NothingStrands(cfg: Config, steps: seq<Step>) {
    steps != [] ==>
      && NothingStrands(cfg, steps[..|steps| - 1])
      && !Strands(After(cfg, steps[..|steps| - 1]), steps[|steps| - 1])
  }

  lemma {:induction false} ParkedIff(cfg: Config, steps: seq<Step>)
    ensures AlwaysParked(cfg, steps) <==> NothingStrands(cfg, steps)
  {
    if steps != [] {
      var n := |steps| - 1;
      ParkedIff(cfg, steps[..n]);
      if AlwaysParked(cfg, steps[..n]) {
        CoreAlways(cfg, steps[..n]);
        AlwaysEnds(cfg, steps[..n]);
        StepParksIff(cfg, After(cfg, steps[..n]), steps[n]);
      }
    }
  }

  lemma {:induction false} AlwaysEnds(cfg: Config, steps: seq<Step>)
    requires AlwaysParked(cfg, steps)
    ensures Parked(After(cfg, steps))
  {
  }

  /** So, while nothing strands one, a task waiting for a human has a newest run that asked
      nothing, or has a question still open. */
  lemma ParkedTasksHaveSomethingToWaitFor(cfg: Config, steps: seq<Step>, t: nat)
    requires NothingStrands(cfg, steps)
    requires t in After(cfg, steps).tasks && After(cfg, steps).tasks[t].status.AwaitingHuman?
    ensures !Stranded(After(cfg, steps), t)
  {
    ParkedIff(cfg, steps);
    AlwaysEnds(cfg, steps);
    ParkedIsNotStranded(After(cfg, steps), t);
  }

  lemma ParkedIsNotStranded(s: State, t: nat)
    requires Parked(s)
    ensures !Stranded(s, t)
  {
    var r := Newest(s.runs, t);
    if t in s.tasks && s.tasks[t].status.AwaitingHuman? && r > 0 {
      assert ParkedRun(s, r) && SomethingOpen(s, r);
    }
  }

  // ---------------------------------------------------------------- each kind of case happens

  /** `t` waits for a human, but everything its newest run asked is settled. */
  predicate Stranded(s: State, t: nat) {
    && t in s.tasks && s.tasks[t].status.AwaitingHuman?
    && var r := Newest(s.runs, t); r > 0 && Raised(s, r) && !Waiting(s, r)
  }

  /** A history after which every parked task has something to wait for, and after `how` one
      has not. */
  ghost predicate Strandable(cfg: Config, how: Step) {
    exists steps :: Parked(After(cfg, steps)) && !Parked(Next(cfg, After(cfg, steps), how))
  }

  lemma Reached(cfg: Config, p: seq<Step>, s: State, how: Step)
    requires s == After(cfg, p) && Parked(s) && Strands(s, how)
    ensures Strandable(cfg, how)
  {
    CoreAlways(cfg, p);
    StepParksIff(cfg, s, how);
  }

  function Asked(t: nat): Request { Request(t, 1, CaptureApproval, Pending, false, 0) }

  /** Run 1 is at work, beside a second task in the backlog. */
  function BesideAnother(): State {
    AtWork(true).(tasks := Only(TaskStatus.Running)[2 := Task(Backlog, 0, true)], order := [1, 2], nextTask := 3)
  }

  function Waits(s: State): State
    requires 1 in s.tasks
  {
    s.(tasks := s.tasks[1 := s.tasks[1].(status := AwaitingHuman)], runs := [FirstRun(Succeeded)],
       inflight := map[1 := Live(true, NoCause, Returned)])
  }

  lemma StartBesideAnother(cfg: Config) returns (p: seq<Step>)
    ensures After(cfg, p) == BesideAnother()
  {
    p := StartAndInvoke(cfg);
    Then(cfg, p, CreateTask(true, true), AtWork(true));
    p := p + [CreateTask(true, true)];
  }

  /** The run ends waiting. */
  lemma ParkIt(cfg: Config, p: seq<Step>, s: State) returns (p': seq<Step>)
    requires s == After(cfg, p) && s.booted && s.runs == [FirstRun(Executing)] && s.comments == map[] && 1 in s.tasks
    requires s.inflight == AtWork(true).inflight && !AnsweredInParkWindow(s, 1)
    ensures After(cfg, p') == Waits(s)
  {
    Then(cfg, p, Classify(1, NoError, true, false), s);
    p' := p + [Classify(1, NoError, true, false)];
  }

  /** Task `t` files a request under run 1, which ends waiting for it. */
  lemma AskAndPark(cfg: Config, p: seq<Step>, s: State, t: nat) returns (p': seq<Step>)
    requires s == After(cfg, p) && s == AtWork(true).(tasks := s.tasks, order := s.order, nextTask := s.nextTask)
    requires t in s.tasks && 1 in s.tasks
    ensures After(cfg, p') == Waits(s).(requests := map[1 := Asked(t)], nextRequest := 2)
  {
    Then(cfg, p, CreateRequest(t, 1, CaptureApproval), s);
    p' := p + [CreateRequest(t, 1, CaptureApproval)];
    var s1 := s.(requests := map[1 := Asked(t)], nextRequest := 2);
    assert s1.requests[1].run == 1 && Waiting(s1, 1);
    p' := ParkIt(cfg, p', s1);
  }

  /** Run 1 of task 1 is parked, and request `q`, filed by `t`, is all it waits for. */
  lemma OneOpen(s: State, q: nat, t: nat)
    requires s.runs == [FirstRun(Succeeded)] && 1 in s.tasks && s.tasks[1].status.AwaitingHuman?
    requires q in s.requests && s.requests[q] == Asked(t)
    requires forall p :: p in s.requests && p != q ==> !s.requests[p].status.Pending?
    ensures Parked(s) && LastOpen(s, q) && (t != 1 ==> OnlyFrom(s, 1, t))
  {
    assert Newest(s.runs, 1) == 1 && ParkedRun(s, 1);
    assert s.requests[q].run == 1 && Waiting(s, 1);
  }

  /** Approving, denying or letting lapse the only request of a parked run strands its task. */
  lemma SettlingStrandsTask(cfg: Config, how: Step)
    requires how in {Approve(1, false), Approve(1, true), Deny(1), Expire(1)}
    ensures Strandable(cfg, how)
  {
    var p := StartAndInvoke(cfg);
    p := AskAndPark(cfg, p, AtWork(true), 1);
    OneOpen(After(cfg, p), 1, 1);
    Reached(cfg, p, After(cfg, p), how);
  }

  /** And so does answering it, or retiring the task that filed it, if that is another one. */
  lemma ForeignRequestStrandsTask(cfg: Config, how: Step)
    requires how in {Respond(1), CompleteTask(2), DismissTask(2), MoveTask(2, Done), MoveTask(2, Dismissed)}
    ensures Strandable(cfg, how)
  {
    var p := StartBesideAnother(cfg);
    p := AskAndPark(cfg, p, BesideAnother(), 2);
    var s := Waits(BesideAnother()).(requests := map[1 := Asked(2)], nextRequest := 2);
    OneOpen(s, 1, 2);
    Reached(cfg, p, s, how);
  }

  /** Deleting the task that filed the last request open strands one that has asked before. */
  lemma DeletionStrandsTask(cfg: Config)
    ensures Strandable(cfg, DeleteTask(2))
  {
    var p := StartBesideAnother(cfg);
    var s1, s2, s3 := AskedTwice(cfg);
    Then(cfg, p, CreateRequest(1, 1, CaptureApproval), BesideAnother());
    p := p + [CreateRequest(1, 1, CaptureApproval)];
    Then(cfg, p, Deny(1), s1);
    p := p + [Deny(1)];
    Then(cfg, p, CreateRequest(2, 1, CaptureApproval), s2);
    p := p + [CreateRequest(2, 1, CaptureApproval)];
    p := ParkIt(cfg, p, s3);
    var s := Waits(s3);
    OneOpen(s, 2, 2);
    assert s.requests[1].run == 1 && s.requests[1].task != 2 && RaisedByOthers(s, 1, 2);
    Reached(cfg, p, s, DeleteTask(2));
  }

  /** Task `t` files a request under run 1. */
  function Filing(s: State, t: nat): State {
    s.(requests := s.requests[s.nextRequest := Asked(t)], nextRequest := s.nextRequest + 1)
  }

  lemma FileIt(cfg: Config, s: State, t: nat)
    requires s.booted && t in s.tasks && 1 !in s.grants
    ensures Next(cfg, s, CreateRequest(t, 1, CaptureApproval)) == Filing(s, t)
  {
  }

  /** Task 1 asks and is denied, then task 2 asks. */
  lemma AskedTwice(cfg: Config) returns (s1: State, s2: State, s3: State)
    ensures Next(cfg, BesideAnother(), CreateRequest(1, 1, CaptureApproval)) == s1
    ensures Next(cfg, s1, Deny(1)) == s2 && Next(cfg, s2, CreateRequest(2, 1, CaptureApproval)) == s3
    ensures s3 == BesideAnother().(requests := map[1 := Asked(1).(status := Denied), 2 := Asked(2)], nextRequest := 3)
    ensures !AnsweredInParkWindow(s3, 1)
  {
    FileIt(cfg, BesideAnother(), 1);
    s1 := Filing(BesideAnother(), 1);
    s2 := DoSettle(s1, 1, Denied);
    FileIt(cfg, s2, 2);
    s3 := Filing(s2, 2);
    assert s3.requests[2].run == 1 && Waiting(s3, 1);
    assert s3.requests == map[1 := Asked(1).(status := Denied), 2 := Asked(2)];
  }

  /** A grant outlives the request it was given on, if the task that filed that is deleted. */
  lemma GrantStrandsTask(cfg: Config)
    ensures Strandable(cfg, CreateRequest(1, 1, CaptureApproval))
  {
    var p := StartBesideAnother(cfg);
    var s1, s2, s3 := GrantOutlives(cfg);
    Then(cfg, p, CreateRequest(2, 1, CaptureApproval), BesideAnother());
    p := p + [CreateRequest(2, 1, CaptureApproval)];
    Then(cfg, p, Approve(1, true), s1);
    p := p + [Approve(1, true)];
    Then(cfg, p, DeleteTask(2), s2);
    p := p + [DeleteTask(2)];
    p := ParkIt(cfg, p, s3);
    assert Newest(Waits(s3).runs, 1) == 1 && ParkedRun(Waits(s3), 1);
    Reached(cfg, p, Waits(s3), CreateRequest(1, 1, CaptureApproval));
  }

  /** Task 2 asks, is granted the whole run, and is deleted. */
  lemma GrantOutlives(cfg: Config) returns (s1: State, s2: State, s3: State)
    ensures Next(cfg, BesideAnother(), CreateRequest(2, 1, CaptureApproval)) == s1
    ensures Next(cfg, s1, Approve(1, true)) == s2 && Next(cfg, s2, DeleteTask(2)) == s3
    ensures s3.booted && s3.runs == [FirstRun(Executing)] && s3.comments == map[] && s3.requests == map[]
    ensures s3.tasks == Only(TaskStatus.Running) && s3.inflight == AtWork(true).inflight && s3.grants == {1}
  {
    FileIt(cfg, BesideAnother(), 2);
    s1 := Filing(BesideAnother(), 2);
    s2 := DoApprove(s1, 1, true);
    Granting(s1);
    s3 := DoDeleteTask(s2, 2);
    DeleteSecond(s2);
  }

  lemma Granting(s: State)
    requires s == Filing(BesideAnother(), 2)
    ensures DoApprove(s, 1, true) == s.(requests := map[1 := Asked(2).(status := Answered)], grants := {1})
  {
  }

  lemma DeleteSecond(s: State)
    requires s.tasks.Keys == {1, 2} && !Busy(s, 2) && Newest(s.runs, 2) == 0 && s.comments == map[]
    requires s.requests.Keys == {1} && s.requests[1].task == 2
    ensures var s' := DoDeleteTask(s, 2);
      && s' == s.(tasks := s'.tasks, order := s'.order, comments := map[], requests := map[])
      && s'.tasks == map[1 := s.tasks[1]]
  {
    assert s.tasks - {2} == map[1 := s.tasks[1]];
  }
}
