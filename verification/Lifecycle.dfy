/** The task and run lifecycle as one state machine.

    The scheduler goroutine, one goroutine per run and the HTTP and MCP handlers all write
    the same tables and the same `inflight` map. Each constructor of `Step` is one atomic
    step of one of them; `Next` is its effect, and a step that is not enabled changes
    nothing. Planning and launching are separate steps, so anything may happen between
    them. */
module Lifecycle {
  import opened Domain
  import Policy

  datatype Config = Config(maxAttempts: nat, workers: int)

  /** Who wrote a comment: a user through the comment form, a human answering a request,
      whether or not the run was polling for the answer, or the agent reporting. Only the
      last is filtered out of launch prompts. */
  datatype Via = ByForm | ByReply(inBand: bool) | ByAgent

  /** `consumedBy` is 0 while unconsumed, a run id afterwards, and -1 when a reply was
      delivered in-band with no run to attribute it to. */
  datatype Comment = Comment(task: nat, via: Via, consumedBy: int)

  datatype Kind = Question | Demo | CaptureApproval
  datatype RequestStatus = Pending | Answered | Denied | Expired | Canceled
  datatype Request = Request(task: nat, run: nat, kind: Kind, status: RequestStatus, live: bool, response: nat)

  /** Why a run's context was cancelled; only the first cancellation counts. */
  datatype Cause = NoCause | SuspendCause | UserCause | ShutdownCause

  /** The task and run rows a plan was made from. They are copied, so they may be stale by
      the time the launch happens. `newest` is the task's newest run id at that moment. */
  datatype Candidate = Candidate(task: nat, resume: Option<Run>, attemptReset: nat, agentMode: bool, newest: nat)

  /** How far a run goroutine has come. `prior` is the session it set out to resume, `seen`
      the last session id its invocations announced. */
  datatype Phase =
    | Launched(c: Candidate)
    | Working(run: nat, prior: string, seen: string, invoked: bool, agentMode: bool)
    | Returned

  datatype Live = Live(manual: bool, cause: Cause, phase: Phase)

  /** One thing a plan told the daemon to do and that is not done yet. */
  datatype Ticket =
    | ToSuspend(task: nat)
    | ToFail(task: nat)
    | ToLaunch(c: Candidate)

  datatype State = State(
    tasks: map<nat, Task>, order: seq<nat>, nextTask: nat,
    runs: seq<Run>,
    comments: map<nat, Comment>, nextComment: nat,
    requests: map<nat, Request>, nextRequest: nat, grants: set<nat>,
    inflight: map<nat, Live>,
    todo: seq<Ticket>,       // the rest of the scheduler's current pass
    byHand: seq<Candidate>,  // manual launches planned but not started
    booted: bool)            // the daemon's first reconcile has run

  /** The parts of a scheduling input that do not come from the state. */
  datatype Reading = Reading(
    now: int, snapshot: Option<Policy.Snapshot>, sessionThreshold: real, weeklyThreshold: real,
    runTimeout: int, maxSnapshotAge: int, weeklyBackoffUntil: Option<int>)

  datatype InvokeError = NoError | RateLimitError | DeniedError | TimeoutError | OtherError

  datatype Step =
    // users
    | CreateTask(backlog: bool, agentMode: bool)
    | UpdateTask(t: nat, newMode: Option<bool>)
    | DeleteTask(t: nat)
    | ReorderTasks(order: seq<nat>)
    | PauseTask(t: nat)
    | ResumeTask(t: nat)
    | CompleteTask(t: nat)
    | DismissTask(t: nat)
    | MoveTask(t: nat, to: TaskStatus)
    | AddComment(t: nat)
    | CancelRun(r: nat)
    // human requests
    | CreateRequest(t: nat, r: nat, kind: Kind)
    | Respond(q: nat)
    | Approve(q: nat, wholeRun: bool)
    | Deny(q: nat)
    | Expire(q: nat)
    | SetLive(q: nat, live: bool)
    // the scheduler
    | PlanPass(reading: Reading, running: seq<nat>)
    | PerformNext
    | RunNow(t: nat, claudeFound: bool, reading: Reading, running: seq<nat>)
    | LaunchByHand(k: nat)
    | Reconcile
    | Shutdown
    | Crash
    // one run goroutine
    | Begin(t: nat, preflightFails: bool)
    | TokenFailure(t: nat)
    | Invoke(t: nat)
    | AutoContinue(t: nat)
    | SessionSeen(t: nat, id: string)
    | RestartFresh(t: nat)
    | Classify(t: nat, err: InvokeError, waiting: bool, text: bool)
    | Exit(t: nat)

  // ---------------------------------------------------------------- the tables

  /** The newest run id of task `t`, 0 if it never ran. */
  function Newest(runs: seq<Run>, t: nat): (n: nat)
    ensures n <= |runs|
    ensures n > 0 ==> runs[n - 1].task == t
    ensures forall i :: n <= i < |runs| ==> runs[i].task != t
  {
    if runs == [] then 0
    else if runs[|runs| - 1].task == t then |runs|
    else Newest(runs[..|runs| - 1], t)
  }

  function LatestRun(runs: seq<Run>, t: nat): Option<Run> {
    var n := Newest(runs, t);
    if n == 0 then None else Some(runs[n - 1])
  }

  predicate HasSession(runs: seq<Run>, t: nat) {
    var n := Newest(runs, t);
    n > 0 && runs[n - 1].session != ""
  }

  /** The newest run recorded a session and stopped short: what `AddComment` and
      `ResumeTask` ask before they offer a resume. */
  predicate CanResume(runs: seq<Run>, t: nat) {
    HasSession(runs, t) && Interrupted(runs[Newest(runs, t) - 1].status)
  }

  function SetStatus(s: State, t: nat, st: TaskStatus): State {
    if t in s.tasks then s.(tasks := s.tasks[t := s.tasks[t].(status := st)]) else s
  }

  function ResetAttempts(s: State, t: nat): State {
    if t in s.tasks then
      var n := Newest(s.runs, t);
      var was := s.tasks[t].attemptReset;
      s.(tasks := s.tasks[t := s.tasks[t].(attemptReset := if n > was then n else was)])
    else s
  }

  function SetRun(s: State, r: nat, row: Run): State
    requires 1 <= r <= |s.runs|
  {
    s.(runs := s.runs[r - 1 := row])
  }

  function FinishRun(s: State, r: nat, st: RunStatus): State
    requires 1 <= r <= |s.runs|
  {
    SetRun(s, r, s.runs[r - 1].(status := st))
  }

  function InsertRun(s: State, t: nat, session: string, st: RunStatus, attempt: nat, prompt: set<nat>): State {
    s.(runs := s.runs + [Run(|s.runs| + 1, t, session, st, attempt, prompt, s.nextComment)])
  }

  function InsertComment(s: State, t: nat, via: Via, consumedBy: int): State {
    s.(comments := s.comments[s.nextComment := Comment(t, via, consumedBy)], nextComment := s.nextComment + 1)
  }

  function ConsumeComments(s: State, t: nat, r: nat): State {
    s.(comments := map c | c in s.comments ::
      if s.comments[c].task == t && s.comments[c].consumedBy == 0
      then s.comments[c].(consumedBy := r) else s.comments[c])
  }

  /** The comments a launch prompt carries: unconsumed and not the agent's own. */
  function FollowUps(s: State, t: nat): set<nat> {
    set c | c in s.comments && s.comments[c].task == t && s.comments[c].consumedBy == 0
            && !s.comments[c].via.ByAgent?
  }

  function CancelRequests(s: State, t: nat): State {
    s.(requests := map q | q in s.requests ::
      if s.requests[q].task == t && s.requests[q].status.Pending?
      then s.requests[q].(status := Canceled) else s.requests[q])
  }

  predicate Raised(s: State, r: nat) {
    exists q :: q in s.requests && s.requests[q].run == r
  }

  predicate Waiting(s: State, r: nat) {
    exists q :: q in s.requests && s.requests[q].run == r && s.requests[q].status.Pending?
  }

  // ---------------------------------------------------------------- users

  predicate Busy(s: State, t: nat) {
    t in s.inflight || (t in s.tasks && s.tasks[t].status.Running?)
  }

  /** Back in the queue with a fresh attempt budget: from the session when it can be. */
  function Requeue(s: State, t: nat, fromSession: bool): State {
    ResetAttempts(SetStatus(s, t, if fromSession then Resumable else Queued), t)
  }

  function Retire(s: State, t: nat, st: TaskStatus): State {
    SetStatus(CancelRequests(s, t), t, st)
  }

  /** The targets a user may move a task to. */
  predicate UserTarget(to: TaskStatus) {
    to in {Queued, Backlog, Paused, Done, Dismissed, Failed, Resumable}
  }

  function DoCreateTask(s: State, backlog: bool, agentMode: bool): State {
    s.(tasks := s.tasks[s.nextTask := Task(if backlog then Backlog else Queued, 0, agentMode)],
       order := s.order + [s.nextTask], nextTask := s.nextTask + 1)
  }

  function DoUpdateTask(s: State, t: nat, agentMode: Option<bool>): State {
    if t !in s.tasks then s
    else
      var row := if agentMode.Some? then s.tasks[t].(agentMode := agentMode.value) else s.tasks[t];
      ResetAttempts(s.(tasks := s.tasks[t := row]), t)
  }

  /** Run rows reference their task without cascading, so a task that ever ran cannot be
      deleted; comments and requests go with it. */
  function DoDeleteTask(s: State, t: nat): State {
    if t !in s.tasks || Busy(s, t) || Newest(s.runs, t) > 0 then s
    else s.(tasks := s.tasks - {t},
            order := Without(s.order, t),
            comments := map c | c in s.comments && s.comments[c].task != t :: s.comments[c],
            requests := map q | q in s.requests && s.requests[q].task != t :: s.requests[q])
  }

  function Without(xs: seq<nat>, x: nat): (ys: seq<nat>)
    ensures forall y :: y in ys <==> y in xs && y != x
    ensures Distinct(xs) ==> Distinct(ys)
  {
    if xs == [] then []
    else
      var front := Without(xs[..|xs| - 1], x);
      var last := xs[|xs| - 1];
      assert xs == xs[..|xs| - 1] + [last];
      assert Distinct(xs) ==> last !in front;
      if last == x then front else front + [last]
  }

  predicate Distinct(xs: seq<nat>) {
    forall i, j :: 0 <= i < j < |xs| ==> xs[i] != xs[j]
  }

  predicate Lists(xs: seq<nat>, keys: set<nat>) {
    Distinct(xs) && (forall x :: x in xs ==> x in keys) && (forall k :: k in keys ==> k in xs)
  }

  function DoPause(s: State, t: nat): State {
    if t in s.tasks && Schedulable(s.tasks[t].status) then SetStatus(s, t, Paused) else s
  }

  function DoResume(s: State, t: nat): State {
    if t in s.tasks && s.tasks[t].status.Paused? then Requeue(s, t, CanResume(s.runs, t)) else s
  }

  function DoRetire(s: State, t: nat, st: TaskStatus): State {
    if t !in s.tasks || Busy(s, t) then s else Retire(s, t, st)
  }

  function MoveTarget(s: State, t: nat, to: TaskStatus): TaskStatus
    requires t in s.tasks
  {
    if s.tasks[t].status.Backlog? && to.Queued? && HasSession(s.runs, t) then Resumable else to
  }

  predicate MoveAllowed(s: State, t: nat, to: TaskStatus) {
    t in s.tasks && !Busy(s, t) && UserTarget(to) && (to.Resumable? ==> HasSession(s.runs, t))
  }

  function DoMove(s: State, t: nat, to: TaskStatus): State {
    if !MoveAllowed(s, t, to) then s
    else if to.Done? || to.Dismissed? then Retire(s, t, to)
    else
      var final := MoveTarget(s, t, to);
      var moved := SetStatus(s, t, final);
      if Schedulable(final) then ResetAttempts(moved, t) else moved
  }

  function DoAddComment(s: State, t: nat): State {
    if t !in s.tasks || Busy(s, t) then s
    else
      var s1 := InsertComment(s, t, ByForm, 0);
      if s.tasks[t].status.Backlog? then s1 else Requeue(s1, t, CanResume(s.runs, t))
  }

  function CancelLive(s: State, t: nat, cause: Cause): State {
    if t in s.inflight && s.inflight[t].cause.NoCause?
    then s.(inflight := s.inflight[t := s.inflight[t].(cause := cause)]) else s
  }

  /** How many of the newest runs `CancelRun` looks through. */
  const CANCEL_WINDOW := 1000

  predicate Listed(s: State, r: nat) {
    1 <= r <= |s.runs| && |s.runs| - r < CANCEL_WINDOW
  }

  function DoCancelRun(s: State, r: nat): State {
    if !Listed(s, r) || !Active(s.runs[r - 1].status) then s
    else
      var t := s.runs[r - 1].task;
      if t in s.inflight then CancelLive(s, t, UserCause)
      else SetStatus(FinishRun(s, r, Abandoned), t, Paused)
  }

  // ---------------------------------------------------------------- human requests

  function SettleRequest(s: State, q: nat, st: RequestStatus): State
    requires q in s.requests
  {
    s.(requests := s.requests[q := s.requests[q].(status := st)])
  }

  predicate IsPending(s: State, q: nat) {
    q in s.requests && s.requests[q].status.Pending?
  }

  predicate PreApproved(s: State, r: nat, kind: Kind) {
    kind.CaptureApproval? && r != 0 && r in s.grants
  }

  function DoCreateRequest(s: State, t: nat, r: nat, kind: Kind): State {
    if t !in s.tasks then s
    else
      var st := if PreApproved(s, r, kind) then Answered else Pending;
      s.(requests := s.requests[s.nextRequest := Request(t, r, kind, st, false, 0)], nextRequest := s.nextRequest + 1)
  }

  /** The reply is recorded; handed over in-band it counts as read. */
  function Reply(s: State, q: nat): State
    requires q in s.requests
  {
    var req := s.requests[q];
    var reader := if !req.live then 0 else if req.run == 0 then -1 else req.run;
    InsertComment(s, req.task, ByReply(req.live), reader).(
      requests := s.requests[q := req.(status := Answered, response := s.nextComment)])
  }

  function Unpark(s: State, t: nat): State {
    if t in s.tasks && s.tasks[t].status.AwaitingHuman? then Requeue(s, t, HasSession(s.runs, t)) else s
  }

  function DoRespond(s: State, q: nat): State {
    if IsPending(s, q) then Unpark(Reply(s, q), s.requests[q].task) else s
  }

  function DoApprove(s: State, q: nat, wholeRun: bool): State {
    if !IsPending(s, q) then s
    else
      var r := s.requests[q].run;
      SettleRequest(s.(grants := if wholeRun && r != 0 then s.grants + {r} else s.grants), q, Answered)
  }

  function DoSettle(s: State, q: nat, st: RequestStatus): State {
    if IsPending(s, q) then SettleRequest(s, q, st) else s
  }

  /** A long poll goes live only on a pending request; it may end at any time. */
  function DoSetLive(s: State, q: nat, live: bool): State {
    if q !in s.requests || (live && !s.requests[q].status.Pending?) then s
    else s.(requests := s.requests[q := s.requests[q].(live := live)])
  }

  // ---------------------------------------------------------------- the scheduler

  function ResumeCandidate(s: State, t: nat): Candidate
    requires t in s.tasks
  {
    Candidate(t, LatestRun(s.runs, t), s.tasks[t].attemptReset, s.tasks[t].agentMode, Newest(s.runs, t))
  }

  function QueuedCandidate(s: State, t: nat): Candidate
    requires t in s.tasks
  {
    Candidate(t, None, s.tasks[t].attemptReset, s.tasks[t].agentMode, Newest(s.runs, t))
  }

  predicate Offered(s: State, t: nat) {
    t in s.tasks && s.tasks[t].status.Resumable? && HasSession(s.runs, t)
  }

  /** `ResumableRuns`, in queue order. */
  function Resumables(s: State, order: seq<nat>): (cs: seq<Candidate>)
    ensures forall t :: t in order && Offered(s, t) ==> ResumeCandidate(s, t) in cs
    ensures forall c :: c in cs ==> c.task in order && Offered(s, c.task) && c == ResumeCandidate(s, c.task)
  {
    if order == [] then []
    else
      var t := order[|order| - 1];
      var front := Resumables(s, order[..|order| - 1]);
      assert order == order[..|order| - 1] + [t];
      if Offered(s, t) then front + [ResumeCandidate(s, t)] else front
  }

  /** `QueuedTasksByOrder`. */
  function QueuedTasks(s: State, order: seq<nat>): (cs: seq<Candidate>)
    ensures forall t :: t in order && t in s.tasks && s.tasks[t].status.Queued? ==> QueuedCandidate(s, t) in cs
    ensures forall c :: c in cs ==>
      c.task in order && c.task in s.tasks && s.tasks[c.task].status.Queued? && c == QueuedCandidate(s, c.task)
  {
    if order == [] then []
    else
      var t := order[|order| - 1];
      var front := QueuedTasks(s, order[..|order| - 1]);
      assert order == order[..|order| - 1] + [t];
      if t in s.tasks && s.tasks[t].status.Queued? then front + [QueuedCandidate(s, t)] else front
  }

  /** Resumable first, then queued. */
  function Candidates(s: State): seq<Candidate> {
    Resumables(s, s.order) + QueuedTasks(s, s.order)
  }

  function ForPolicy(c: Candidate): Policy.Candidate {
    Policy.Candidate(c.task, c.resume.Some?,
                     if c.resume.Some? then EffectiveAttempt(c.attemptReset, c.resume) else 0)
  }

  function InputFor(cfg: Config, s: State, e: Reading, running: seq<nat>, force: set<nat>): Policy.Input {
    var cs := Candidates(s);
    Policy.Input(e.now, e.snapshot,
      Policy.Limits(cfg.workers, e.sessionThreshold, e.weeklyThreshold, cfg.maxAttempts, e.runTimeout, e.maxSnapshotAge),
      seq(|cs|, i requires 0 <= i < |cs| => ForPolicy(cs[i])), running, e.weeklyBackoffUntil, force)
  }

  function Verdicts(inp: Policy.Input): seq<Policy.Decision> {
    seq(|inp.candidates|, i requires 0 <= i < |inp.candidates| => Policy.Verdict(inp, i))
  }

  function Suspensions(inp: Policy.Input): seq<Ticket> {
    if Policy.Gate(inp).SessionExhausted?
    then seq(|inp.running|, i requires 0 <= i < |inp.running| => ToSuspend(inp.running[i])) else []
  }

  function FailTickets(cs: seq<Candidate>, ds: seq<Policy.Decision>): seq<Ticket>
    requires |ds| == |cs|
  {
    if cs == [] then []
    else
      var n := |cs| - 1;
      FailTickets(cs[..n], ds[..n]) + if ds[n].action.Fail? then [ToFail(cs[n].task)] else []
  }

  function LaunchTickets(cs: seq<Candidate>, ds: seq<Policy.Decision>): seq<Ticket>
    requires |ds| == |cs|
  {
    if cs == [] then []
    else
      var n := |cs| - 1;
      LaunchTickets(cs[..n], ds[..n]) + if ds[n].action.Launch? then [ToLaunch(cs[n])] else []
  }

  /** One pass: suspensions first, then failures, then launches. */
  function PassTickets(cfg: Config, s: State, e: Reading, running: seq<nat>): seq<Ticket> {
    var cs := Candidates(s);
    var inp := InputFor(cfg, s, e, running, {});
    Suspensions(inp) + FailTickets(cs, Verdicts(inp)) + LaunchTickets(cs, Verdicts(inp))
  }

  function DoPlanPass(cfg: Config, s: State, e: Reading, running: seq<nat>): State {
    if s.todo == [] && Lists(running, s.inflight.Keys)
    then s.(todo := PassTickets(cfg, s, e, running)) else s
  }

  /** Under the lock: a task that already has a run goroutine is left alone. */
  function Launch(s: State, c: Candidate, manual: bool): State {
    if c.task in s.inflight then s
    else s.(inflight := s.inflight[c.task := Live(manual, NoCause, Launched(c))])
  }

  function Perform(s: State, ticket: Ticket): State {
    match ticket
    case ToSuspend(t) => CancelLive(s, t, SuspendCause)
    case ToFail(t) => SetStatus(s, t, Failed)
    case ToLaunch(c) => Launch(s, c, false)
  }

  function DoPerformNext(s: State): State {
    if s.todo == [] then s else Perform(s.(todo := s.todo[1..]), s.todo[0])
  }

  /** The index of the first decision about `t`, |ds| if there is none. */
  function DecisionFor(ds: seq<Policy.Decision>, t: nat): (k: nat)
    ensures k <= |ds|
    ensures k < |ds| ==> ds[k].task == t
    ensures forall j :: 0 <= j < k ==> ds[j].task != t
  {
    if ds == [] then 0
    else if ds[0].task == t then 0
    else
      var k := DecisionFor(ds[1..], t);
      assert forall j :: 1 <= j < |ds| ==> ds[j] == ds[1..][j - 1];
      k + 1
  }

  /** The candidate a manual launch of `t` would start, if it may start at all. */
  function ManualCandidate(cfg: Config, s: State, t: nat, claudeFound: bool, e: Reading, running: seq<nat>): Option<Candidate> {
    if t !in s.tasks || !Schedulable(s.tasks[t].status) || !claudeFound || t in s.inflight
       || !Lists(running, s.inflight.Keys) then None
    else
      var cs := Candidates(s);
      var ds := Verdicts(InputFor(cfg, s, e, running, {t}));
      var k := DecisionFor(ds, t);
      if k < |ds| && ds[k].action.Launch? then Some(cs[k]) else None
  }

  function DoRunNow(cfg: Config, s: State, t: nat, claudeFound: bool, e: Reading, running: seq<nat>): State {
    var c := ManualCandidate(cfg, s, t, claudeFound, e, running);
    if c.Some? then s.(byHand := s.byHand + [c.value]) else s
  }

  function DoLaunchByHand(s: State, k: nat): State {
    if k < |s.byHand|
    then Launch(s.(byHand := s.byHand[..k] + s.byHand[k + 1..]), s.byHand[k], true) else s
  }

  predicate Orphan(s: State, k: nat)
    requires k < |s.runs|
  {
    Active(s.runs[k].status) && s.runs[k].task !in s.inflight
  }

  /** Bury the orphans among the first `k` runs, newest first. */
  function BuryOrphans(s: State, k: nat): State
    requires k <= |s.runs|
    decreases k
  {
    if k == 0 then s
    else
      var r := s.runs[k - 1];
      BuryOrphans(
        if Orphan(s, k - 1)
        then SetStatus(FinishRun(s, k, Errored), r.task, TaskStatusAfterInterruption(r.session != "")) else s,
        k - 1)
  }

  function DoReconcile(s: State): State {
    BuryOrphans(s, |s.runs|).(booted := true)
  }

  function DoShutdown(s: State): State {
    s.(inflight := map t | t in s.inflight ::
      if s.inflight[t].cause.NoCause? then s.inflight[t].(cause := ShutdownCause) else s.inflight[t])
  }

  /** The process dies and a new one opens the database: everything held in memory is gone,
      and the next daemon clears the live flags before anything else. */
  function DoCrash(s: State): State {
    s.(inflight := map[], todo := [], byHand := [], grants := {}, booted := false,
       requests := map q | q in s.requests :: s.requests[q].(live := false))
  }

  // ---------------------------------------------------------------- one run goroutine

  function SetPhase(s: State, t: nat, p: Phase): State
    requires t in s.inflight
  {
    s.(inflight := s.inflight[t := s.inflight[t].(phase := p)])
  }

  predicate IsLaunched(s: State, t: nat) {
    t in s.inflight && s.inflight[t].phase.Launched?
  }

  predicate IsWorking(s: State, t: nat) {
    t in s.inflight && s.inflight[t].phase.Working? && 1 <= s.inflight[t].phase.run <= |s.runs|
  }

  function PreflightAttempt(s: State, t: nat): nat
    requires t in s.tasks
  {
    EffectiveAttempt(s.tasks[t].attemptReset, LatestRun(s.runs, t)) + 1
  }

  function Preflight(cfg: Config, s: State, t: nat): State
    requires t in s.tasks
  {
    var attempt := PreflightAttempt(s, t);
    var gaveUp := cfg.maxAttempts > 0 && attempt >= cfg.maxAttempts;
    SetStatus(InsertRun(s, t, "", Errored, attempt, {}), t, if gaveUp then Failed else Queued)
  }

  function ResumedSession(c: Candidate): string {
    if c.resume.Some? then c.resume.value.session else ""
  }

  function FirstAttempt(c: Candidate): nat {
    if c.resume.Some? then EffectiveAttempt(c.attemptReset, c.resume) + 1 else 1
  }

  function StartRun(s: State, t: nat, c: Candidate): State
    requires t in s.inflight
  {
    var s1 := InsertRun(s, t, ResumedSession(c), if c.resume.Some? then Resuming else Starting,
                        FirstAttempt(c), FollowUps(s, t));
    SetPhase(SetStatus(s1, t, TaskStatus.Running), t, Working(|s.runs| + 1, ResumedSession(c), "", false, c.agentMode))
  }

  /** `Run` up to the launch prompt. A task deleted since the plan has no row to insert a
      run for, so the goroutine just returns. */
  function DoBegin(cfg: Config, s: State, t: nat, preflightFails: bool): State {
    if !IsLaunched(s, t) then s
    else if t !in s.tasks then SetPhase(s, t, Returned)
    else if preflightFails then SetPhase(Preflight(cfg, s, t), t, Returned)
    else StartRun(s, t, s.inflight[t].phase.c)
  }

  function DoTokenFailure(s: State, t: nat): State {
    if !IsWorking(s, t) || s.inflight[t].phase.invoked then s
    else
      var p := s.inflight[t].phase;
      SetPhase(SetStatus(FinishRun(s, p.run, Errored), t, if p.prior != "" then Resumable else Queued), t, Returned)
  }

  function DoInvoke(s: State, t: nat): State {
    if !IsWorking(s, t) || s.inflight[t].phase.invoked then s
    else
      var p := s.inflight[t].phase;
      SetPhase(FinishRun(s, p.run, Executing), t, p.(invoked := true))
  }

  function DoAutoContinue(s: State, t: nat): State {
    if !IsWorking(s, t) || !s.inflight[t].phase.invoked then s
    else FinishRun(s, s.inflight[t].phase.run, Resuming)
  }

  function DoSessionSeen(s: State, t: nat, id: string): State {
    if !IsWorking(s, t) || !s.inflight[t].phase.invoked || id == "" then s
    else
      var p := s.inflight[t].phase;
      SetPhase(SetRun(s, p.run, s.runs[p.run - 1].(session := id)), t, p.(seen := id))
  }

  /** The session to resume does not exist: forget it and start over in a new one. */
  function DoRestartFresh(s: State, t: nat): State {
    if !IsWorking(s, t) || !s.inflight[t].phase.invoked || s.inflight[t].phase.prior == "" then s
    else
      var p := s.inflight[t].phase;
      SetPhase(SetRun(s, p.run, s.runs[p.run - 1].(session := "", status := Executing)), t, p.(prior := "", seen := ""))
  }

  /** The run's final status, by the first cause that applies. */
  function RunOutcome(err: InvokeError, cause: Cause): RunStatus {
    if err.NoError? then Succeeded
    else if cause.SuspendCause? then RateLimited
    else if cause.UserCause? then Errored
    else match err
      case RateLimitError => RateLimited
      case TimeoutError => TimedOut
      case _ => Errored
  }

  /** The human answered between the poll's end and the parking of the task. */
  predicate AnsweredInParkWindow(s: State, r: nat) {
    Raised(s, r) && !Waiting(s, r)
  }

  /** What a succeeded run does to the comment thread: retire the follow-ups it was given
      and post its report. */
  function Deliver(s: State, t: nat, r: nat, consume: bool, report: bool): State {
    var s1 := if consume then ConsumeComments(s, t, r) else s;
    if report then InsertComment(s1, t, ByAgent, 0) else s1
  }

  function Settle(s: State, t: nat, p: Phase, cause: Cause, err: InvokeError, waiting: bool, text: bool): State
    requires p.Working? && 1 <= p.run <= |s.runs|
  {
    var hasSession := p.seen != "" || p.prior != "";
    var s1 := FinishRun(s, p.run, RunOutcome(err, cause));
    if err.NoError? then
      var parks := p.agentMode && waiting;
      var answered := parks && AnsweredInParkWindow(s, p.run);
      var s2 := Deliver(s1, t, p.run, !answered, text);
      if answered then Requeue(s2, t, hasSession)
      else SetStatus(s2, t, if parks then AwaitingHuman else PrCreated)
    else if !cause.SuspendCause? && cause.UserCause? then SetStatus(s1, t, Paused)
    else SetStatus(s1, t, TaskStatusAfterInterruption(hasSession))
  }

  function DoClassify(s: State, t: nat, err: InvokeError, waiting: bool, text: bool): State {
    if !IsWorking(s, t) || !s.inflight[t].phase.invoked then s
    else
      var l := s.inflight[t];
      SetPhase(Settle(s, t, l.phase, l.cause, err, waiting, text), t, Returned)
  }

  function DoExit(s: State, t: nat): State {
    if t in s.inflight && s.inflight[t].phase.Returned? then s.(inflight := s.inflight - {t}) else s
  }

  // ---------------------------------------------------------------- the machine

  predicate GoroutineStep(step: Step) {
    step.Begin? || step.TokenFailure? || step.Invoke? || step.AutoContinue? || step.SessionSeen?
    || step.RestartFresh? || step.Classify? || step.Exit?
  }

  predicate RequestStep(step: Step) {
    step.CreateRequest? || step.Respond? || step.Approve? || step.Deny? || step.Expire? || step.SetLive?
  }

  predicate SchedulerStep(step: Step) {
    step.PlanPass? || step.PerformNext? || step.RunNow? || step.LaunchByHand? || step.Reconcile?
    || step.Shutdown? || step.Crash?
  }

  function UserNext(s: State, step: Step): State
    requires !GoroutineStep(step) && !RequestStep(step) && !SchedulerStep(step)
  {
    match step
    case CreateTask(b, a) => DoCreateTask(s, b, a)
    case UpdateTask(t, a) => DoUpdateTask(s, t, a)
    case DeleteTask(t) => DoDeleteTask(s, t)
    case ReorderTasks(o) => if Lists(o, s.tasks.Keys) then s.(order := o) else s
    case PauseTask(t) => DoPause(s, t)
    case ResumeTask(t) => DoResume(s, t)
    case CompleteTask(t) => DoRetire(s, t, Done)
    case DismissTask(t) => DoRetire(s, t, Dismissed)
    case MoveTask(t, to) => DoMove(s, t, to)
    case AddComment(t) => DoAddComment(s, t)
    case CancelRun(r) => DoCancelRun(s, r)
  }

  function RequestNext(s: State, step: Step): State
    requires RequestStep(step)
  {
    match step
    case CreateRequest(t, r, k) => DoCreateRequest(s, t, r, k)
    case Respond(q) => DoRespond(s, q)
    case Approve(q, w) => DoApprove(s, q, w)
    case Deny(q) => DoSettle(s, q, Denied)
    case Expire(q) => DoSettle(s, q, Expired)
    case SetLive(q, l) => DoSetLive(s, q, l)
  }

  function SchedulerNext(cfg: Config, s: State, step: Step): State
    requires SchedulerStep(step)
  {
    match step
    case PlanPass(e, running) => DoPlanPass(cfg, s, e, running)
    case PerformNext => DoPerformNext(s)
    case RunNow(t, f, e, running) => DoRunNow(cfg, s, t, f, e, running)
    case LaunchByHand(k) => DoLaunchByHand(s, k)
    case Reconcile => DoReconcile(s)
    case Shutdown => DoShutdown(s)
    case Crash => DoCrash(s)
  }

  function GoroutineNext(cfg: Config, s: State, step: Step): State
    requires GoroutineStep(step)
  {
    match step
    case Begin(t, f) => DoBegin(cfg, s, t, f)
    case TokenFailure(t) => DoTokenFailure(s, t)
    case Invoke(t) => DoInvoke(s, t)
    case AutoContinue(t) => DoAutoContinue(s, t)
    case SessionSeen(t, id) => DoSessionSeen(s, t, id)
    case RestartFresh(t) => DoRestartFresh(s, t)
    case Classify(t, err, w, x) => DoClassify(s, t, err, w, x)
    case Exit(t) => DoExit(s, t)
  }

  /** One step. Until the first reconcile nothing else happens. */
  function Next(cfg: Config, s: State, step: Step): State {
    if !s.booted && !step.Reconcile? && !step.Crash? then s
    else if GoroutineStep(step) then GoroutineNext(cfg, s, step)
    else if SchedulerStep(step) then SchedulerNext(cfg, s, step)
    else if RequestStep(step) then RequestNext(s, step)
    else UserNext(s, step)
  }

  /** An empty database under a daemon that has not reconciled yet. */
  const Initial: State :=
    State(map[], [], 1, [], map[], 1, map[], 1, {}, map[], [], [], false)

  /** The state `steps` lead to from `s`. */
  function Path(cfg: Config, s: State, steps: seq<Step>): State {
    if steps == [] then s
    else Next(cfg, Path(cfg, s, steps[..|steps| - 1]), steps[|steps| - 1])
  }

  /** The state after `steps`, from the empty database. */
  function After(cfg: Config, steps: seq<Step>): State {
    Path(cfg, Initial, steps)
  }

  lemma PathLast(cfg: Config, s: State, steps: seq<Step>, x: Step, p: State)
    requires p == Path(cfg, s, steps)
    ensures Path(cfg, s, steps + [x]) == Next(cfg, p, x)
  {
    var all := steps + [x];
    assert all[..|all| - 1] == steps && all[|all| - 1] == x;
  }

  /** Paths that meet stay together. */
  lemma PathTogether(cfg: Config, s: State, a: seq<Step>, s2: State, b: seq<Step>, x: Step)
    requires Path(cfg, s, a) == Path(cfg, s2, b)
    ensures Path(cfg, s, a + [x]) == Path(cfg, s2, b + [x])
  {
    PathLast(cfg, s, a, x, Path(cfg, s, a));
    PathLast(cfg, s2, b, x, Path(cfg, s2, b));
  }

  lemma {:induction false} PathAppend(cfg: Config, s: State, a: seq<Step>, b: seq<Step>)
    ensures Path(cfg, s, a + b) == Path(cfg, Path(cfg, s, a), b)
  {
    if b == [] {
      assert a + b == a;
    } else {
      var front, x := b[..|b| - 1], b[|b| - 1];
      assert a + b == (a + front) + [x] && b == front + [x];
      PathAppend(cfg, s, a, front);
      PathTogether(cfg, s, a + front, Path(cfg, s, a), front, x);
    }
  }

  /** The task has run again since this launch was planned. */
  predicate Overtaken(s: State, step: Step) {
    && step.Begin? && s.booted && IsLaunched(s, step.t) && step.t in s.tasks
    && Newest(s.runs, step.t) != s.inflight[step.t].phase.c.newest
  }

  /** No launch along `steps` is overtaken. */
  predicate Undisturbed(cfg: Config, steps: seq<Step>) {
    steps != [] ==>
      && Undisturbed(cfg, steps[..|steps| - 1])
      && !Overtaken(After(cfg, steps[..|steps| - 1]), steps[|steps| - 1])
  }

  lemma UndisturbedPush(cfg: Config, p: seq<Step>, x: Step)
    requires Undisturbed(cfg, p) && !Overtaken(After(cfg, p), x)
    ensures Undisturbed(cfg, p + [x])
  {
    assert (p + [x])[..|p + [x]| - 1] == p;
  }
}
