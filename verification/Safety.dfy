/** What every step of the lifecycle keeps: the core invariant.

    A resumable task has a row with a session to resume; an active row is the newest of its
    task and, once the daemon has reconciled, belongs to a goroutine of this daemon; a
    goroutine at work owns the newest row of its task and believes in the session stored
    there; comments, requests and the user's order name only tasks that exist; and what is
    planned to be resumed has a session. Before the first reconcile the daemon has no
    goroutines and no plans. The lemmas at the end keep the invariant when a step writes a
    single table. */
module Safety {
  import opened Domain
  import opened Lifecycle

  // ---------------------------------------------------------------- the newest run

  /** Row `r` belongs to `t` and no later row does. */
  predicate LastOf(runs: seq<Run>, r: nat, t: nat) {
    1 <= r <= |runs| && runs[r - 1].task == t && forall i :: r <= i < |runs| ==> runs[i].task != t
  }

  lemma NewestPush(a: seq<Run>, r: Run)
    ensures forall t :: Newest(a + [r], t) == if r.task == t then |a| + 1 else Newest(a, t)
  {
    assert (a + [r])[..|a|] == a;
  }

  // ---------------------------------------------------------------- the invariant

  /** The session a working run would be resumed from. */
  function Carried(p: Phase): string
    requires p.Working?
  {
    if p.seen != "" then p.seen else p.prior
  }

  /** Run row `r` is the one the goroutine of task `t` is working on. */
  predicate WorksOn(s: State, t: nat, r: nat) {
    t in s.inflight && s.inflight[t].phase.Working? && s.inflight[t].phase.run == r
  }

  predicate MidRun(st: TaskStatus) {
    st.Running? || st.Failed?
  }

  /** An active row is its task's newest, and once the daemon has reconciled it belongs to
      a goroutine of this daemon. Its task is running, or was failed by a stale plan. */
  predicate RunOk(s: State, i: nat)
    requires i < |s.runs|
  {
    var r := s.runs[i];
    && r.id == i + 1 && r.task in s.tasks
    && (Active(r.status) ==>
          && LastOf(s.runs, i + 1, r.task) && MidRun(s.tasks[r.task].status)
          && (s.booted ==> WorksOn(s, r.task, i + 1)))
  }

  /** A resumable task has a session to resume. */
  predicate TaskOk(s: State, t: nat)
    requires t in s.tasks
  {
    t < s.nextTask && (s.tasks[t].status.Resumable? ==> HasSession(s.runs, t))
  }

  predicate Sound(c: Candidate) {
    c.resume.Some? ==> c.resume.value.session != ""
  }

  /** A goroutine at work owns its task's newest row, which is active and carries exactly
      the session the goroutine believes in. */
  predicate LiveOk(s: State, t: nat)
    requires t in s.inflight
  {
    match s.inflight[t].phase
    case Launched(c) => c.task == t && Sound(c)
    case Working(r, _, _, _, _) =>
      LastOf(s.runs, r, t) && Active(s.runs[r - 1].status) && s.runs[r - 1].session == Carried(s.inflight[t].phase)
    case Returned => true
  }

  predicate CommentOk(s: State, c: nat)
    requires c in s.comments
  {
    c < s.nextComment && s.comments[c].task in s.tasks
  }

  predicate RequestOk(s: State, q: nat)
    requires q in s.requests
  {
    q < s.nextRequest && s.requests[q].task in s.tasks
  }

  predicate SoundTicket(k: Ticket) {
    k.ToLaunch? ==> Sound(k.c)
  }

  predicate Core(s: State) {
    && Lists(s.order, s.tasks.Keys)
    && (forall t :: t in s.tasks ==> TaskOk(s, t))
    && (forall i :: 0 <= i < |s.runs| ==> RunOk(s, i))
    && (forall t :: t in s.inflight ==> LiveOk(s, t))
    && (forall c :: c in s.comments ==> CommentOk(s, c))
    && (forall q :: q in s.requests ==> RequestOk(s, q))
    && (forall k :: k in s.todo ==> SoundTicket(k))
    && (forall c :: c in s.byHand ==> Sound(c))
    && (!s.booted ==> s.inflight == map[] && s.todo == [] && s.byHand == [])
  }

  // ---------------------------------------------------------------- writing one table

  /** No run of `t` is under way. */
  predicate Quiet(s: State, t: nat) {
    forall i :: 0 <= i < |s.runs| && Active(s.runs[i].status) ==> s.runs[i].task != t
  }

  lemma QuietTask(s: State, t: nat)
    requires Core(s) && t in s.tasks
    requires (s.booted && t !in s.inflight) || !MidRun(s.tasks[t].status)
    ensures Quiet(s, t)
  {
    forall i | 0 <= i < |s.runs| && Active(s.runs[i].status)
      ensures s.runs[i].task != t
    {
      assert RunOk(s, i);
    }
  }

  /** A task row may be rewritten as long as a running one stays running or failed, and a
      resumable one has a session. */
  lemma WriteTask(s: State, t: nat, row: Task)
    requires Core(s) && t in s.tasks
    requires MidRun(row.status) || Quiet(s, t)
    requires row.status.Resumable? ==> HasSession(s.runs, t)
    ensures Core(s.(tasks := s.tasks[t := row]))
  {
    var s' := s.(tasks := s.tasks[t := row]);
    assert s'.tasks.Keys == s.tasks.Keys;
    forall i | 0 <= i < |s.runs|
      ensures RunOk(s', i)
    {
      assert RunOk(s, i);
    }
    forall u | u in s'.tasks
      ensures TaskOk(s', u)
    {
      assert TaskOk(s, u);
    }
    KeepSide(s, s');
  }

  lemma KeepSide(s: State, s': State)
    requires Core(s) && s'.comments == s.comments && s'.nextComment == s.nextComment
    requires s'.requests == s.requests && s'.nextRequest == s.nextRequest && s.tasks.Keys <= s'.tasks.Keys
    ensures forall c :: c in s'.comments ==> CommentOk(s', c)
    ensures forall q :: q in s'.requests ==> RequestOk(s', q)
  {
    forall c | c in s'.comments
      ensures CommentOk(s', c)
    {
      assert CommentOk(s, c);
    }
    forall q | q in s'.requests
      ensures RequestOk(s', q)
    {
      assert RequestOk(s, q);
    }
  }

  /** The comment, request and grant tables do not matter to the rest of the invariant. */
  lemma WriteSideTables(s: State, s': State)
    requires Core(s)
    requires s' == s.(comments := s'.comments, nextComment := s'.nextComment, requests := s'.requests,
                      nextRequest := s'.nextRequest, grants := s'.grants)
    requires forall c :: c in s'.comments ==> CommentOk(s', c)
    requires forall q :: q in s'.requests ==> RequestOk(s', q)
    ensures Core(s')
  {
    KeepRuns(s, s');
  }

  /** Rows stay in order when every goroutine keeps working on the row it worked on. */
  lemma KeepRuns(s: State, s': State)
    requires Core(s) && s'.runs == s.runs && s'.tasks == s.tasks && s'.booted == s.booted
    requires forall t, r :: WorksOn(s, t, r) ==> WorksOn(s', t, r)
    ensures forall i :: 0 <= i < |s'.runs| ==> RunOk(s', i)
  {
    forall i | 0 <= i < |s'.runs|
      ensures RunOk(s', i)
    {
      assert RunOk(s, i);
      assert WorksOn(s, s.runs[i].task, i + 1) ==> WorksOn(s', s.runs[i].task, i + 1);
    }
  }

  lemma Requeueing(s: State, t: nat, fromSession: bool)
    requires Core(s) && t in s.tasks && Quiet(s, t) && (fromSession ==> HasSession(s.runs, t))
    ensures Core(Requeue(s, t, fromSession))
  {
    var s' := Requeue(s, t, fromSession);
    WriteTask(s, t, s'.tasks[t]);
    assert s' == s.(tasks := s.tasks[t := s'.tasks[t]]);
  }

  lemma Retiring(s: State, t: nat, st: TaskStatus)
    requires Core(s) && t in s.tasks && Quiet(s, t) && !st.Resumable?
    ensures Core(Retire(s, t, st))
  {
    var s1 := CancelRequests(s, t);
    forall q | q in s1.requests
      ensures RequestOk(s1, q)
    {
      assert RequestOk(s, q);
    }
    KeepSide(s, s.(requests := s.requests));
    forall c | c in s1.comments
      ensures CommentOk(s1, c)
    {
      assert CommentOk(s, c);
    }
    WriteSideTables(s, s1);
    WriteTask(s1, t, Retire(s, t, st).tasks[t]);
  }
}
