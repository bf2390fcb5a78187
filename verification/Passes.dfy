/** What a scheduling pass sets out to do, in terms of the readings it was given: whom it
    suspends, whom it fails, and what has to hold before it launches anyone. The tickets of a
    pass are related to the usage reading, the two thresholds, the weekly pause, the workers
    and the rows of the tasks, and then each ticket to what carrying it out does. The order
    in which candidates are considered is part of it. */
module Passes {
  import opened Domain
  import opened Lifecycle
  import opened Safety
  import Effects
  import Policy
  import PolicyLaws
  import Recovery
  import SafetyRuns
  import WorkerCap

  // ---------------------------------------------------------------- the readings

  /** There is a usage reading and it is not too old; an age limit of 0 switches the check off. */
  predicate Current(e: Reading) {
    e.snapshot.Some? && (e.maxSnapshotAge <= 0 || e.now - e.snapshot.value.capturedAt <= e.maxSnapshotAge)
  }

  /** The session window is used up, by the session's threshold. */
  predicate SessionFull(e: Reading) {
    e.snapshot.Some? && e.snapshot.value.sessionUtil >= e.sessionThreshold
  }

  /** Nothing stands against a launch: neither window is used up, each by its own threshold,
      and no weekly pause is running. */
  predicate MayLaunch(e: Reading) {
    Current(e) && !SessionFull(e) && e.snapshot.value.weeklyUtil < e.weeklyThreshold
    && (e.weeklyBackoffUntil.None? || e.now >= e.weeklyBackoffUntil.value)
  }

  /** The candidate resumes a run and has no attempt left. */
  predicate Exhausted(cfg: Config, c: Candidate) {
    c.resume.Some? && (if c.resume.value.id <= c.attemptReset then 0 else c.resume.value.attempt) >= cfg.maxAttempts
  }

  // ---------------------------------------------------------------- tickets and decisions

  lemma {:induction false} WhoseTickets(cs: seq<Candidate>, ds: seq<Policy.Decision>, k: Ticket)
    requires |cs| == |ds|
    ensures k in FailTickets(cs, ds) <==> exists i :: 0 <= i < |cs| && ds[i].action.Fail? && k == ToFail(cs[i].task)
    ensures k in LaunchTickets(cs, ds) <==> exists i :: 0 <= i < |cs| && ds[i].action.Launch? && k == ToLaunch(cs[i])
  {
    if cs != [] {
      var n := |cs| - 1;
      WhoseTickets(cs[..n], ds[..n], k);
      if i :| 0 <= i < n && ds[i].action.Fail? && k == ToFail(cs[i].task) {
        assert ds[..n][i].action.Fail? && k == ToFail(cs[..n][i].task);
      }
      if i :| 0 <= i < n && ds[i].action.Launch? && k == ToLaunch(cs[i]) {
        assert ds[..n][i].action.Launch? && k == ToLaunch(cs[..n][i]);
      }
    }
  }

  lemma WhoIsSuspended(cfg: Config, s: State, e: Reading, running: seq<nat>, t: nat)
    requires Lists(running, s.inflight.Keys)
    ensures ToSuspend(t) in Suspensions(InputFor(cfg, s, e, running, {})) <==> t in s.inflight && Current(e) && SessionFull(e)
  {
    var inp := InputFor(cfg, s, e, running, {});
    var ts := Suspensions(inp);
    if t in s.inflight && Current(e) && SessionFull(e) {
      var i :| 0 <= i < |running| && running[i] == t;
      assert ts[i] == ToSuspend(t);
    }
  }

  /** The verdict of a pass on candidate `i`. */
  lemma VerdictOfPass(cfg: Config, s: State, e: Reading, running: seq<nat>, i: nat)
    requires Lists(running, s.inflight.Keys) && i < |Candidates(s)|
    ensures var c, d := Candidates(s)[i], Verdicts(InputFor(cfg, s, e, running, {}))[i];
      && (d.action.Fail? <==> c.task !in s.inflight && Exhausted(cfg, c))
      && (d.action.Launch? ==> c.task !in s.inflight && !Exhausted(cfg, c) && MayLaunch(e) && |s.inflight| < cfg.workers)
      && (c.task !in s.inflight && !Exhausted(cfg, c) && MayLaunch(e) && !d.action.Launch? ==>
            |s.inflight| + PolicyLaws.SlotsTaken(InputFor(cfg, s, e, running, {}), i) >= cfg.workers)
  {
    var inp := InputFor(cfg, s, e, running, {});
    WorkerCap.DistinctCount(running, s.inflight.Keys);
    PolicyLaws.VerdictMeans(inp, i);
    assert inp.candidates[i] == ForPolicy(Candidates(s)[i]);
    assert PolicyLaws.Open(inp) <==> MayLaunch(e);
  }

  // ---------------------------------------------------------------- what a pass does

  /** Running tasks are suspended exactly when a current reading shows the session window used
      up. A candidate that is not running is failed exactly when it resumes a run and has no
      attempt left, and launched only when nothing stands against it and a worker is free: so
      under a weekly pause, a stale reading or none, or a used-up window nothing is launched.
      Otherwise a candidate is passed over only for want of workers. */
  lemma PassMeans(cfg: Config, s: State, e: Reading, running: seq<nat>, t: nat, i: nat)
    requires Core(s) && Lists(running, s.inflight.Keys) && i < |Candidates(s)|
    ensures var todo, c := PassTickets(cfg, s, e, running), Candidates(s)[i];
      && (ToSuspend(t) in todo <==> t in s.inflight && Current(e) && SessionFull(e))
      && (ToFail(c.task) in todo <==> c.task !in s.inflight && Exhausted(cfg, c))
      && (ToLaunch(c) in todo ==> c.task !in s.inflight && !Exhausted(cfg, c) && MayLaunch(e) && |s.inflight| < cfg.workers)
      && (c.task !in s.inflight && !Exhausted(cfg, c) && MayLaunch(e) && ToLaunch(c) !in todo ==>
            |s.inflight| + WorkerCap.Owed(todo) >= cfg.workers)
  {
    var cs := Candidates(s);
    var c := cs[i];
    var inp := InputFor(cfg, s, e, running, {});
    var ds := Verdicts(inp);
    WhoIsSuspended(cfg, s, e, running, t);
    WhoseTickets(cs, ds, ToSuspend(t));
    WhoseTickets(cs, ds, ToFail(c.task));
    WhoseTickets(cs, ds, ToLaunch(c));
    Recovery.CandidatesAreDistinct(s);
    VerdictOfPass(cfg, s, e, running, i);
    LaunchesOwed(cfg, s, e, running);
    SlotsGrow(inp, i, |cs|);
    assert forall j :: 0 <= j < |cs| && cs[j].task == c.task ==> j == i;
  }

  lemma LaunchesOwed(cfg: Config, s: State, e: Reading, running: seq<nat>)
    ensures var inp := InputFor(cfg, s, e, running, {});
      WorkerCap.Owed(PassTickets(cfg, s, e, running)) == PolicyLaws.SlotsTaken(inp, |Candidates(s)|)
  {
    var cs := Candidates(s);
    var inp := InputFor(cfg, s, e, running, {});
    var ds := Verdicts(inp);
    WorkerCap.OwedByLaunches(cs, ds);
    WorkerCap.SuspensionsOweNothing(Suspensions(inp));
    WorkerCap.OwedAppend(Suspensions(inp) + FailTickets(cs, ds), LaunchTickets(cs, ds));
    WorkerCap.OwedAppend(Suspensions(inp), FailTickets(cs, ds));
    PolicyLaws.UnforcedLaunchesFit(inp, ds);
  }

  lemma {:induction false} SlotsGrow(inp: Policy.Input, i: nat, j: nat)
    requires i <= j <= |inp.candidates|
    ensures PolicyLaws.SlotsTaken(inp, i) <= PolicyLaws.SlotsTaken(inp, j)
    decreases j
  {
    if i < j {
      SlotsGrow(inp, i, j - 1);
    }
  }

  /** The three parts of a pass hold what their names say. */
  lemma Parts(cfg: Config, s: State, e: Reading, running: seq<nat>)
    ensures var cs, inp := Candidates(s), InputFor(cfg, s, e, running, {});
      && (forall k :: k in Suspensions(inp) ==> k.ToSuspend? && k.task in running)
      && (forall k :: k in FailTickets(cs, Verdicts(inp)) ==> k.ToFail? && exists c :: c in cs && c.task == k.task)
      && (forall k :: k in LaunchTickets(cs, Verdicts(inp)) ==> k.ToLaunch? && k.c in cs)
  {
    var cs, inp := Candidates(s), InputFor(cfg, s, e, running, {});
    var ds := Verdicts(inp);
    forall k | k in FailTickets(cs, ds)
      ensures k.ToFail? && exists c :: c in cs && c.task == k.task
    {
      WhoseTickets(cs, ds, k);
      var n :| 0 <= n < |cs| && ds[n].action.Fail? && k == ToFail(cs[n].task);
      assert cs[n] in cs;
    }
    forall k | k in LaunchTickets(cs, ds)
      ensures k.ToLaunch? && k.c in cs
    {
      WhoseTickets(cs, ds, k);
    }
  }

  /** Nothing else is on the list: every ticket suspends a running task or concerns one of the
      candidates. Suspensions come first, then failures, then launches. */
  lemma OnlyTickets(cfg: Config, s: State, e: Reading, running: seq<nat>, i: nat, j: nat)
    requires var todo := PassTickets(cfg, s, e, running); i <= j < |todo|
    ensures var todo := PassTickets(cfg, s, e, running);
      && (todo[i].ToSuspend? ==> todo[i].task in running)
      && (todo[i].ToFail? ==> exists c :: c in Candidates(s) && c.task == todo[i].task)
      && (todo[i].ToLaunch? ==> todo[i].c in Candidates(s) && todo[j].ToLaunch?)
      && (todo[j].ToSuspend? ==> todo[i].ToSuspend?)
  {
    Parts(cfg, s, e, running);
    var inp := InputFor(cfg, s, e, running, {});
    Sections(Suspensions(inp), FailTickets(Candidates(s), Verdicts(inp)), LaunchTickets(Candidates(s), Verdicts(inp)), i);
    Sections(Suspensions(inp), FailTickets(Candidates(s), Verdicts(inp)), LaunchTickets(Candidates(s), Verdicts(inp)), j);
  }

  lemma Sections<T>(a: seq<T>, b: seq<T>, c: seq<T>, i: nat)
    requires i < |a + b + c|
    ensures i < |a| ==> (a + b + c)[i] in a
    ensures |a| <= i < |a| + |b| ==> (a + b + c)[i] in b
    ensures |a| + |b| <= i ==> (a + b + c)[i] in c
  {
  }

  // ---------------------------------------------------------------- the order of candidates

  predicate Before(order: seq<nat>, t: nat, u: nat) {
    exists i, j :: 0 <= i < j < |order| && order[i] == t && order[j] == u
  }

  predicate InOrder(cs: seq<Candidate>, order: seq<nat>) {
    forall i, j :: 0 <= i < j < |cs| ==> Before(order, cs[i].task, cs[j].task)
  }

  lemma InOrderPush(cs: seq<Candidate>, order: seq<nat>, c: Candidate)
    requires InOrder(cs, order) && forall i :: 0 <= i < |cs| ==> cs[i].task in order
    ensures InOrder(cs, order + [c.task]) && InOrder(cs + [c], order + [c.task])
  {
    var all, cs' := order + [c.task], cs + [c];
    forall i, j | 0 <= i < j < |cs'|
      ensures Before(all, cs'[i].task, cs'[j].task)
    {
      if j < |cs| {
        assert Before(order, cs[i].task, cs[j].task);
        var m, n :| 0 <= m < n < |order| && order[m] == cs[i].task && order[n] == cs[j].task;
        assert all[m] == cs[i].task && all[n] == cs[j].task;
      } else {
        var m :| 0 <= m < |order| && order[m] == cs[i].task;
        assert all[m] == cs[i].task && all[|order|] == c.task;
      }
    }
    assert forall i :: 0 <= i < |cs| ==> cs'[i] == cs[i];
  }

  lemma {:induction false} QueuesKeepOrder(s: State, order: seq<nat>)
    ensures InOrder(Resumables(s, order), order) && InOrder(QueuedTasks(s, order), order)
  {
    if order != [] {
      var front, t := order[..|order| - 1], order[|order| - 1];
      assert order == front + [t];
      QueuesKeepOrder(s, front);
      var a, b := Resumables(s, front), QueuedTasks(s, front);
      assert forall i :: 0 <= i < |a| ==> a[i] in a;
      assert forall i :: 0 <= i < |b| ==> b[i] in b;
      InOrderPush(a, front, Candidate(t, None, 0, false, 0));
      InOrderPush(b, front, Candidate(t, None, 0, false, 0));
      if t in s.tasks {
        InOrderPush(a, front, ResumeCandidate(s, t));
        InOrderPush(b, front, QueuedCandidate(s, t));
      }
    }
  }

  /** Whoever has a session to go back to is considered before whoever starts from nothing,
      and within each kind the user's order decides. A candidate carries the newest run of its
      task if it resumes, and its task's column says which of the two it is. */
  lemma CandidatesInOrder(s: State, i: nat, j: nat)
    requires i < j < |Candidates(s)|
    ensures var cs := Candidates(s);
      && (cs[j].resume.Some? ==> cs[i].resume.Some?)
      && (cs[i].resume.Some? == cs[j].resume.Some? ==> Before(s.order, cs[i].task, cs[j].task))
      && cs[i].task in s.tasks
      && (cs[i].resume.Some? ==> s.tasks[cs[i].task].status.Resumable?)
      && (cs[i].resume.None? ==> s.tasks[cs[i].task].status.Queued?)
  {
    QueuesKeepOrder(s, s.order);
    WhichHalf(s, i);
    WhichHalf(s, j);
  }

  lemma WhichHalf(s: State, n: nat)
    requires n < |Candidates(s)|
    ensures var a, b, c := Resumables(s, s.order), QueuedTasks(s, s.order), Candidates(s)[n];
      && c == (if n < |a| then a[n] else b[n - |a|])
      && c.task in s.tasks
      && (n < |a| ==> c.resume.Some? && s.tasks[c.task].status.Resumable?)
      && (n >= |a| ==> c.resume.None? && s.tasks[c.task].status.Queued?)
  {
    var a, b := Resumables(s, s.order), QueuedTasks(s, s.order);
    if n < |a| {
      assert a[n] in a;
    } else {
      assert b[n - |a|] in b;
    }
  }

  // ---------------------------------------------------------------- carrying it out

  /** A launch starts a goroutine for a task that has none; with one there already, nothing
      happens. */
  predicate Starts(s: State, s': State, c: Candidate, manual: bool) {
    s'.inflight == if c.task in s.inflight then s.inflight else s.inflight[c.task := Live(manual, NoCause, Launched(c))]
  }

  /** The next ticket is taken off the list. A suspension is the goroutine's cancellation, if
      it is the first; a failure is the task's status; a launch starts a goroutine. */
  predicate CarriedOut(s: State, s': State)
    requires s.todo != []
  {
    s'.todo == s.todo[1..] && s' == s.(todo := s'.todo, tasks := s'.tasks, inflight := s'.inflight)
    && match s.todo[0]
       case ToSuspend(t) =>
         && s'.tasks == s.tasks
         && s'.inflight == if t in s.inflight && s.inflight[t].cause.NoCause?
                           then s.inflight[t := s.inflight[t].(cause := SuspendCause)] else s.inflight
       case ToFail(t) =>
         && s'.inflight == s.inflight
         && s'.tasks == if t in s.tasks then s.tasks[t := s.tasks[t].(status := TaskStatus.Failed)] else s.tasks
       case ToLaunch(c) => s'.tasks == s.tasks && Starts(s, s', c, false)
  }

  lemma Performing(s: State)
    requires s.todo != []
    ensures CarriedOut(s, DoPerformNext(s))
  {
  }

  lemma PerformMeans(cfg: Config, s: State)
    requires s.booted
    ensures if s.todo == [] then Next(cfg, s, PerformNext) == s else CarriedOut(s, Next(cfg, s, PerformNext))
  {
    if s.todo != [] {
      Performing(s);
    }
  }

  /** A manual launch starts its candidate as one the user asked for. */
  lemma ByHandMeans(cfg: Config, s: State, k: nat)
    requires s.booted && k < |s.byHand|
    ensures var s' := Next(cfg, s, LaunchByHand(k));
      && s' == s.(byHand := s.byHand[..k] + s.byHand[k + 1..], inflight := s'.inflight)
      && Starts(s, s', s.byHand[k], true)
  {
  }

  /** Shutting down cancels every goroutine that nothing has cancelled yet. */
  lemma ShutdownMeans(cfg: Config, s: State)
    requires s.booted
    ensures var s' := Next(cfg, s, Shutdown);
      && s' == s.(inflight := s'.inflight) && s'.inflight.Keys == s.inflight.Keys
      && forall t :: t in s.inflight ==>
           s'.inflight[t] == if s.inflight[t].cause.NoCause? then s.inflight[t].(cause := ShutdownCause) else s.inflight[t]
  {
  }

  /** The process dies: what it held in memory is gone and no poll is live any more; the tables
      it wrote are as they were. */
  lemma CrashMeans(cfg: Config, s: State)
    ensures var s' := Next(cfg, s, Crash);
      && s' == s.(inflight := map[], todo := [], byHand := [], grants := {}, booted := false, requests := s'.requests)
      && s'.requests.Keys == s.requests.Keys
      && forall q :: q in s.requests ==> s'.requests[q] == s.requests[q].(live := false)
  {
  }

  /** Asking for a task to be run now changes nothing, or picks the candidate of that task, at
      rest and with the claude binary found, to be launched by hand. */
  lemma RunNowMeans(cfg: Config, s: State, t: nat, claudeFound: bool, e: Reading, running: seq<nat>)
    requires s.booted
    ensures var s' := Next(cfg, s, RunNow(t, claudeFound, e, running));
      s' == s || (claudeFound && t in s.tasks && t !in s.inflight && s.tasks[t].status in {Queued, Resumable}
                  && exists c :: c in Candidates(s) && c.task == t && s' == s.(byHand := s.byHand + [c]))
  {
    var c := ManualCandidate(cfg, s, t, claudeFound, e, running);
    if c.Some? {
      PickedFor(cfg, s, t, claudeFound, e, running);
    }
  }

  lemma PickedFor(cfg: Config, s: State, t: nat, claudeFound: bool, e: Reading, running: seq<nat>)
    requires ManualCandidate(cfg, s, t, claudeFound, e, running).Some?
    ensures var c := ManualCandidate(cfg, s, t, claudeFound, e, running).value; c in Candidates(s) && c.task == t
  {
    var cs := Candidates(s);
    var inp := InputFor(cfg, s, e, running, {t});
    var k := DecisionFor(Verdicts(inp), t);
    assert inp.candidates[k] == ForPolicy(cs[k]);
  }
}
