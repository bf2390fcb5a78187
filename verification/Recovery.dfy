/** No task is stranded, and no run row is left behind.

    In every reachable state each resumable task has a session to resume, so it is a candidate
    of every pass, and so is each queued one. After the first reconcile every active row is
    the newest of its task and belongs to a goroutine working on exactly it; the first
    reconcile after a crash sends the task of every orphan where the session of the orphan
    decides. A manual launch is refused only for a task that has spent its attempts. */
module Recovery {
  import opened Domain
  import opened Lifecycle
  import opened Safety
  import opened SafetySteps
  import opened SafetyRuns

  /** In every reachable state a resumable task has a newest run with a session, the
      scheduler's queries offer it, as they offer every queued task. */
  lemma NeverStranded(cfg: Config, steps: seq<Step>, t: nat)
    requires t in After(cfg, steps).tasks
    ensures var s := After(cfg, steps);
      && (s.tasks[t].status.Resumable? ==> HasSession(s.runs, t) && ResumeCandidate(s, t) in Candidates(s))
      && (s.tasks[t].status.Queued? ==> QueuedCandidate(s, t) in Candidates(s))
  {
    var s := After(cfg, steps);
    CoreAlways(cfg, steps);
    assert TaskOk(s, t);
    assert t in s.order;
  }

  /** A task is offered at most once, and only when it is queued or resumable. */
  lemma OfferedOnce(cfg: Config, steps: seq<Step>)
    ensures var cs := Candidates(After(cfg, steps));
      && (forall c :: c in cs ==> c.task in After(cfg, steps).tasks && Schedulable(After(cfg, steps).tasks[c.task].status))
      && forall i, j :: 0 <= i < j < |cs| ==> cs[i].task != cs[j].task
  {
    CoreAlways(cfg, steps);
    CandidatesAreDistinct(After(cfg, steps));
  }

  predicate DistinctTasks(cs: seq<Candidate>) {
    forall i, j :: 0 <= i < j < |cs| ==> cs[i].task != cs[j].task
  }

  lemma {:induction false} ResumablesAreDistinct(s: State, order: seq<nat>)
    requires Distinct(order)
    ensures DistinctTasks(Resumables(s, order))
  {
    if order != [] {
      var front := order[..|order| - 1];
      ResumablesAreDistinct(s, front);
      var cs := Resumables(s, front);
      assert forall i :: 0 <= i < |cs| ==> cs[i] in cs && cs[i].task in front;
    }
  }

  lemma {:induction false} QueuedAreDistinct(s: State, order: seq<nat>)
    requires Distinct(order)
    ensures DistinctTasks(QueuedTasks(s, order))
  {
    if order != [] {
      var front := order[..|order| - 1];
      QueuedAreDistinct(s, front);
      var cs := QueuedTasks(s, front);
      assert forall i :: 0 <= i < |cs| ==> cs[i] in cs && cs[i].task in front;
    }
  }

  lemma CandidatesAreDistinct(s: State)
    requires Distinct(s.order)
    ensures DistinctTasks(Candidates(s))
  {
    var a, b := Resumables(s, s.order), QueuedTasks(s, s.order);
    ResumablesAreDistinct(s, s.order);
    QueuedAreDistinct(s, s.order);
    var cs := Candidates(s);
    forall i, j | 0 <= i < j < |cs|
      ensures cs[i].task != cs[j].task
    {
      if i < |a| <= j {
        assert a[i] in a && b[j - |a|] in b;
      }
    }
  }

  /** Once the daemon has reconciled, a run row in an active status belongs to a goroutine of
      this daemon that has not returned. So the row is final before the goroutine leaves the
      inflight map. */
  lemma ActiveRowsAreTracked(cfg: Config, steps: seq<Step>, r: nat)
    requires After(cfg, steps).booted && 1 <= r <= |After(cfg, steps).runs|
    ensures var s := After(cfg, steps);
      Active(s.runs[r - 1].status) ==> WorksOn(s, s.runs[r - 1].task, r) && LastOf(s.runs, r, s.runs[r - 1].task)
  {
    CoreAlways(cfg, steps);
    assert RunOk(After(cfg, steps), r - 1);
  }

  /** Every later reconcile finds nothing to bury: it changes no row and no task. */
  lemma LaterReconcilesAreIdle(cfg: Config, steps: seq<Step>)
    requires After(cfg, steps).booted
    ensures DoReconcile(After(cfg, steps)) == After(cfg, steps)
  {
    var s := After(cfg, steps);
    CoreAlways(cfg, steps);
    NothingToBury(s, |s.runs|);
  }

  lemma {:induction false} NothingToBury(s: State, k: nat)
    requires Core(s) && s.booted && k <= |s.runs|
    ensures BuryOrphans(s, k) == s
    decreases k
  {
    if k > 0 {
      assert RunOk(s, k - 1);
      NothingToBury(s, k - 1);
    }
  }

  /** The first reconcile after a crash leaves no active row behind, keeps every session, and
      sends each orphan's task where an interrupted run's task goes. */
  lemma FirstReconcileSettles(cfg: Config, steps: seq<Step>)
    requires !After(cfg, steps).booted
    ensures var s := After(cfg, steps);
      var s' := DoReconcile(s);
      && |s'.runs| == |s.runs| && s'.tasks.Keys == s.tasks.Keys
      && (forall i :: 0 <= i < |s.runs| ==>
            s'.runs[i] == if Active(s.runs[i].status) then s.runs[i].(status := Errored) else s.runs[i])
      && (forall i :: 0 <= i < |s.runs| && Active(s.runs[i].status) ==>
            s.runs[i].task in s.tasks
            && s'.tasks[s.runs[i].task].status == TaskStatusAfterInterruption(s.runs[i].session != ""))
      && (forall t :: t in s.tasks && Quiet(s, t) ==> s'.tasks[t] == s.tasks[t])
  {
    var s := After(cfg, steps);
    CoreAlways(cfg, steps);
    Burial(s, |s.runs|);
    forall i | 0 <= i < |s.runs| && Active(s.runs[i].status)
      ensures s.runs[i].task in s.tasks
      ensures DoReconcile(s).tasks[s.runs[i].task].status == TaskStatusAfterInterruption(s.runs[i].session != "")
    {
      assert RunOk(s, i);
      BuriedTask(s, |s.runs|, i);
    }
  }

  lemma {:induction false} BuriedTask(s: State, k: nat, i: nat)
    requires Core(s) && i < k <= |s.runs| && Orphan(s, i)
    ensures s.runs[i].task in BuryOrphans(s, k).tasks
    ensures BuryOrphans(s, k).tasks[s.runs[i].task].status == TaskStatusAfterInterruption(s.runs[i].session != "")
    decreases k
  {
    if Orphan(s, k - 1) {
      var r := s.runs[k - 1];
      var s2 := SetStatus(FinishRun(s, k, Errored), r.task, TaskStatusAfterInterruption(r.session != ""));
      BuryOne(s, k, s2);
      assert BuryOrphans(s, k) == BuryOrphans(s2, k - 1);
      if i == k - 1 {
        Burial(s2, k - 1);
      } else {
        BuriedTask(s2, k - 1, i);
      }
    } else {
      assert BuryOrphans(s, k) == BuryOrphans(s, k - 1);
      BuriedTask(s, k - 1, i);
    }
  }

  /** A manual launch refuses only what it cannot fix. Of a queued or resumable task that is
      not running, with the claude binary present, it turns down exactly the resumable one
      that has burned its attempts, whatever the quota readings and the worker count. */
  lemma ManualLaunchRefusesOnlySpentTasks(cfg: Config, steps: seq<Step>, t: nat, e: Reading, running: seq<nat>)
    requires var s := After(cfg, steps);
      && t in s.tasks && Schedulable(s.tasks[t].status) && t !in s.inflight && Lists(running, s.inflight.Keys)
    ensures var s := After(cfg, steps);
      ManualCandidate(cfg, s, t, true, e, running).None? <==>
        s.tasks[t].status.Resumable?
        && EffectiveAttempt(s.tasks[t].attemptReset, LatestRun(s.runs, t)) >= cfg.maxAttempts
  {
    var s := After(cfg, steps);
    NeverStranded(cfg, steps, t);
    OfferedOnce(cfg, steps);
    var c := if s.tasks[t].status.Resumable? then ResumeCandidate(s, t) else QueuedCandidate(s, t);
    var i :| 0 <= i < |Candidates(s)| && Candidates(s)[i] == c;
    ManualVerdict(cfg, s, t, e, running, i);
  }

  lemma ManualVerdict(cfg: Config, s: State, t: nat, e: Reading, running: seq<nat>, i: nat)
    requires t in s.tasks && Schedulable(s.tasks[t].status) && t !in s.inflight && Lists(running, s.inflight.Keys)
    requires i < |Candidates(s)| && Candidates(s)[i].task == t && DistinctTasks(Candidates(s))
    ensures var p := ForPolicy(Candidates(s)[i]);
      ManualCandidate(cfg, s, t, true, e, running)
      == if p.resume && p.attempt >= cfg.maxAttempts then None else Some(Candidates(s)[i])
  {
    var cs := Candidates(s);
    var inp := InputFor(cfg, s, e, running, {t});
    var ds := Verdicts(inp);
    assert forall j :: 0 <= j < |cs| ==> ds[j].task == cs[j].task;
    assert ds[i] == Policy.Verdict(inp, i);
  }

}
