/** What the scheduling policy promises, for every input. */
module PolicyLaws {
  import opened Domain
  import opened Policy

  /** Candidate `i` is launched through the worker accounting, not by hand. */
  predicate TakesSlot(inp: Input, i: nat)
    requires i < |inp.candidates|
  {
    Verdict(inp, i).action.Launch? && inp.candidates[i].task !in inp.force
  }

  function SlotsTaken(inp: Input, i: nat): (n: nat)
    requires i <= |inp.candidates|
  {
    if i == 0 then 0 else SlotsTaken(inp, i - 1) + if TakesSlot(inp, i - 1) then 1 else 0
  }

  function Max0(x: int): nat { if x > 0 then x else 0 }

  function Min(x: int, y: int): int { if x < y then x else y }

  /** Work-conserving: the open gate hands out as many slots as are free, or as many as
      there are competitors; the closed gate hands out none. */
  lemma {:induction false} GreedyAndWorkConserving(inp: Input, i: nat)
    requires i <= |inp.candidates|
    ensures !Blocking(Gate(inp)) ==> SlotsTaken(inp, i) == Min(Max0(Free(inp)), Rank(inp, i))
    ensures Blocking(Gate(inp)) ==> SlotsTaken(inp, i) == 0
  {
    if i > 0 {
      GreedyAndWorkConserving(inp, i - 1);
    }
  }

  lemma {:induction false} RankIncreases(inp: Input, i: nat, j: nat)
    requires i <= j <= |inp.candidates|
    ensures Rank(inp, i) <= Rank(inp, j)
    decreases j
  {
    if i < j {
      RankIncreases(inp, i, j - 1);
    }
  }

  /** In order: a competitor standing before a slot-taker has taken a slot too, and every
      slot-taker is a competitor. */
  lemma FirstComeFirstServed(inp: Input, j: nat, i: nat)
    requires j <= i < |inp.candidates| && TakesSlot(inp, i)
    ensures Eligible(inp, inp.candidates[i])
    ensures Eligible(inp, inp.candidates[j]) ==> TakesSlot(inp, j)
  {
    RankIncreases(inp, j, i);
  }

  /** No launch goes to a task holding a worker, hence none to a task being suspended, and
      no launch exceeds the attempt cap, forced or not. */
  lemma LaunchesAreSafe(inp: Input, p: Plan, d: Decision)
    requires IsPlan(inp, p) && d in WithAction(p.decisions, Launch)
    ensures d.task !in inp.running
    ensures forall s :: s in p.suspend ==> s.task != d.task
    ensures exists c :: c in inp.candidates && c.task == d.task && !Capped(inp, c)
    ensures d.task in inp.force || !Blocking(Gate(inp))
    ensures d.timeout == inp.limits.runTimeout
  {
    var i :| 0 <= i < |p.decisions| && p.decisions[i] == d;
    assert p.decisions[i] == Verdict(inp, i);
    assert inp.candidates[i] in inp.candidates;
    forall s | s in p.suspend
      ensures s.task != d.task
    {
      var k :| 0 <= k < |p.suspend| && p.suspend[k] == s;
      assert s.task == inp.running[k];
    }
  }

  lemma {:induction false} RankFallsWithForce(inp: Input, t: nat, i: nat)
    requires i <= |inp.candidates|
    ensures Rank(inp.(force := inp.force + {t}), i) <= Rank(inp, i)
  {
    if i > 0 {
      RankFallsWithForce(inp, t, i - 1);
    }
  }

  lemma {:induction false} RankIgnoresWorkers(inp: Input, w: int, i: nat)
    requires i <= |inp.candidates|
    ensures Rank(inp.(limits := inp.limits.(workers := w)), i) == Rank(inp, i)
  {
    if i > 0 {
      RankIgnoresWorkers(inp, w, i - 1);
    }
  }

  /** Launching one task by hand never takes the slot another one was given. */
  lemma ForcingIsMonotone(inp: Input, t: nat, i: nat)
    requires i < |inp.candidates| && Verdict(inp, i).action.Launch?
    ensures Verdict(inp.(force := inp.force + {t}), i).action.Launch?
  {
    RankFallsWithForce(inp, t, i);
  }

  /** More workers never turn a launch into a wait. */
  lemma WorkersAreMonotone(inp: Input, w: int, i: nat)
    requires i < |inp.candidates| && w >= inp.limits.workers && Verdict(inp, i).action.Launch?
    ensures Verdict(inp.(limits := inp.limits.(workers := w)), i).action.Launch?
  {
    RankIgnoresWorkers(inp, w, i);
  }

  /** "Queue empty" is reported exactly when the gate is open and there is no candidate. A
      blocking answer is the gate's, or a full pool holding a candidate while nothing
      launches; and when the gate is open and nothing launches, a candidate held by the
      pool is always reported. */
  lemma GlobalExplains(inp: Input, p: Plan)
    requires IsPlan(inp, p)
    ensures p.global.QueueEmpty? <==> inp.candidates == [] && !Blocking(Gate(inp))
    ensures Blocking(Gate(inp)) ==> p.global == Gate(inp)
    ensures !Blocking(Gate(inp)) ==>
      (Blocking(p.global) <==> !AnyLaunch(p.decisions) && exists i :: 0 <= i < |p.decisions| && Held(p.decisions[i]))
    ensures !Blocking(Gate(inp)) && Blocking(p.global) ==> p.global.WorkersBusy? && Free(inp) <= 0
  {
    if !Blocking(Gate(inp)) && !AnyLaunch(p.decisions) && inp.candidates != [] {
      var c :| FirstHeld(p.decisions, c) && p.global == if c.Some? then c.value else Gate(inp);
      if c.Some? {
        var i :| 0 <= i < |p.decisions| && Held(p.decisions[i]) && p.decisions[i].reason == c.value;
        assert p.decisions[i] == Verdict(inp, i);
        GreedyAndWorkConserving(inp, i);
        if Free(inp) > 0 {
          NoSlotsWithoutLaunch(inp, p, i);
        }
      }
    }
  }

  lemma {:induction false} NoSlotsWithoutLaunch(inp: Input, p: Plan, i: nat)
    requires IsPlan(inp, p) && !AnyLaunch(p.decisions) && i <= |inp.candidates|
    ensures SlotsTaken(inp, i) == 0
  {
    if i > 0 {
      NoSlotsWithoutLaunch(inp, p, i - 1);
      assert p.decisions[i - 1] == Verdict(inp, i - 1);
    }
  }

  /** An unforced plan never starts more than the free slots. */
  lemma {:induction false} UnforcedLaunchesFit(inp: Input, ds: seq<Decision>)
    requires inp.force == {} && |ds| <= |inp.candidates|
    requires forall i :: 0 <= i < |ds| ==> ds[i] == Verdict(inp, i)
    ensures |WithAction(ds, Launch)| == SlotsTaken(inp, |ds|)
    ensures |WithAction(ds, Launch)| <= Max0(Free(inp))
  {
    GreedyAndWorkConserving(inp, |ds|);
    if ds != [] {
      var front := ds[..|ds| - 1];
      UnforcedLaunchesFit(inp, front);
    }
  }

  // ---------------------------------------------------------------- the plan in terms of the readings

  /** There is a reading and it is not too old; an age limit of 0 switches the check off. */
  predicate Fresh(inp: Input) {
    inp.snapshot.Some?
    && (inp.limits.maxSnapshotAge <= 0 || inp.now - inp.snapshot.value.capturedAt <= inp.limits.maxSnapshotAge)
  }

  /** The session window is used up, judged by the session's threshold. */
  predicate SessionSpent(inp: Input) {
    inp.snapshot.Some? && inp.snapshot.value.sessionUtil >= inp.limits.sessionThreshold
  }

  /** The week is used up, judged by the week's threshold. */
  predicate WeekSpent(inp: Input) {
    inp.snapshot.Some? && inp.snapshot.value.weeklyUtil >= inp.limits.weeklyThreshold
  }

  predicate LatchedOut(inp: Input) {
    inp.weeklyBackoffUntil.Some? && inp.now < inp.weeklyBackoffUntil.value
  }

  /** Nothing stands against a launch. */
  predicate Open(inp: Input) {
    Fresh(inp) && !SessionSpent(inp) && !WeekSpent(inp) && !LatchedOut(inp)
  }

  /** A plan suspends exactly the running tasks, and only when a fresh reading shows the
      session window spent. */
  lemma SuspendsIff(inp: Input, p: Plan, t: nat)
    requires IsPlan(inp, p)
    ensures (exists d :: d in p.suspend && d.task == t) <==> t in inp.running && Fresh(inp) && SessionSpent(inp)
    ensures forall d :: d in p.suspend ==> d.action.Suspend? && d.reason.SessionExhausted?
  {
    if t in inp.running && Fresh(inp) && SessionSpent(inp) {
      var k :| 0 <= k < |inp.running| && inp.running[k] == t;
      assert p.suspend[k] in p.suspend;
    }
  }

  /** The reason a plan reports, when one of the five holds everything up: each exactly when
      its condition holds and none before it does. */
  lemma ReasonsMean(inp: Input, p: Plan)
    requires IsPlan(inp, p)
    ensures p.global.NoUsageData? <==> inp.snapshot.None?
    ensures p.global.StaleUsageData? <==> inp.snapshot.Some? && !Fresh(inp)
    ensures p.global.SessionExhausted? <==> Fresh(inp) && SessionSpent(inp)
    ensures p.global.WeeklyExhausted? <==> Fresh(inp) && !SessionSpent(inp) && WeekSpent(inp)
    ensures p.global.WeeklyBackoff? <==> Fresh(inp) && !SessionSpent(inp) && !WeekSpent(inp) && LatchedOut(inp)
    ensures Open(inp) <==> p.global in {Ready, WorkersBusy, QueueEmpty}
  {
    GateIsOpen(inp);
    GlobalExplains(inp, p);
    if !Blocking(Gate(inp)) && !AnyLaunch(p.decisions) && inp.candidates != [] {
      var c :| FirstHeld(p.decisions, c) && p.global == if c.Some? then c.value else Gate(inp);
    }
  }

  lemma GateIsOpen(inp: Input)
    ensures Open(inp) <==> Gate(inp).Ready?
    ensures Open(inp) <==> !Blocking(Gate(inp))
  {
  }

  /** What becomes of candidate `i`: left alone while it runs, failed when it is a resume
      without attempts left, launched when the user forces it, and otherwise launched exactly
      when nothing stands against it and there is a worker for it. `stop` is what stands
      against it if anything does. */
  predicate Decided(inp: Input, i: nat, d: Decision, stop: Code)
    requires i < |inp.candidates|
  {
    var c := inp.candidates[i];
    && d.task == c.task && d.action in {Launch, Wait, Fail}
    && (c.task in inp.running ==> d.action.Wait? && d.reason.AlreadyRunning?)
    && (d.action.Fail? <==> c.task !in inp.running && c.resume && c.attempt >= inp.limits.maxAttempts)
    && (c.task in inp.force ==>
          (d.action.Launch? <==> c.task !in inp.running && !(c.resume && c.attempt >= inp.limits.maxAttempts)))
    && (d.action.Launch? && c.task !in inp.force ==>
          Open(inp) && |inp.running| + SlotsTaken(inp, i) < inp.limits.workers)
    && (d.action.Launch? ==> d.timeout == inp.limits.runTimeout)
    && (d.action.Wait? && c.task !in inp.running && Open(inp) ==>
          d.reason.WorkersBusy? && |inp.running| + SlotsTaken(inp, i) >= inp.limits.workers)
    && (d.action.Wait? && c.task !in inp.running && !Open(inp) ==> d.reason == stop)
  }

  lemma VerdictMeans(inp: Input, i: nat)
    requires i < |inp.candidates|
    ensures Decided(inp, i, Verdict(inp, i), Gate(inp))
  {
    GateIsOpen(inp);
    GreedyAndWorkConserving(inp, i);
  }

  lemma DecisionMeans(inp: Input, p: Plan, i: nat)
    requires IsPlan(inp, p) && i < |inp.candidates|
    ensures Decided(inp, i, p.decisions[i], p.global)
  {
    VerdictMeans(inp, i);
    GateIsOpen(inp);
    assert p.decisions[i] == Verdict(inp, i);
  }

  /** The session's state as reported beside the plan. */
  lemma WindowMeans(inp: Input, p: Plan)
    requires IsPlan(inp, p)
    ensures p.windowState.Saturated? <==> SessionSpent(inp)
    ensures p.windowState.Idle? <==>
      inp.snapshot.None? || (!SessionSpent(inp) && inp.snapshot.value.sessionUtil <= 0.0 && inp.snapshot.value.sessionResetsAt.None?)
  {
  }
}
