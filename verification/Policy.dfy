/** The scheduling decision (internal/scheduling/scheduling.go).

    `Decide` is the loop of the source. `Verdict` is a declarative reference for it: the
    verdict on one candidate, stated through how many candidates before it compete for a
    worker. `Decide` is proved to return exactly the plan made of those verdicts, and the
    policy's promises are proved about the verdicts. */
module Policy {
  import opened Domain

  datatype Action = Launch | Wait | Suspend | Fail

  datatype Code =
    | Ready | AlreadyRunning | WorkersBusy | SessionExhausted | WeeklyExhausted
    | WeeklyBackoff | AttemptCap | NoUsageData | StaleUsageData | QueueEmpty

  predicate Blocking(c: Code) {
    !c.Ready? && !c.AlreadyRunning? && !c.QueueEmpty?
  }

  datatype WindowState = Idle | Open | Saturated

  datatype Snapshot = Snapshot(
    capturedAt: int, sessionUtil: real, sessionResetsAt: Option<int>, weeklyUtil: real)

  datatype Limits = Limits(
    workers: int, sessionThreshold: real, weeklyThreshold: real,
    maxAttempts: int, runTimeout: int, maxSnapshotAge: int)

  datatype Candidate = Candidate(task: nat, resume: bool, attempt: nat)

  datatype Input = Input(
    now: int, snapshot: Option<Snapshot>, limits: Limits, candidates: seq<Candidate>,
    running: seq<nat>, weeklyBackoffUntil: Option<int>, force: set<nat>)

  datatype Decision = Decision(task: nat, action: Action, timeout: int, reason: Code)

  datatype Plan = Plan(
    windowState: WindowState, global: Code, decisions: seq<Decision>, suspend: seq<Decision>)

  /** The one thing stopping every launch, or Ready. */
  function Gate(inp: Input): Code {
    if inp.snapshot.None? then NoUsageData
    else
      var s := inp.snapshot.value;
      if inp.limits.maxSnapshotAge > 0 && inp.now - s.capturedAt > inp.limits.maxSnapshotAge then StaleUsageData
      else if s.sessionUtil >= inp.limits.sessionThreshold then SessionExhausted
      else if s.weeklyUtil >= inp.limits.weeklyThreshold then WeeklyExhausted
      else if inp.weeklyBackoffUntil.Some? && inp.now < inp.weeklyBackoffUntil.value then WeeklyBackoff
      else Ready
  }

  function WindowStateFor(snap: Option<Snapshot>, sessionThreshold: real): WindowState {
    if snap.None? then Idle
    else if snap.value.sessionUtil >= sessionThreshold then Saturated
    else if snap.value.sessionUtil > 0.0 || snap.value.sessionResetsAt.Some? then Open
    else Idle
  }

  // ---------------------------------------------------------------- reference definition

  predicate Capped(inp: Input, c: Candidate) {
    c.resume && c.attempt >= inp.limits.maxAttempts
  }

  /** `c` competes for a worker slot: it holds none, has attempts left, and was not
      launched by hand. */
  predicate Eligible(inp: Input, c: Candidate) {
    c.task !in inp.running && !Capped(inp, c) && c.task !in inp.force
  }

  /** How many of the first `i` candidates compete for a slot. */
  function Rank(inp: Input, i: nat): (n: nat)
    requires i <= |inp.candidates|
    ensures n <= i
  {
    if i == 0 then 0
    else Rank(inp, i - 1) + if Eligible(inp, inp.candidates[i - 1]) then 1 else 0
  }

  function Free(inp: Input): int {
    inp.limits.workers - |inp.running|
  }

  /** The verdict on candidate `i`. */
  function Verdict(inp: Input, i: nat): Decision
    requires i < |inp.candidates|
  {
    var c := inp.candidates[i];
    var launch := Decision(c.task, Launch, inp.limits.runTimeout, Ready);
    if c.task in inp.running then Decision(c.task, Wait, 0, AlreadyRunning)
    else if Capped(inp, c) then Decision(c.task, Fail, 0, AttemptCap)
    else if c.task in inp.force then launch
    else if Blocking(Gate(inp)) then Decision(c.task, Wait, 0, Gate(inp))
    else if Rank(inp, i) < Free(inp) then launch
    else Decision(c.task, Wait, 0, WorkersBusy)
  }

  predicate Held(d: Decision) {
    d.action.Wait? && Blocking(d.reason)
  }

  predicate AnyLaunch(ds: seq<Decision>) {
    exists i :: 0 <= i < |ds| && ds[i].action.Launch?
  }

  /** `c` is the reason of the first held decision in `ds`, None when nothing is held. */
  ghost predicate FirstHeld(ds: seq<Decision>, c: Option<Code>) {
    match c
    case None => forall i :: 0 <= i < |ds| ==> !Held(ds[i])
    case Some(r) => exists i :: 0 <= i < |ds| && Held(ds[i]) && ds[i].reason == r
                                && forall j :: 0 <= j < i ==> !Held(ds[j])
  }

  /** What `Decide` promises about its plan, clause by clause. */
  ghost predicate IsPlan(inp: Input, p: Plan) {
    && p.windowState == WindowStateFor(inp.snapshot, inp.limits.sessionThreshold)
    && |p.decisions| == |inp.candidates|
    && (forall i :: 0 <= i < |p.decisions| ==> p.decisions[i] == Verdict(inp, i))
    && (if Gate(inp).SessionExhausted?
        then |p.suspend| == |inp.running|
             && forall i :: 0 <= i < |p.suspend| ==>
                  p.suspend[i] == Decision(inp.running[i], Suspend, 0, SessionExhausted)
        else p.suspend == [])
    && (Blocking(Gate(inp)) || AnyLaunch(p.decisions) ==> p.global == Gate(inp))
    && (!Blocking(Gate(inp)) && !AnyLaunch(p.decisions) ==>
          (p.global.QueueEmpty? <==> inp.candidates == [])
          && (inp.candidates != [] ==>
                exists c :: FirstHeld(p.decisions, c)
                  && p.global == if c.Some? then c.value else Gate(inp)))
  }

  // ---------------------------------------------------------------- the loops

  method Contains(ids: seq<nat>, id: nat) returns (found: bool)
    ensures found <==> id in ids
  {
    for k := 0 to |ids|
      invariant id !in ids[..k]
    {
      if ids[k] == id {
        return true;
      }
    }
    return false;
  }

  method Decide(inp: Input) returns (plan: Plan)
    ensures IsPlan(inp, plan)
  {
    var gate := Gate(inp);
    var suspend: seq<Decision> := [];
    if gate.SessionExhausted? {
      for k := 0 to |inp.running|
        invariant |suspend| == k
        invariant forall i :: 0 <= i < k ==> suspend[i] == Decision(inp.running[i], Suspend, 0, SessionExhausted)
      {
        suspend := suspend + [Decision(inp.running[k], Suspend, 0, gate)];
      }
    }

    var free := inp.limits.workers - |inp.running|;
    var firstBlocked: Option<Code> := None;
    var decisions: seq<Decision> := [];
    for i := 0 to |inp.candidates|
      invariant |decisions| == i
      invariant forall j :: 0 <= j < i ==> decisions[j] == Verdict(inp, j)
      invariant !Blocking(gate) ==> free == Free(inp) - Rank(inp, i) || (free <= 0 && Free(inp) <= Rank(inp, i))
      invariant FirstHeld(decisions, firstBlocked)
    {
      var c := inp.candidates[i];
      var running := Contains(inp.running, c.task);
      var d := Decision(c.task, Wait, 0, Ready);
      if running {
        d := d.(reason := AlreadyRunning);
      } else if c.resume && c.attempt >= inp.limits.maxAttempts {
        d := d.(action := Fail, reason := AttemptCap);
      } else if c.task in inp.force {
        d := d.(action := Launch, timeout := inp.limits.runTimeout, reason := Ready);
      } else if Blocking(gate) {
        d := d.(reason := gate);
      } else if free <= 0 {
        d := d.(reason := WorkersBusy);
      } else {
        d := d.(action := Launch, timeout := inp.limits.runTimeout, reason := Ready);
        free := free - 1;
      }
      assert d == Verdict(inp, i);

      var before := firstBlocked;
      if d.action.Wait? && Blocking(d.reason) && firstBlocked.None? {
        firstBlocked := Some(d.reason);
      }
      FirstHeldGrows(decisions, d, before, firstBlocked);
      decisions := decisions + [d];
    }

    plan := Plan(WindowStateFor(inp.snapshot, inp.limits.sessionThreshold), gate, decisions, suspend);
    var launches := Launches(decisions);
    if !Blocking(gate) && launches == [] {
      if |inp.candidates| == 0 {
        plan := plan.(global := QueueEmpty);
      } else if firstBlocked.Some? {
        plan := plan.(global := firstBlocked.value);
      }
    }
    assert FirstHeld(plan.decisions, firstBlocked);
  }

  lemma FirstHeldGrows(ds: seq<Decision>, d: Decision, before: Option<Code>, after: Option<Code>)
    requires FirstHeld(ds, before)
    requires after == if Held(d) && before.None? then Some(d.reason) else before
    ensures FirstHeld(ds + [d], after)
  {
    var es := ds + [d];
    if before.Some? {
      var i :| 0 <= i < |ds| && Held(ds[i]) && ds[i].reason == before.value && forall j :: 0 <= j < i ==> !Held(ds[j]);
      assert Held(es[i]) && es[i].reason == after.value && forall j :: 0 <= j < i ==> !Held(es[j]);
    } else if Held(d) {
      assert Held(es[|ds|]) && es[|ds|].reason == after.value && forall j :: 0 <= j < |ds| ==> !Held(es[j]);
    }
  }

  /** The decisions of `ds` with action `a`, in order. */
  function WithAction(ds: seq<Decision>, a: Action): (out: seq<Decision>)
    ensures forall d :: d in out <==> d in ds && d.action == a
  {
    if ds == [] then []
    else
      var rest := WithAction(ds[..|ds| - 1], a);
      var last := ds[|ds| - 1];
      assert ds == ds[..|ds| - 1] + [last];
      if last.action == a then rest + [last] else rest
  }

  method Launches(ds: seq<Decision>) returns (out: seq<Decision>)
    ensures out == WithAction(ds, Launch)
    ensures out == [] <==> !AnyLaunch(ds)
  {
    out := [];
    for i := 0 to |ds|
      invariant out == WithAction(ds[..i], Launch)
    {
      assert ds[..i + 1][..i] == ds[..i];
      if ds[i].action.Launch? {
        out := out + [ds[i]];
      }
    }
    assert ds[..|ds|] == ds;
    if out != [] {
      assert out[0] in WithAction(ds, Launch);
      var i :| 0 <= i < |ds| && ds[i] == out[0];
    }
    if AnyLaunch(ds) {
      var i :| 0 <= i < |ds| && ds[i].action.Launch?;
      assert ds[i] in WithAction(ds, Launch);
    }
  }

  method Failures(ds: seq<Decision>) returns (out: seq<Decision>)
    ensures out == WithAction(ds, Fail)
  {
    out := [];
    for i := 0 to |ds|
      invariant out == WithAction(ds[..i], Fail)
    {
      assert ds[..i + 1][..i] == ds[..i];
      if ds[i].action.Fail? {
        out := out + [ds[i]];
      }
    }
    assert ds[..|ds|] == ds;
  }
}
