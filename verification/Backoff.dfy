/** The scheduler's two back-offs (internal/scheduler/scheduler.go): the latch that sits out a
    spent week, and the growing pause after the usage API answers 429. */
module Backoff {
  import opened Domain
  import Policy

  // ---------------------------------------------------------------- the weekly latch

  /** A usage reading: both utilizations in percent, and when the session and the week end. */
  datatype Reading = Reading(session: real, sessionEnds: Option<int>, weekly: real, weeklyEnds: int)

  /** What one tick of the loop sees: the time, the weekly threshold in force, and the last
      reading, if there is one. */
  datatype Tick = Tick(now: int, threshold: real, last: Option<Reading>)

  const UTIL_DROP := 40.0
  const ADVANCE_EPSILON := 120

  /** What the loop remembers from one tick to the next. */
  datatype Memory = Memory(until: Option<int>, lastUtil: real, lastEnds: Option<int>)

  const Fresh := Memory(None, 0.0, None)

  /** A reading that starts a new session: its end moved on, or its utilization fell. */
  predicate NewSession(m: Memory, r: Reading) {
    || (m.lastEnds.Some? && r.sessionEnds.Some? && r.sessionEnds.value - m.lastEnds.value > ADVANCE_EPSILON)
    || (m.lastUtil > 0.0 && r.session < m.lastUtil - UTIL_DROP)
  }

  predicate Edge(m: Memory, t: Tick) {
    t.last.Some? && NewSession(m, t.last.value)
  }

  predicate Spent(t: Tick) {
    t.last.Some? && t.last.value.weekly >= t.threshold
  }

  predicate Dip(t: Tick) {
    t.last.Some? && t.last.value.weekly < t.threshold
  }

  predicate HeldAt(until: Option<int>, now: int) {
    until.Some? && now < until.value
  }

  /** A new session clears the latch. Then a spent reading sets it if it is not set, and any
      other releases it once its time has passed. */
  function Seen(m: Memory, t: Tick): Memory {
    if t.last.None? then m
    else
      var r := t.last.value;
      var until := if NewSession(m, r) then None else m.until;
      Memory(
        if Spent(t) then (if until.None? then Some(r.weeklyEnds) else until)
        else if HeldAt(until, t.now) then until else None,
        r.session, if r.sessionEnds.Some? then r.sessionEnds else m.lastEnds)
  }

  function After(m: Memory, ts: seq<Tick>): Memory {
    if ts == [] then m else Seen(After(m, ts[..|ts| - 1]), ts[|ts| - 1])
  }

  class Scheduler {
    var backoff: Option<int>
    var lastUtil: real
    var lastEnds: Option<int>

    function Now(): Memory
      reads this
    {
      Memory(backoff, lastUtil, lastEnds)
    }

    constructor ()
      ensures Now() == Fresh
    {
      backoff, lastUtil, lastEnds := None, 0.0, None;
    }

    method Observe(r: Reading) returns (reset: bool)
      modifies this`lastUtil, this`lastEnds
      ensures reset <==> NewSession(old(Now()), r)
      ensures reset <==>
        || (old(lastEnds).Some? && r.sessionEnds.Some? && r.sessionEnds.value > old(lastEnds).value + 120)
        || (old(lastUtil) > 0.0 && r.session + 40.0 < old(lastUtil))
      ensures lastUtil == r.session && lastEnds == if r.sessionEnds.Some? then r.sessionEnds else old(lastEnds)
    {
      reset := false;
      if lastEnds.Some? && r.sessionEnds.Some? {
        if r.sessionEnds.value - lastEnds.value > ADVANCE_EPSILON {
          reset := true;
        }
      }
      if lastUtil > 0.0 && r.session < lastUtil - UTIL_DROP {
        reset := true;
      }
      lastUtil := r.session;
      if r.sessionEnds.Some? {
        lastEnds := r.sessionEnds;
      }
    }

    method RecordWeeklyBackoff(t: Tick)
      modifies this`backoff
      ensures t.last.None? || (old(backoff).Some? && t.now < old(backoff).value) ==> backoff == old(backoff)
      ensures t.last.Some? && t.last.value.weekly >= t.threshold ==>
        backoff == Some(if old(backoff).Some? then old(backoff).value else t.last.value.weeklyEnds)
      ensures t.last.Some? && t.last.value.weekly < t.threshold && (old(backoff).None? || t.now >= old(backoff).value) ==>
        backoff.None?
    {
      if t.last.None? {
        return;
      }
      var r := t.last.value;
      if r.weekly >= t.threshold {
        if backoff.None? {
          backoff := Some(r.weeklyEnds);
        }
        return;
      }
      if backoff.Some? && !(t.now < backoff.value) {
        backoff := None;
      }
    }

    /** The part of a tick that looks at the reading. */
    method Look(t: Tick)
      modifies this
      ensures Now() == Seen(old(Now()), t)
    {
      if t.last.Some? {
        var reset := Observe(t.last.value);
        if reset {
          backoff := None;
        }
      }
      RecordWeeklyBackoff(t);
    }
  }

  /** The older latch `m` had when the week was spent is still the one in force. */
  predicate OlderInForce(m: Memory, spent: Tick, ts: seq<Tick>, j: nat)
    requires j <= |ts|
  {
    && m.until.Some? && !Edge(m, spent)
    && forall i :: 0 <= i < j ==> !Edge(After(Seen(m, spent), ts[..i]), ts[i])
  }

  /** The guards of the loop at tick `j`: the reading starts no session, and no older latch
      runs out. */
  predicate Guarded(m: Memory, spent: Tick, ts: seq<Tick>, j: nat)
    requires j < |ts|
  {
    && !Edge(After(Seen(m, spent), ts[..j]), ts[j])
    && (OlderInForce(m, spent, ts, j) ==> ts[j].now < m.until.value)
  }

  /** Every dip is held while it lasts. */
  predicate SatOut(m: Memory, spent: Tick, ts: seq<Tick>) {
    forall j :: 0 <= j < |ts| && Dip(ts[j]) ==> HeldAt(After(Seen(m, spent), ts[..j + 1]).until, ts[j].now)
  }

  predicate DipsGuarded(m: Memory, spent: Tick, ts: seq<Tick>) {
    forall j :: 0 <= j < |ts| && Dip(ts[j]) ==> Guarded(m, spent, ts, j)
  }

  /** The ticks `ts` all see the week that `spent` saw the end of. */
  predicate SameWeek(spent: Tick, ts: seq<Tick>) {
    && Spent(spent)
    && forall j :: 0 <= j < |ts| ==>
         ts[j].now < spent.last.value.weeklyEnds
         && (Spent(ts[j]) ==> ts[j].last.value.weeklyEnds == spent.last.value.weeklyEnds)
  }

  /** While every dip is guarded the latch stays: the older one, or the end of this week. */
  lemma {:induction false} GuardedKeeps(m: Memory, spent: Tick, ts: seq<Tick>)
    requires SameWeek(spent, ts) && DipsGuarded(m, spent, ts)
    ensures After(Seen(m, spent), ts).until
      == if OlderInForce(m, spent, ts, |ts|) then m.until else Some(spent.last.value.weeklyEnds)
  {
    if ts != [] {
      var n := |ts| - 1;
      FrontTicks(m, spent, ts);
      GuardedKeeps(m, spent, ts[..n]);
      assert OlderInForce(m, spent, ts, n + 1)
        <==> OlderInForce(m, spent, ts, n) && !Edge(After(Seen(m, spent), ts[..n]), ts[n]);
      assert Dip(ts[n]) ==> Guarded(m, spent, ts, n);
    }
  }

  /** What holds of the earlier ticks is what holds of them on their own. */
  lemma {:induction false} FrontTicks(m: Memory, spent: Tick, ts: seq<Tick>)
    requires ts != []
    ensures forall j :: 0 <= j <= |ts| - 1 ==> ts[..|ts| - 1][..j] == ts[..j]
    ensures OlderInForce(m, spent, ts, |ts| - 1) == OlderInForce(m, spent, ts[..|ts| - 1], |ts| - 1)
    ensures forall j :: 0 <= j < |ts| - 1 ==> Guarded(m, spent, ts[..|ts| - 1], j) == Guarded(m, spent, ts, j)
  {
    var front := ts[..|ts| - 1];
    forall j | 0 <= j <= |ts| - 1
      ensures front[..j] == ts[..j] && OlderInForce(m, spent, front, j) == OlderInForce(m, spent, ts, j)
    {
      assert front[..j] == ts[..j];
      assert forall i :: 0 <= i < j ==> front[..i] == ts[..i] && front[i] == ts[i];
    }
  }

  /** A spent week is sat out, whatever the readings do until its end, exactly when no dip is
      the first reading of a new session and none comes after the time of an older latch that
      is still in force. */
  lemma {:induction false} SatOutIff(m: Memory, spent: Tick, ts: seq<Tick>)
    requires SameWeek(spent, ts)
    ensures SatOut(m, spent, ts) <==> DipsGuarded(m, spent, ts)
  {
    if ts != [] {
      var n := |ts| - 1;
      var front := ts[..n];
      SatOutIff(m, spent, front);
      SatOutPush(m, spent, ts);
      FrontTicks(m, spent, ts);
      if DipsGuarded(m, spent, front) && Dip(ts[n]) {
        LastDip(m, spent, ts);
      }
    }
  }

  lemma {:induction false} SatOutPush(m: Memory, spent: Tick, ts: seq<Tick>)
    requires ts != []
    ensures SatOut(m, spent, ts) <==>
      && SatOut(m, spent, ts[..|ts| - 1])
      && (Dip(ts[|ts| - 1]) ==> HeldAt(After(Seen(m, spent), ts).until, ts[|ts| - 1].now))
  {
    var n := |ts| - 1;
    var front := ts[..n];
    assert ts[..n + 1] == ts;
    forall j | 0 <= j < n
      ensures HeldAt(After(Seen(m, spent), front[..j + 1]).until, front[j].now)
          <==> HeldAt(After(Seen(m, spent), ts[..j + 1]).until, ts[j].now)
    {
      assert front[..j + 1] == ts[..j + 1];
    }
    if SatOut(m, spent, ts) {
      assert Dip(ts[n]) ==> HeldAt(After(Seen(m, spent), ts[..n + 1]).until, ts[n].now);
    }
  }

  lemma {:induction false} LastDip(m: Memory, spent: Tick, ts: seq<Tick>)
    requires ts != [] && SameWeek(spent, ts) && DipsGuarded(m, spent, ts[..|ts| - 1]) && Dip(ts[|ts| - 1])
    ensures HeldAt(After(Seen(m, spent), ts).until, ts[|ts| - 1].now) <==> Guarded(m, spent, ts, |ts| - 1)
  {
    FrontTicks(m, spent, ts);
    GuardedKeeps(m, spent, ts[..|ts| - 1]);
  }

  /** A week sat out launches nothing but what is launched by hand. */
  lemma {:induction false} SpentWeekIsSatOut(m: Memory, spent: Tick, ts: seq<Tick>, inp: Policy.Input, i: nat)
    requires SameWeek(spent, ts) && DipsGuarded(m, spent, ts) && i < |inp.candidates|
    requires ts != [] && Dip(ts[|ts| - 1]) && inp.now == ts[|ts| - 1].now
    requires inp.weeklyBackoffUntil == After(Seen(m, spent), ts).until
    ensures Policy.Verdict(inp, i).action.Launch? ==> inp.candidates[i].task in inp.force
  {
    SatOutIff(m, spent, ts);
    assert ts[..|ts| - 1 + 1] == ts;
    HeldMeansNoLaunch(inp, i);
  }

  lemma HeldMeansNoLaunch(inp: Policy.Input, i: nat)
    requires i < |inp.candidates| && HeldAt(inp.weeklyBackoffUntil, inp.now)
    ensures Policy.Verdict(inp, i).action.Launch? ==> inp.candidates[i].task in inp.force
  {
  }

  /** The policy's view of tick `t` with one candidate waiting and one worker free. */
  function OneWaiting(t: Tick, until: Option<int>): Policy.Input
    requires t.last.Some?
  {
    var r := t.last.value;
    Policy.Input(t.now, Some(Policy.Snapshot(t.now, r.session, r.sessionEnds, r.weekly)),
                 Policy.Limits(1, 95.0, t.threshold, 3, 3600, 0), [Policy.Candidate(1, false, 0)], [], until, {})
  }

  /** The latch is fresh, the week is spent, and the first dip starts a new session: the
      waiting task is launched days before the week ends. */
  lemma NewSessionReleases()
    ensures exists spent: Tick, dip: Tick ::
      && SameWeek(spent, [dip]) && Dip(dip) && dip.now + 400000 < spent.last.value.weeklyEnds
      && Policy.Verdict(OneWaiting(dip, After(Fresh, [spent, dip]).until), 0).action.Launch?
  {
    var spent := Tick(0, 90.0, Some(Reading(30.0, Some(100), 95.0, 500000)));
    var dip := Tick(200, 90.0, Some(Reading(0.0, Some(18100), 85.0, 500000)));
    assert [spent, dip][..1] == [spent] && [spent][..0] == [];
    assert After(Fresh, [spent]) == Memory(Some(500000), 30.0, Some(100));
    assert After(Fresh, [spent, dip]).until == None;
    assert Policy.Verdict(OneWaiting(dip, None), 0).action.Launch?;
    assert SameWeek(spent, [dip]);
  }

  /** Two spent weeks in a row, with no pass below the threshold between them and no new
      session seen, are not both sat out: the first week's latch stays, and runs out. */
  lemma SecondWeekIsNotSatOut()
    ensures exists spent: Tick, again: Tick, dip: Tick ::
      && Spent(spent) && SameWeek(again, [dip]) && Dip(dip)
      && spent.now < spent.last.value.weeklyEnds < again.now < dip.now
      && !Edge(After(Fresh, [spent]), again) && !Edge(After(Fresh, [spent, again]), dip)
      && Policy.Verdict(OneWaiting(dip, After(Fresh, [spent, again, dip]).until), 0).action.Launch?
  {
    var spent := Tick(0, 90.0, Some(Reading(30.0, None, 95.0, 10)));
    var again := Tick(11, 90.0, Some(Reading(30.0, None, 95.0, 20)));
    var dip := Tick(12, 90.0, Some(Reading(30.0, None, 50.0, 20)));
    var ts := [spent, again, dip];
    assert ts[..2] == [spent, again] && ts[..2][..1] == [spent] && [spent][..0] == [];
    assert After(Fresh, [spent]) == Memory(Some(10), 30.0, None);
    assert [spent, again][..1] == [spent];
    assert After(Fresh, [spent, again]) == Memory(Some(10), 30.0, None);
    assert After(Fresh, ts).until == None;
    assert Policy.Verdict(OneWaiting(dip, None), 0).action.Launch?;
    assert SameWeek(again, [dip]);
  }

  // ---------------------------------------------------------------- the pause after a 429

  const INITIAL_DELAY := 30.0
  const MAX_DELAY := 600.0

  function Min(a: real, b: real): real { if a < b then a else b }

  /** The delay before jitter: doubled, never above ten minutes, at least what was asked. */
  function Base(current: real, retryAfter: real): real {
    var doubled := Min(if current == 0.0 then INITIAL_DELAY else current * 2.0, MAX_DELAY);
    if retryAfter > doubled then Min(retryAfter, MAX_DELAY) else doubled
  }

  predicate Jitters(base: real, d: real) {
    0.9 * base <= d <= 1.1 * base
  }

  /** `jittered` is what the jitter makes of the delay: within a tenth of it. */
  method NextRateLimitDelay(current: real, retryAfter: real, spread: real) returns (d: real)
    requires -0.1 <= spread <= 0.1
    ensures d == Base(current, retryAfter) * (1.0 + spread)
    ensures current >= 0.0 ==> Jitters(Base(current, retryAfter), d)
  {
    var base := INITIAL_DELAY;
    if current != 0.0 {
      base := current * 2.0;
    }
    if base > MAX_DELAY {
      base := MAX_DELAY;
    }
    if retryAfter > base {
      base := retryAfter;
      if base > MAX_DELAY {
        base := MAX_DELAY;
      }
    }
    d := base * (1.0 + spread);
    if current >= 0.0 {
      Spread(base, spread);
    }
  }

  lemma Spread(base: real, spread: real)
    requires base >= 0.0 && -0.1 <= spread <= 0.1
    ensures Jitters(base, base * (1.0 + spread))
  {
    assert base * (spread + 0.1) >= 0.0 && base * (0.1 - spread) >= 0.0;
  }

  /** What any series of 429 answers guarantees about the delay after `n` of them. */
  function Floor(n: nat): real {
    if n == 0 then 0.0 else if n == 1 then 27.0 else Min(1.8 * Floor(n - 1), 540.0)
  }

  /** `ds` are the delays of consecutive 429 answers, from none, each answering with its own
      retry-after and jittered at will. */
  predicate Series(ds: seq<real>, retryAfters: seq<real>) {
    |ds| == |retryAfters| && forall k :: 0 <= k < |ds| ==> Follows(ds, retryAfters, k)
  }

  predicate Follows(ds: seq<real>, retryAfters: seq<real>, k: nat)
    requires k < |ds| == |retryAfters|
  {
    Jitters(Base(if k == 0 then 0.0 else ds[k - 1], retryAfters[k]), ds[k])
  }

  /** Jitter never makes a pause longer than eleven minutes nor lets the pauses stop growing:
      each is at least the guaranteed floor. */
  lemma {:induction false} PausesGrow(ds: seq<real>, retryAfters: seq<real>, k: nat)
    requires Series(ds, retryAfters) && k < |ds|
    ensures 0.0 < Floor(k + 1) <= ds[k] <= 660.0
    ensures retryAfters[k] <= MAX_DELAY ==> ds[k] >= 0.9 * retryAfters[k]
    decreases k
  {
    assert Follows(ds, retryAfters, k);
    if k > 0 {
      PausesGrow(ds, retryAfters, k - 1);
    }
  }

  /** From the seventh 429 in a row on, the scheduler waits nine minutes or more. */
  lemma {:induction false} SeventhPauseIsLong(ds: seq<real>, retryAfters: seq<real>, k: nat)
    requires Series(ds, retryAfters) && 6 <= k < |ds|
    ensures ds[k] >= 540.0
    decreases k
  {
    PausesGrow(ds, retryAfters, k);
    FloorAtSeven(k + 1);
  }

  lemma {:induction false} FloorAtSeven(n: nat)
    requires n >= 7
    ensures Floor(n) == 540.0
    decreases n
  {
    if n > 7 {
      FloorAtSeven(n - 1);
    } else {
      assert Floor(2) == 48.6 && Floor(3) == 87.48 && Floor(4) == 157.464;
      assert Floor(5) == 283.4352 && Floor(6) == 510.18336;
    }
  }
}
