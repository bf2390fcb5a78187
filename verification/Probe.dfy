/** Probing pull requests (internal/prstatus/prstatus.go, internal/store/task_prs.go): who is
    probed, what a probe writes, and how a failing probe backs off. Times are whole seconds,
    as the store keeps them. */
module Probe {
  import opened Domain

  const MAX_BACKOFF := 86400

  /** `Gone` is the daemon's own word for a URL GitHub does not know. */
  datatype State = Unprobed | Open | Merged | Closed | Gone

  datatype Checked = Never | Malformed | At(time: int)

  datatype PR = PR(url: bool, state: State, draft: bool, checked: Checked, failures: nat)

  datatype Answer = NotFound | Failed | Reports(state: State, draft: bool)

  predicate Terminal(pr: PR) {
    pr.state.Merged? || pr.state.Closed?
  }

  // ---------------------------------------------------------------- the backoff

  function Pow2(n: nat): (p: nat)
    ensures p >= 1
  {
    if n == 0 then 1 else 2 * Pow2(n - 1)
  }

  function Min(a: int, b: int): int { if a < b then a else b }

  function Max(a: int, b: int): int { if a > b then a else b }

  /** The age doubled per failure, at most a day. */
  function Backoff(minAge: int, failures: nat): int {
    Min(minAge * Pow2(failures), MAX_BACKOFF)
  }

  /** The loop stops doubling at a day, so no value on the way exceeds two days, whatever the
      number of failures; the result is nevertheless the capped power. */
  method ProbeBackoff(minAge: int, failures: nat) returns (wait: int, peak: int)
    requires minAge > 0
    ensures wait == Backoff(minAge, failures)
    ensures peak <= Max(minAge, 2 * MAX_BACKOFF) && wait <= peak
  {
    var backoff := minAge;
    peak := backoff;
    var i := 0;
    assert Pow2(0) == 1;
    while i < failures
      invariant i <= failures && 0 < backoff && peak == backoff
      invariant backoff == minAge * Pow2(i)
      invariant peak <= Max(minAge, 2 * MAX_BACKOFF)
    {
      if backoff >= MAX_BACKOFF {
        break;
      }
      backoff := backoff * 2;
      peak := backoff;
      i := i + 1;
    }
    if i < failures {
      PowersGrow(minAge, i, failures);
    }
    wait := Min(backoff, MAX_BACKOFF);
  }

  lemma {:induction false} PowersGrow(minAge: int, i: nat, j: nat)
    requires minAge > 0 && i <= j
    ensures minAge * Pow2(i) <= minAge * Pow2(j)
    decreases j
  {
    if i < j {
      PowersGrow(minAge, i, j - 1);
    }
  }

  /** The first wait is the age and every failure doubles it, up to a day. */
  lemma BackoffDoubles(minAge: int, n: nat)
    requires minAge > 0
    ensures Backoff(minAge, 0) == Min(minAge, 86400)
    ensures Backoff(minAge, n + 1) == Min(2 * Backoff(minAge, n), 86400)
  {
    assert minAge * Pow2(n + 1) == 2 * (minAge * Pow2(n));
    PowersGrow(minAge, 0, n);
  }

  /** More failures never shorten the wait, and it is always positive and at most a day. */
  lemma BackoffIsMonotone(minAge: int, i: nat, j: nat)
    requires minAge > 0 && i <= j
    ensures 0 < Backoff(minAge, i) <= Backoff(minAge, j) <= MAX_BACKOFF
  {
    PowersGrow(minAge, 0, i);
    PowersGrow(minAge, i, j);
  }

  // ---------------------------------------------------------------- one refresh

  predicate ShouldProbe(pr: PR, now: int, minAge: int, force: bool) {
    && pr.url && !Terminal(pr) && (pr.state.Gone? ==> force)
    && (force || minAge <= 0 || !pr.checked.At? || now - pr.checked.time >= Backoff(minAge, pr.failures))
  }

  /** What one answer writes. A failure says nothing about the PR, so only the count and the
      time move. */
  function Written(pr: PR, a: Answer, now: int): PR {
    match a
    case NotFound => pr.(state := Gone, draft := false, checked := At(now), failures := 0)
    case Failed => pr.(checked := At(now), failures := pr.failures + 1)
    case Reports(st, draft) => pr.(state := st, draft := draft, checked := At(now), failures := 0)
  }

  /** Whether an answer counts as a change. Marking a PR gone counts on its state alone. */
  predicate Moves(pr: PR, a: Answer) {
    match a
    case NotFound => !pr.state.Gone?
    case Failed => false
    case Reports(st, draft) => st != pr.state || draft != pr.draft
  }

  predicate Asked(prs: seq<PR>, now: int, minAge: int, force: bool, stop: nat, i: nat)
    requires i < |prs|
  {
    i < stop && ShouldProbe(prs[i], now, minAge, force)
  }

  /** How many of the first `k` PRs changed. */
  function Changes(prs: seq<PR>, answers: seq<Answer>, now: int, minAge: int, force: bool, stop: nat, k: nat): nat
    requires k <= |prs| == |answers|
  {
    if k == 0 then 0
    else Changes(prs, answers, now, minAge, force, stop, k - 1)
         + if Asked(prs, now, minAge, force, stop, k - 1) && Moves(prs[k - 1], answers[k - 1]) then 1 else 0
  }

  method ShouldProbeNow(pr: PR, now: int, minAge: int, force: bool) returns (probe: bool)
    ensures probe == ShouldProbe(pr, now, minAge, force)
  {
    if !pr.url || Terminal(pr) {
      return false;
    }
    if pr.state.Gone? && !force {
      return false;
    }
    if force || minAge <= 0 || pr.checked.Never? {
      return true;
    }
    if pr.checked.Malformed? {
      return true;
    }
    var wait, peak := ProbeBackoff(minAge, pr.failures);
    return now - pr.checked.time >= wait;
  }

  /** `stop` is the first PR the refresh comes to after it was cancelled, |prs| if it never
      is. A cancellation is noticed only before a probe, so everything from there on that was
      due is left alone. */
  method Refresh(prs: seq<PR>, answers: seq<Answer>, now: int, minAge: int, force: bool, stop: nat)
    returns (rows: seq<PR>, changed: nat)
    requires |answers| == |prs|
    ensures |rows| == |prs|
    ensures forall i :: 0 <= i < |prs| ==>
      rows[i] == if Asked(prs, now, minAge, force, stop, i) then Written(prs[i], answers[i], now) else prs[i]
    ensures changed == Changes(prs, answers, now, minAge, force, stop, |prs|)
  {
    rows, changed := prs, 0;
    for i := 0 to |prs|
      invariant |rows| == |prs| && (forall j :: i <= j < |prs| ==> rows[j] == prs[j])
      invariant forall j :: 0 <= j < i ==>
        rows[j] == if Asked(prs, now, minAge, force, stop, j) then Written(prs[j], answers[j], now) else prs[j]
      invariant changed == Changes(prs, answers, now, minAge, force, stop, i)
    {
      var pr := prs[i];
      var due := ShouldProbeNow(pr, now, minAge, force);
      if !due {
        continue;
      }
      if i >= stop {
        NothingAfterStop(prs, answers, now, minAge, force, stop, i, |prs|);
        return;
      }
      match answers[i] {
        case NotFound =>
          rows := rows[i := pr.(state := Gone, draft := false, checked := At(now), failures := 0)];
          if !pr.state.Gone? {
            changed := changed + 1;
          }
        case Failed =>
          rows := rows[i := pr.(checked := At(now), failures := pr.failures + 1)];
        case Reports(st, draft) =>
          rows := rows[i := pr.(state := st, draft := draft, checked := At(now), failures := 0)];
          if st != pr.state || draft != pr.draft {
            changed := changed + 1;
          }
      }
    }
  }

  lemma {:induction false} NothingAfterStop(prs: seq<PR>, answers: seq<Answer>, now: int, minAge: int, force: bool, stop: nat, i: nat, k: nat)
    requires stop <= i <= k <= |prs| == |answers|
    ensures Changes(prs, answers, now, minAge, force, stop, k) == Changes(prs, answers, now, minAge, force, stop, i)
    decreases k
  {
    if i < k {
      NothingAfterStop(prs, answers, now, minAge, force, stop, i, k - 1);
    }
  }

  /** What GitHub settled is never asked about again, and a gone PR only when the user asks. */
  lemma SettledIsLeftAlone(pr: PR, a: Answer, now: int, later: int, minAge: int, force: bool)
    ensures Written(pr, a, now).state in {Merged, Closed} ==> !ShouldProbe(Written(pr, a, now), later, minAge, force)
    ensures a.NotFound? ==> (ShouldProbe(Written(pr, a, now), later, minAge, force) ==> force)
    ensures a.Failed? ==> Written(pr, a, now).state == pr.state && Written(pr, a, now).draft == pr.draft
  {
  }

  /** A PR just asked about is left in peace: no sweep asks again before its age is up, a day
      at most, and after a failure not before twice that. */
  lemma JustAskedWaits(pr: PR, a: Answer, now: int, later: int, minAge: int)
    requires minAge > 0 && now <= later
    requires later - now < Min(if a.Failed? then 2 * minAge else minAge, MAX_BACKOFF)
    ensures !ShouldProbe(Written(pr, a, now), later, minAge, false)
  {
    var failures := Written(pr, a, now).failures;
    PowersGrow(minAge, if a.Failed? then 1 else 0, failures);
    assert Pow2(1) == 2 * Pow2(0);
  }

  /** After a refresh each PR that was asked about shows what GitHub said: the state and draft
      flag reported, with the failures forgotten, or gone; after a failure it shows what it
      showed before with one failure more. The count is of the rows that show another state,
      or another draft flag GitHub reported. */
  lemma {:induction false} RefreshShows(prs: seq<PR>, answers: seq<Answer>, now: int, minAge: int, force: bool, stop: nat, rows: seq<PR>)
    requires |answers| == |prs| == |rows| && forall i :: 0 <= i < |prs| ==>
      rows[i] == if Asked(prs, now, minAge, force, stop, i) then Written(prs[i], answers[i], now) else prs[i]
    ensures forall i :: 0 <= i < |prs| && Asked(prs, now, minAge, force, stop, i) ==> Shows(prs[i], answers[i], now, rows[i])
    ensures Changes(prs, answers, now, minAge, force, stop, |prs|) == |Changed(prs, answers, rows, |prs|)|
  {
    ChangesAreSeen(prs, answers, now, minAge, force, stop, rows, |prs|);
  }

  predicate ShowsChange(prs: seq<PR>, answers: seq<Answer>, rows: seq<PR>, i: nat)
    requires i < |prs| == |answers| == |rows|
  {
    rows[i].state != prs[i].state || (answers[i].Reports? && rows[i].draft != prs[i].draft)
  }

  function Changed(prs: seq<PR>, answers: seq<Answer>, rows: seq<PR>, k: nat): set<nat>
    requires k <= |prs| == |answers| == |rows|
  {
    set i | 0 <= i < k && ShowsChange(prs, answers, rows, i)
  }

  lemma ChangedPush(prs: seq<PR>, answers: seq<Answer>, rows: seq<PR>, n: nat)
    requires n < |prs| == |answers| == |rows|
    ensures |Changed(prs, answers, rows, n + 1)|
      == |Changed(prs, answers, rows, n)| + if ShowsChange(prs, answers, rows, n) then 1 else 0
  {
    var before := Changed(prs, answers, rows, n);
    assert Changed(prs, answers, rows, n + 1) == if ShowsChange(prs, answers, rows, n) then before + {n} else before;
  }

  predicate Shows(pr: PR, a: Answer, now: int, row: PR) {
    && row.url == pr.url && row.checked == At(now)
    && (a.Reports? ==> row.state == a.state && row.draft == a.draft && row.failures == 0)
    && (a.NotFound? ==> row.state.Gone? && !row.draft && row.failures == 0)
    && (a.Failed? ==> row.state == pr.state && row.draft == pr.draft && row.failures == pr.failures + 1)
  }

  lemma {:induction false} ChangesAreSeen(prs: seq<PR>, answers: seq<Answer>, now: int, minAge: int, force: bool, stop: nat,
                                          rows: seq<PR>, k: nat)
    requires k <= |answers| == |prs| == |rows| && forall i :: 0 <= i < |prs| ==>
      rows[i] == if Asked(prs, now, minAge, force, stop, i) then Written(prs[i], answers[i], now) else prs[i]
    ensures Changes(prs, answers, now, minAge, force, stop, k) == |Changed(prs, answers, rows, k)|
    decreases k
  {
    if k > 0 {
      var n := k - 1;
      ChangesAreSeen(prs, answers, now, minAge, force, stop, rows, n);
      ChangedPush(prs, answers, rows, n);
      assert ShowsChange(prs, answers, rows, n) <==> Asked(prs, now, minAge, force, stop, n) && Moves(prs[n], answers[n]);
    }
  }

  // ---------------------------------------------------------------- a URL that never answers

  /** The row after sweeps at times `ts`, when every probe fails. */
  function RowAfter(pr: PR, ts: seq<int>, minAge: int): PR {
    if ts == [] then pr
    else
      var row, now := RowAfter(pr, ts[..|ts| - 1], minAge), ts[|ts| - 1];
      if ShouldProbe(row, now, minAge, false) then Written(row, Answer.Failed, now) else row
  }

  /** The times of the sweeps that probe. */
  function Probes(pr: PR, ts: seq<int>, minAge: int): seq<int> {
    if ts == [] then []
    else
      var row, now := RowAfter(pr, ts[..|ts| - 1], minAge), ts[|ts| - 1];
      Probes(pr, ts[..|ts| - 1], minAge) + if ShouldProbe(row, now, minAge, false) then [now] else []
  }

  /** The row remembers its last probe and how many there were; each probe keeps its distance
      from the one before. */
  lemma {:induction false} ProbesKeepDistance(pr: PR, ts: seq<int>, minAge: int)
    requires pr.checked.Never? && pr.failures == 0 && minAge > 0
    ensures var ps, row := Probes(pr, ts, minAge), RowAfter(pr, ts, minAge);
      && row.failures == |ps| && (if ps == [] then row.checked.Never? else row.checked == At(ps[|ps| - 1]))
      && forall k :: 0 < k < |ps| ==> ps[k] - ps[k - 1] >= Backoff(minAge, k)
  {
    if ts != [] {
      ProbesKeepDistance(pr, ts[..|ts| - 1], minAge);
    }
  }

  /** The waits before probes 2 to k + 1. */
  function Waits(minAge: int, k: nat): int {
    if k == 0 then 0 else Waits(minAge, k - 1) + Backoff(minAge, k)
  }

  /** However often the sweep runs, the probe number k + 1 of a URL that never answers comes no
      sooner than the first k waits after the first. */
  lemma {:induction false} ProbesAreSparse(pr: PR, ts: seq<int>, minAge: int, k: nat)
    requires pr.checked.Never? && pr.failures == 0 && minAge > 0 && k < |Probes(pr, ts, minAge)|
    ensures Probes(pr, ts, minAge)[k] >= Probes(pr, ts, minAge)[0] + Waits(minAge, k)
    decreases k
  {
    ProbesKeepDistance(pr, ts, minAge);
    if k > 0 {
      ProbesAreSparse(pr, ts, minAge, k - 1);
    }
  }

  /** After enough failures to reach the cap the URL costs at most a call a day. */
  lemma OneCallADay(pr: PR, ts: seq<int>, minAge: int, k: nat)
    requires pr.checked.Never? && pr.failures == 0 && minAge > 0
    requires 0 < k < |Probes(pr, ts, minAge)| && minAge * Pow2(k) >= MAX_BACKOFF
    ensures Probes(pr, ts, minAge)[k] - Probes(pr, ts, minAge)[k - 1] >= MAX_BACKOFF
  {
    ProbesKeepDistance(pr, ts, minAge);
  }
}
