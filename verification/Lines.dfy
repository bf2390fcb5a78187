/** Line accounting (internal/store/task_prs.go, internal/runner/runner.go): a branch keeps
    its cumulative churn, a run is credited with what is new since the last measurement. */
module Lines {
  import opened Domain

  datatype Lines = Lines(added: nat, removed: nat)

  const ZERO := Lines(0, 0)

  function Max0(x: int): nat { if x > 0 then x else 0 }

  function Plus(a: Lines, b: Lines): Lines {
    Lines(a.added + b.added, a.removed + b.removed)
  }

  /** What `now` has over `was`, never negative. */
  function Over(now: Lines, was: Lines): Lines {
    Lines(Max0(now.added - was.added), Max0(now.removed - was.removed))
  }

  /** A branch a run reports: whether there is a worktree to measure, and what the measurement
      gave if it worked. Branches are numbered. */
  datatype Report = Report(branch: nat, worktree: bool, stat: Option<Lines>)

  type Rows = map<nat, Lines>

  predicate Counts(rows: Rows, r: Report) {
    r.worktree && r.stat.Some? && r.branch in rows
  }

  /** The rows after the first `k` reports. */
  function RowsAt(rows: Rows, rs: seq<Report>, k: nat): Rows
    requires k <= |rs|
  {
    if k == 0 then rows
    else
      var front, r := RowsAt(rows, rs, k - 1), rs[k - 1];
      if Counts(front, r) then front[r.branch := r.stat.value] else front
  }

  /** How much the row of report `k` grows at it. */
  function Growth(rows: Rows, rs: seq<Report>, k: nat): Lines
    requires k < |rs|
  {
    var now, r := RowsAt(rows, rs, k), rs[k];
    if Counts(now, r) then Over(r.stat.value, now[r.branch]) else ZERO
  }

  /** How much it shrinks. */
  function Shrinkage(rows: Rows, rs: seq<Report>, k: nat): Lines
    requires k < |rs|
  {
    var now, r := RowsAt(rows, rs, k), rs[k];
    if Counts(now, r) then Over(now[r.branch], r.stat.value) else ZERO
  }

  /** What the first `k` reports credit. */
  function Credit(rows: Rows, rs: seq<Report>, k: nat): Lines
    requires k <= |rs|
  {
    if k == 0 then ZERO else Plus(Credit(rows, rs, k - 1), Growth(rows, rs, k - 1))
  }

  function Shrunk(rows: Rows, rs: seq<Report>, k: nat): Lines
    requires k <= |rs|
  {
    if k == 0 then ZERO else Plus(Shrunk(rows, rs, k - 1), Shrinkage(rows, rs, k - 1))
  }

  // ---------------------------------------------------------------- the store

  class Ledger {
    var branches: Rows
    var runs: map<nat, Lines>

    constructor ()
      ensures branches == map[] && runs == map[]
    {
      branches, runs := map[], map[];
    }

    /** Creating a branch's row leaves the line counts of an existing one alone. */
    method UpsertTaskPR(b: nat)
      modifies this`branches
      ensures branches == if b in old(branches) then old(branches) else old(branches)[b := ZERO]
    {
      if b !in branches {
        branches := branches[b := ZERO];
      }
    }

    /** None when the branch has no row. */
    method RecordTaskPRLines(b: nat, total: Lines) returns (delta: Option<Lines>)
      modifies this`branches
      ensures b !in old(branches) ==> delta.None? && branches == old(branches)
      ensures b in old(branches) ==>
        delta == Some(Over(total, old(branches)[b])) && branches == old(branches)[b := total]
      ensures var was := old(branches);
        b in was ==>
          && delta.value.added == (if total.added > was[b].added then total.added - was[b].added else 0)
          && delta.value.removed == (if total.removed > was[b].removed then total.removed - was[b].removed else 0)
    {
      if b !in branches {
        return None;
      }
      var prev := branches[b];
      branches := branches[b := total];
      return Some(Lines(Max0(total.added - prev.added), Max0(total.removed - prev.removed)));
    }

    method RecordRunLines(run: nat, results: seq<Report>)
      modifies this
      ensures branches == RowsAt(old(branches), results, |results|)
      ensures var credit := Credit(old(branches), results, |results|);
        runs == if credit == ZERO then old(runs) else old(runs)[run := credit]
    {
      var added: nat, removed: nat := 0, 0;
      for i := 0 to |results|
        invariant branches == RowsAt(old(branches), results, i) && runs == old(runs)
        invariant Lines(added, removed) == Credit(old(branches), results, i)
      {
        var r := results[i];
        if !r.worktree || r.stat.None? {
          continue;
        }
        var delta := RecordTaskPRLines(r.branch, r.stat.value);
        if delta.None? {
          continue;
        }
        added, removed := added + delta.value.added, removed + delta.value.removed;
      }
      if added == 0 && removed == 0 {
        return;
      }
      runs := runs[run := Lines(added, removed)];
    }
  }

  /** Report `j` is the last of the first `k` that measured branch `b` in a worktree. */
  predicate LastMeasured(rs: seq<Report>, k: nat, b: nat, j: nat)
    requires k <= |rs|
  {
    j < k && rs[j].branch == b && rs[j].worktree && rs[j].stat.Some?
    && forall i :: j < i < k && rs[i].branch == b ==> !rs[i].worktree || rs[i].stat.None?
  }

  predicate Unmeasured(rs: seq<Report>, k: nat, b: nat)
    requires k <= |rs|
  {
    forall i :: 0 <= i < k && rs[i].branch == b ==> !rs[i].worktree || rs[i].stat.None?
  }

  /** A run leaves each branch at its last measurement, and one it did not measure as it was;
      it adds no branch. */
  lemma {:induction false} RowsAreMeasurements(rows: Rows, rs: seq<Report>, k: nat, b: nat)
    requires k <= |rs|
    ensures RowsAt(rows, rs, k).Keys == rows.Keys
    ensures b in rows ==>
      if Unmeasured(rs, k, b) then RowsAt(rows, rs, k)[b] == rows[b]
      else exists j :: 0 <= j < k && LastMeasured(rs, k, b, j) && RowsAt(rows, rs, k)[b] == rs[j].stat.value
    decreases k
  {
    if k > 0 {
      RowsAreMeasurements(rows, rs, k - 1, b);
      if b in rows {
        var r := rs[k - 1];
        if r.branch == b && r.worktree && r.stat.Some? {
          assert LastMeasured(rs, k, b, k - 1);
        } else if !Unmeasured(rs, k - 1, b) {
          var j :| 0 <= j < k - 1 && LastMeasured(rs, k - 1, b, j) && RowsAt(rows, rs, k - 1)[b] == rs[j].stat.value;
          assert LastMeasured(rs, k, b, j);
        }
      }
    }
  }

  // ---------------------------------------------------------------- whole histories

  /** What run `run` does: the rows it creates, then the reports it measures. */
  datatype Entry = Entry(run: nat, upserts: seq<nat>, reports: seq<Report>)

  function Upserted(rows: Rows, bs: seq<nat>, k: nat): Rows
    requires k <= |bs|
  {
    if k == 0 then rows
    else
      var front := Upserted(rows, bs, k - 1);
      if bs[k - 1] in front then front else front[bs[k - 1] := ZERO]
  }

  /** The rows entry `k` starts measuring from. */
  function StartOf(h: seq<Entry>, k: nat): Rows
    requires k < |h|
    decreases k, 1
  {
    Upserted(RowsOf(h, k), h[k].upserts, |h[k].upserts|)
  }

  /** The rows after the first `k` entries. */
  function RowsOf(h: seq<Entry>, k: nat): Rows
    requires k <= |h|
    decreases k, 0
  {
    if k == 0 then map[] else RowsAt(StartOf(h, k - 1), h[k - 1].reports, |h[k - 1].reports|)
  }

  /** What entry `k` credits to its run. */
  function CreditOf(h: seq<Entry>, k: nat): Lines
    requires k < |h|
  {
    Credit(StartOf(h, k), h[k].reports, |h[k].reports|)
  }

  /** The run rows after the first `k` entries. */
  function RunRows(h: seq<Entry>, k: nat): Rows
    requires k <= |h|
  {
    if k == 0 then map[]
    else if CreditOf(h, k - 1) == ZERO then RunRows(h, k - 1)
    else RunRows(h, k - 1)[h[k - 1].run := CreditOf(h, k - 1)]
  }

  /** What the first `k` entries credit in all. */
  function SumRuns(h: seq<Entry>, k: nat): Lines
    requires k <= |h|
  {
    if k == 0 then ZERO
    else Plus(SumRuns(h, k - 1), CreditOf(h, k - 1))
  }

  /** What the branches lost on the way. */
  function SumShrunk(h: seq<Entry>, k: nat): Lines
    requires k <= |h|
  {
    if k == 0 then ZERO
    else Plus(SumShrunk(h, k - 1), Shrunk(StartOf(h, k - 1), h[k - 1].reports, |h[k - 1].reports|))
  }

  /** What the rows numbered below `n` add up to. */
  function SumRows(rows: Rows, n: nat): Lines {
    if n == 0 then ZERO
    else Plus(SumRows(rows, n - 1), if n - 1 in rows then rows[n - 1] else ZERO)
  }

  predicate Below(rows: Rows, n: nat) {
    forall b :: b in rows ==> b < n
  }

  lemma {:induction false} SumUpdateAbove(rows: Rows, b: nat, l: Lines, n: nat)
    requires b >= n
    ensures SumRows(rows[b := l], n) == SumRows(rows, n)
  {
    if n > 0 {
      SumUpdateAbove(rows, b, l, n - 1);
    }
  }

  lemma {:induction false} SumUpdate(rows: Rows, b: nat, l: Lines, n: nat)
    requires b < n
    ensures Plus(SumRows(rows[b := l], n), if b in rows then rows[b] else ZERO) == Plus(SumRows(rows, n), l)
  {
    if b == n - 1 {
      SumUpdateAbove(rows, b, l, n - 1);
    } else {
      SumUpdate(rows, b, l, n - 1);
    }
  }

  /** Along one run's reports: what the branches had, plus what was credited, is what they
      have now plus what they lost. */
  lemma {:induction false} ReportsTelescope(rows: Rows, rs: seq<Report>, k: nat, n: nat)
    requires Below(rows, n) && k <= |rs|
    ensures Below(RowsAt(rows, rs, k), n)
    ensures Plus(SumRows(rows, n), Credit(rows, rs, k)) == Plus(SumRows(RowsAt(rows, rs, k), n), Shrunk(rows, rs, k))
  {
    if k > 0 {
      ReportsTelescope(rows, rs, k - 1, n);
      var now, r := RowsAt(rows, rs, k - 1), rs[k - 1];
      if Counts(now, r) {
        SumUpdate(now, r.branch, r.stat.value, n);
      }
    }
  }

  /** What the first `k` reports credit on branch `b`. */
  function CreditTo(rows: Rows, rs: seq<Report>, k: nat, b: nat): Lines
    requires k <= |rs|
  {
    if k == 0 then ZERO
    else Plus(CreditTo(rows, rs, k - 1, b), if rs[k - 1].branch == b then Growth(rows, rs, k - 1) else ZERO)
  }

  function ShrunkOf(rows: Rows, rs: seq<Report>, k: nat, b: nat): Lines
    requires k <= |rs|
  {
    if k == 0 then ZERO
    else Plus(ShrunkOf(rows, rs, k - 1, b), if rs[k - 1].branch == b then Shrinkage(rows, rs, k - 1) else ZERO)
  }

  /** What branch `b` has. */
  function Total(rows: Rows, b: nat): Lines {
    if b in rows then rows[b] else ZERO
  }

  /** The same branch by branch. */
  lemma {:induction false} BranchReportsTelescope(rows: Rows, rs: seq<Report>, k: nat, b: nat)
    requires k <= |rs|
    ensures Plus(Total(rows, b), CreditTo(rows, rs, k, b)) == Plus(Total(RowsAt(rows, rs, k), b), ShrunkOf(rows, rs, k, b))
  {
    if k > 0 {
      BranchReportsTelescope(rows, rs, k - 1, b);
    }
  }

  /** What the first `k` entries credit on branch `b`, and what it lost on the way. */
  function BranchCredits(h: seq<Entry>, k: nat, b: nat): Lines
    requires k <= |h|
  {
    if k == 0 then ZERO
    else Plus(BranchCredits(h, k - 1, b), CreditTo(StartOf(h, k - 1), h[k - 1].reports, |h[k - 1].reports|, b))
  }

  function BranchLosses(h: seq<Entry>, k: nat, b: nat): Lines
    requires k <= |h|
  {
    if k == 0 then ZERO
    else Plus(BranchLosses(h, k - 1, b), ShrunkOf(StartOf(h, k - 1), h[k - 1].reports, |h[k - 1].reports|, b))
  }

  lemma {:induction false} UpsertsKeepTotal(rows: Rows, bs: seq<nat>, k: nat, b: nat)
    requires k <= |bs|
    ensures Total(Upserted(rows, bs, k), b) == Total(rows, b)
  {
    if k > 0 {
      UpsertsKeepTotal(rows, bs, k - 1, b);
    }
  }

  /** What entry `k` credits on branch `b`, and what `b` loses in it. */
  lemma {:induction false} EntryTelescopes(h: seq<Entry>, k: nat, b: nat) returns (credit: Lines, loss: Lines)
    requires k < |h|
    ensures BranchCredits(h, k + 1, b) == Plus(BranchCredits(h, k, b), credit)
    ensures BranchLosses(h, k + 1, b) == Plus(BranchLosses(h, k, b), loss)
    ensures Plus(Total(RowsOf(h, k), b), credit) == Plus(Total(RowsOf(h, k + 1), b), loss)
  {
    var rows, rs := StartOf(h, k), h[k].reports;
    UpsertsKeepTotal(RowsOf(h, k), h[k].upserts, |h[k].upserts|, b);
    BranchReportsTelescope(rows, rs, |rs|, b);
    credit, loss := CreditTo(rows, rs, |rs|, b), ShrunkOf(rows, rs, |rs|, b);
  }

  /** Over any history, what runs were credited with on a branch is its total now plus
      everything it ever shrank by. */
  lemma {:induction false} BranchTelescopes(h: seq<Entry>, k: nat, b: nat)
    requires k <= |h|
    ensures BranchCredits(h, k, b) == Plus(Total(RowsOf(h, k), b), BranchLosses(h, k, b))
  {
    if k == 0 {
      NoHistory(h, k, b);
    } else {
      BranchTelescopes(h, k - 1, b);
      var credit, loss := EntryTelescopes(h, k - 1, b);
      Carry(BranchCredits(h, k - 1, b), Total(RowsOf(h, k - 1), b), BranchLosses(h, k - 1, b), credit, Total(RowsOf(h, k), b), loss);
    }
  }

  lemma NoHistory(h: seq<Entry>, k: nat, b: nat)
    requires k == 0
    ensures BranchCredits(h, k, b) == Plus(Total(RowsOf(h, k), b), BranchLosses(h, k, b))
  {
    var total, losses := Total(RowsOf(h, k), b), BranchLosses(h, k, b);
    assert total == ZERO && losses == ZERO;
    PlusNothing(total, losses);
  }

  lemma PlusNothing(a: Lines, z: Lines)
    requires z.added == z.removed == 0
    ensures Plus(a, z) == a
  {
  }

  lemma Carry(credits: Lines, was: Lines, losses: Lines, credit: Lines, now: Lines, loss: Lines)
    requires credits == Plus(was, losses) && Plus(was, credit) == Plus(now, loss)
    ensures Plus(credits, credit) == Plus(now, Plus(losses, loss))
  {
  }

  lemma {:induction false} UpsertsAddNothing(rows: Rows, bs: seq<nat>, k: nat, n: nat)
    requires Below(rows, n) && k <= |bs| && forall i :: 0 <= i < |bs| ==> bs[i] < n
    ensures Below(Upserted(rows, bs, k), n) && SumRows(Upserted(rows, bs, k), n) == SumRows(rows, n)
  {
    if k > 0 {
      UpsertsAddNothing(rows, bs, k - 1, n);
      SumUpdate(Upserted(rows, bs, k - 1), bs[k - 1], ZERO, n);
    }
  }

  predicate Within(h: seq<Entry>, n: nat) {
    forall k, i :: 0 <= k < |h| && 0 <= i < |h[k].upserts| ==> h[k].upserts[i] < n
  }

  /** Over any history of measurements, the runs add up to the branches plus everything a
      branch ever shrank by. */
  lemma {:induction false} Telescopes(h: seq<Entry>, k: nat, n: nat)
    requires Within(h, n) && k <= |h|
    ensures Below(RowsOf(h, k), n)
    ensures SumRuns(h, k) == Plus(SumRows(RowsOf(h, k), n), SumShrunk(h, k))
  {
    if k == 0 {
      NothingYet(n);
    } else {
      Telescopes(h, k - 1, n);
      var e := h[k - 1];
      UpsertsAddNothing(RowsOf(h, k - 1), e.upserts, |e.upserts|, n);
      ReportsTelescope(StartOf(h, k - 1), e.reports, |e.reports|, n);
    }
  }

  /** A run is measured once, when it succeeds; runs are numbered below `m`. */
  predicate OncePerRun(h: seq<Entry>, m: nat) {
    && (forall i, j :: 0 <= i < j < |h| ==> h[i].run != h[j].run)
    && (forall i :: 0 <= i < |h| ==> h[i].run < m)
  }

  lemma {:induction false} RunRowsAddUp(h: seq<Entry>, k: nat, m: nat)
    requires OncePerRun(h, m) && k <= |h|
    ensures forall r :: r in RunRows(h, k) ==> exists i :: 0 <= i < k && h[i].run == r
    ensures SumRows(RunRows(h, k), m) == SumRuns(h, k)
  {
    if k == 0 {
      NothingYet(m);
    } else {
      RunRowsAddUp(h, k - 1, m);
      SumUpdate(RunRows(h, k - 1), h[k - 1].run, CreditOf(h, k - 1), m);
    }
  }

  /** Summing the run rows gives the sum of the branch rows plus everything a branch ever
      shrank by. */
  lemma RunsTelescope(h: seq<Entry>, m: nat, n: nat)
    requires OncePerRun(h, m) && Within(h, n)
    ensures SumRows(RunRows(h, |h|), m) == Plus(SumRows(RowsOf(h, |h|), n), SumShrunk(h, |h|))
  {
    RunRowsAddUp(h, |h|, m);
    Telescopes(h, |h|, n);
  }

  lemma {:induction false} NothingYet(n: nat)
    ensures SumRows(map[], n) == ZERO
  {
    if n > 0 {
      NothingYet(n - 1);
    }
  }

  predicate Shrinks(rows: Rows, rs: seq<Report>, k: nat)
    requires k < |rs|
  {
    Shrinkage(rows, rs, k) != ZERO
  }

  predicate NeverShrank(rows: Rows, rs: seq<Report>, k: nat)
    requires k <= |rs|
  {
    forall i :: 0 <= i < k ==> !Shrinks(rows, rs, i)
  }

  lemma {:induction false} NoneShrank(rows: Rows, rs: seq<Report>, k: nat, i: nat)
    requires i < k <= |rs| && Shrunk(rows, rs, k) == ZERO
    ensures !Shrinks(rows, rs, i)
    decreases k
  {
    if i < k - 1 {
      NoneShrank(rows, rs, k - 1, i);
    }
  }

  lemma {:induction false} NothingLost(rows: Rows, rs: seq<Report>, k: nat)
    requires k <= |rs| && NeverShrank(rows, rs, k)
    ensures Shrunk(rows, rs, k) == ZERO
  {
    if k > 0 {
      NothingLost(rows, rs, k - 1);
      assert !Shrinks(rows, rs, k - 1);
    }
  }

  lemma ShrunkMeansShrank(rows: Rows, rs: seq<Report>, k: nat)
    requires k <= |rs|
    ensures Shrunk(rows, rs, k) == ZERO <==> NeverShrank(rows, rs, k)
  {
    if Shrunk(rows, rs, k) == ZERO {
      forall i | 0 <= i < k
        ensures !Shrinks(rows, rs, i)
      {
        NoneShrank(rows, rs, k, i);
      }
    } else if NeverShrank(rows, rs, k) {
      NothingLost(rows, rs, k);
    }
  }

  /** Some report of entry `k` measured a branch smaller than it was. */
  predicate EntryShrinks(h: seq<Entry>, k: nat)
    requires k < |h|
  {
    !NeverShrank(StartOf(h, k), h[k].reports, |h[k].reports|)
  }

  predicate HistoryNeverShrank(h: seq<Entry>, k: nat)
    requires k <= |h|
  {
    forall i :: 0 <= i < k ==> !EntryShrinks(h, i)
  }

  lemma {:induction false} LossesGrow(h: seq<Entry>, i: nat, k: nat)
    requires i <= k <= |h|
    ensures SumShrunk(h, i).added <= SumShrunk(h, k).added && SumShrunk(h, i).removed <= SumShrunk(h, k).removed
    decreases k
  {
    if i < k {
      LossesGrow(h, i, k - 1);
    }
  }

  lemma EntryLostNothing(h: seq<Entry>, k: nat)
    requires 0 < k <= |h| && SumShrunk(h, k) == ZERO
    ensures Shrunk(StartOf(h, k - 1), h[k - 1].reports, |h[k - 1].reports|) == ZERO
  {
  }

  lemma {:induction false} NothingEverLost(h: seq<Entry>, k: nat)
    requires k <= |h| && HistoryNeverShrank(h, k)
    ensures SumShrunk(h, k) == ZERO
  {
    if k > 0 {
      NothingEverLost(h, k - 1);
      assert !EntryShrinks(h, k - 1);
      NothingLost(StartOf(h, k - 1), h[k - 1].reports, |h[k - 1].reports|);
    }
  }

  lemma QuietEntry(h: seq<Entry>, i: nat)
    requires i < |h| && SumShrunk(h, |h|) == ZERO
    ensures !EntryShrinks(h, i)
  {
    LossesGrow(h, i + 1, |h|);
    EntryLostNothing(h, i + 1);
    ShrunkMeansShrank(StartOf(h, i), h[i].reports, |h[i].reports|);
  }

  lemma HistoryShrunk(h: seq<Entry>)
    ensures SumShrunk(h, |h|) == ZERO <==> HistoryNeverShrank(h, |h|)
  {
    if SumShrunk(h, |h|) == ZERO {
      forall i | 0 <= i < |h|
        ensures !EntryShrinks(h, i)
      {
        QuietEntry(h, i);
      }
    } else if HistoryNeverShrank(h, |h|) {
      NothingEverLost(h, |h|);
    }
  }

  /** Summing runs equals summing branches exactly when no measurement ever came out smaller
      than the one before it. */
  lemma RunsEqualBranches(h: seq<Entry>, m: nat, n: nat)
    requires OncePerRun(h, m) && Within(h, n)
    ensures SumRows(RunRows(h, |h|), m) == SumRows(RowsOf(h, |h|), n) <==> HistoryNeverShrank(h, |h|)
  {
    RunsTelescope(h, m, n);
    HistoryShrunk(h);
  }
}
