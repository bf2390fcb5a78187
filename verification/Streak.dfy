/** Activity streaks (internal/store/streak.go) and the second walk over the same days that
    the achievements make (internal/store/achievements.go). Days are numbered, so the day
    after `d` is `d + 1`; a run whose start is not a date has none. */
module Streak {
  import opened Domain

  datatype Run = Run(task: nat, day: Option<int>, cost: int, added: nat, removed: nat)

  datatype Streaks = Streaks(
    runs: nat, cost: int, added: nat, removed: nat, tasks: nat, activeDays: nat,
    firstDay: int, longest: nat, longestStart: int, longestEnd: int, current: nat)

  // ---------------------------------------------------------------- the definition

  /** A longest possible stretch of active days from `a` to `b`. */
  predicate Block(days: set<int>, a: int, b: int) {
    a <= b && a - 1 !in days && b + 1 !in days && forall d :: a <= d <= b ==> d in days
  }

  /** `n` is the length of the longest block. */
  ghost predicate IsLongest(days: set<int>, n: int) {
    && (exists a, b :: Block(days, a, b) && b - a + 1 == n)
    && (forall a, b :: Block(days, a, b) ==> b - a + 1 <= n)
  }

  /** The block from `a` to `b` is a longest one, and the latest of those. */
  ghost predicate LatestLongest(days: set<int>, a: int, b: int) {
    && Block(days, a, b)
    && forall c, e :: Block(days, c, e) ==> e - c <= b - a && (e - c == b - a ==> e <= b)
  }

  predicate Recent(day: int, today: int) {
    day == today || day + 1 == today
  }

  /** `n` is the length of the block that ends today or yesterday, 0 if there is none. */
  ghost predicate IsCurrent(days: set<int>, today: int, n: nat) {
    if n > 0 then Block(days, BlockEnd(days, today) - n + 1, BlockEnd(days, today)) && Recent(BlockEnd(days, today), today)
    else forall a, b :: Block(days, a, b) ==> !Recent(b, today)
  }

  function BlockEnd(days: set<int>, today: int): int {
    if today in days then today else today - 1
  }

  /** Day by day: nobody is on a streak exactly when neither today nor yesterday was active;
      otherwise the last active one of the two and the days before it were, and not the day
      before those. */
  lemma CurrentMeans(days: set<int>, today: int, n: nat)
    requires today + 1 !in days
    ensures IsCurrent(days, today, n) && n > 0 ==>
      var b := if today in days then today else today - 1;
      (forall d :: b - n < d <= b ==> d in days) && b - n !in days
    ensures IsCurrent(days, today, n) ==> (n == 0 <==> today !in days && today - 1 !in days)
  {
    if IsCurrent(days, today, n) && (today in days || today - 1 in days) {
      var b := BlockEnd(days, today);
      var lo, hi := Bounds(days);
      var x, y := Extend(days, b, b, lo, hi);
      assert y == b;
    }
  }

  lemma BlocksDoNotTouch(days: set<int>, a: int, b: int, c: int, e: int)
    requires Block(days, a, b) && Block(days, c, e) && a <= e + 1 && c <= b + 1
    ensures a == c && b == e
  {
  }

  /** Both numbers are determined by the set of active days. */
  lemma OneAnswer(days: set<int>, today: int, m: nat, n: nat)
    ensures IsLongest(days, m) && IsLongest(days, n) ==> m == n
    ensures IsCurrent(days, today, m) && IsCurrent(days, today, n) ==> m == n
  {
    var b := BlockEnd(days, today);
    if IsCurrent(days, today, m) && IsCurrent(days, today, n) && m > 0 && n > 0 {
      BlocksDoNotTouch(days, b - m + 1, b, b - n + 1, b);
    }
  }

  /** Any stretch of consecutive active days lies in a block. */
  lemma {:induction false} Extend(days: set<int>, a: int, b: int, lo: int, hi: int) returns (x: int, y: int)
    requires a <= b && (forall d :: a <= d <= b ==> d in days) && forall d :: d in days ==> lo <= d <= hi
    ensures Block(days, x, y) && x <= a && b <= y
    decreases (a - lo) + (hi - b)
  {
    assert a in days && b in days;
    if a - 1 in days {
      x, y := Extend(days, a - 1, b, lo, hi);
    } else if b + 1 in days {
      x, y := Extend(days, a, b + 1, lo, hi);
    } else {
      x, y := a, b;
    }
  }

  lemma SomeDay(days: set<int>)
    requires |days| > 0
    ensures exists d :: d in days
  {
    assert (forall d :: d !in days) ==> days == {};
  }

  lemma {:induction false} Bounds(days: set<int>) returns (lo: int, hi: int)
    ensures forall d :: d in days ==> lo <= d <= hi
    decreases |days|
  {
    if |days| == 0 {
      lo, hi := 0, 0;
    } else {
      SomeDay(days);
      var d :| d in days;
      lo, hi := Bounds(days - {d});
      assert days == (days - {d}) + {d};
      if d < lo { lo := d; }
      if d > hi { hi := d; }
    }
  }

  /** The longest block is the brute-force answer: nobody was ever active for more days in a
      row. */
  lemma NoLongerStretch(days: set<int>, n: nat, a: int, b: int)
    requires IsLongest(days, n) && a <= b && forall d :: a <= d <= b ==> d in days
    ensures b - a + 1 <= n
  {
    var lo, hi := Bounds(days);
    var x, y := Extend(days, a, b, lo, hi);
  }

  // ---------------------------------------------------------------- sorted days

  predicate Sorted(ds: seq<int>) {
    forall i, j :: 0 <= i < j < |ds| ==> ds[i] < ds[j]
  }

  function Elements(ds: seq<int>): set<int> {
    set i | 0 <= i < |ds| :: ds[i]
  }

  /** The library's sort, on distinct days. */
  method SortDays(days: set<int>) returns (ds: seq<int>)
    ensures Sorted(ds) && Elements(ds) == days && |ds| == |days|
  {
    ds := [];
    var left := days;
    while |left| > 0
      invariant left <= days && Sorted(ds) && Elements(ds) == days - left && |ds| + |left| == |days|
      decreases |left|
    {
      SomeDay(left);
      var d :| d in left;
      var i := 0;
      while i < |ds| && ds[i] < d
        invariant i <= |ds| && forall k :: 0 <= k < i ==> ds[k] < d
      {
        i := i + 1;
      }
      Inserted(ds, i, d);
      ds := ds[..i] + [d] + ds[i..];
      left := left - {d};
    }
  }

  lemma Inserted(ds: seq<int>, i: nat, d: int)
    requires Sorted(ds) && i <= |ds| && (forall k :: 0 <= k < i ==> ds[k] < d) && (i < |ds| ==> ds[i] >= d) && d !in Elements(ds)
    ensures var out := ds[..i] + [d] + ds[i..]; Sorted(out) && Elements(out) == Elements(ds) + {d} && |out| == |ds| + 1
  {
    var out := ds[..i] + [d] + ds[i..];
    assert forall k :: 0 <= k < |out| ==> out[k] == if k < i then ds[k] else if k == i then d else ds[k - 1];
    assert i < |ds| ==> ds[i] in Elements(ds);
    forall x | x in Elements(ds) + {d}
      ensures x in Elements(out)
    {
      if x == d {
        assert out[i] == d;
      } else {
        var k :| 0 <= k < |ds| && ds[k] == x;
        assert out[if k < i then k else k + 1] == x;
      }
    }
  }

  // ---------------------------------------------------------------- one chain

  /** The chain from `start` to `prev == ds[i - 1]` is under way. */
  predicate Chain(ds: seq<int>, i: nat, start: int, prev: int) {
    && 1 <= i <= |ds| && prev == ds[i - 1] && start <= prev && start - 1 !in Elements(ds)
    && forall d :: start <= d <= prev ==> d in Elements(ds)
  }

  /** A chain that the next day does not continue is a block, and every other block lies
      before it or after it. */
  lemma ChainEnds(ds: seq<int>, i: nat, start: int, prev: int)
    requires Sorted(ds) && Chain(ds, i, start, prev) && (i < |ds| ==> ds[i] != prev + 1)
    ensures Block(Elements(ds), start, prev)
    ensures i < |ds| ==> Chain(ds, i + 1, ds[i], ds[i])
    ensures forall a, b :: Block(Elements(ds), a, b) ==> b < start || (a == start && b == prev) || (i < |ds| && a >= ds[i])
  {
    var days := Elements(ds);
    forall k | 0 <= k < |ds|
      ensures ds[k] != prev + 1
    {
      assert k < i ==> ds[k] <= prev;
    }
    forall a, b | Block(days, a, b) && b >= start && !(a == start && b == prev)
      ensures i < |ds| && a >= ds[i]
    {
      if a <= prev + 1 {
        BlocksDoNotTouch(days, a, b, start, prev);
      }
      assert a in days;
      var k :| 0 <= k < |ds| && ds[k] == a;
    }
    if i < |ds| {
      assert ds[i] in days;
      forall k | 0 <= k < |ds|
        ensures ds[k] != ds[i] - 1
      {
        assert k < i ==> ds[k] <= prev;
      }
    }
  }

  lemma ChainContinues(ds: seq<int>, i: nat, start: int, prev: int)
    requires Sorted(ds) && Chain(ds, i, start, prev) && i < |ds| && ds[i] == prev + 1
    ensures Chain(ds, i + 1, start, ds[i])
  {
    assert ds[i] in Elements(ds);
  }

  lemma FirstChain(ds: seq<int>)
    requires Sorted(ds) && ds != []
    ensures Chain(ds, 1, ds[0], ds[0])
    ensures forall a, b :: Block(Elements(ds), a, b) ==> b >= ds[0]
  {
    assert ds[0] in Elements(ds);
    forall d | d in Elements(ds)
      ensures d >= ds[0]
    {
      var k :| 0 <= k < |ds| && ds[k] == d;
    }
    forall a, b | Block(Elements(ds), a, b)
      ensures b >= ds[0]
    {
      assert b in Elements(ds);
    }
  }

  // ---------------------------------------------------------------- what has been seen so far

  /** The best block that ended before day `start`: length 0 if there is none. */
  ghost predicate BestBefore(days: set<int>, start: int, n: nat, a: int, b: int) {
    && (n > 0 ==> Block(days, a, b) && b < start && n == b - a + 1)
    && forall c, e :: Block(days, c, e) && e < start ==> e - c + 1 <= n && (e - c + 1 == n ==> e <= b)
  }

  ghost predicate MaxBefore(days: set<int>, start: int, n: nat) {
    && (n > 0 ==> exists a, b :: Block(days, a, b) && b < start && n == b - a + 1)
    && forall c, e :: Block(days, c, e) && e < start ==> e - c + 1 <= n
  }

  ghost predicate CurrentBefore(days: set<int>, today: int, start: int, n: nat) {
    if n > 0 then
      && Block(days, BlockEnd(days, today) - n + 1, BlockEnd(days, today))
      && Recent(BlockEnd(days, today), today) && BlockEnd(days, today) < start
    else forall a, b :: Block(days, a, b) && b < start ==> !Recent(b, today)
  }

  /** Two blocks are never both recent, and the recent one ends where `BlockEnd` says. */
  lemma RecentBlock(days: set<int>, today: int, a: int, b: int)
    requires Block(days, a, b) && Recent(b, today)
    ensures b == BlockEnd(days, today)
  {
    assert b in days;
  }

  lemma CurrentEnds(days: set<int>, today: int, start: int, prev: int, after: int, was: nat)
    requires CurrentBefore(days, today, start, was) && Block(days, start, prev) && prev < after
    requires forall a, b :: Block(days, a, b) && b < after ==> b < start || (a == start && b == prev)
    ensures CurrentBefore(days, today, after, if Recent(prev, today) then prev - start + 1 else was)
  {
    if Recent(prev, today) {
      RecentBlock(days, today, start, prev);
    } else if was == 0 {
      forall a, b | Block(days, a, b) && b < after
        ensures !Recent(b, today)
      {
      }
    }
  }

  // ---------------------------------------------------------------- the two walks

  /** The walk of `computeStreak`: ties go to the later chain. */
  method Walk(ds: seq<int>, today: int) returns (longest: nat, longestStart: int, longestEnd: int, current: nat)
    requires Sorted(ds) && ds != []
    ensures longest == longestEnd - longestStart + 1 && LatestLongest(Elements(ds), longestStart, longestEnd)
    ensures IsCurrent(Elements(ds), today, current)
  {
    ghost var days := Elements(ds);
    var chainStart, chainLen, prev := ds[0], 1, ds[0];
    longest, longestStart, longestEnd, current := 0, 0, 0, 0;
    FirstChain(ds);
    for i := 1 to |ds|
      invariant Chain(ds, i, chainStart, prev) && chainLen == prev - chainStart + 1
      invariant BestBefore(days, chainStart, longest, longestStart, longestEnd)
      invariant CurrentBefore(days, today, chainStart, current)
    {
      var d := ds[i];
      if d == prev + 1 {
        ChainContinues(ds, i, chainStart, prev);
        chainLen := chainLen + 1;
      } else {
        ChainEnds(ds, i, chainStart, prev);
        CurrentEnds(days, today, chainStart, prev, d, current);
        if chainLen >= longest {
          longest, longestStart, longestEnd := chainLen, chainStart, prev;
        }
        if prev == today || prev + 1 == today {
          current := chainLen;
        }
        chainStart, chainLen := d, 1;
      }
      prev := d;
    }
    ChainEnds(ds, |ds|, chainStart, prev);
    CurrentEnds(days, today, chainStart, prev, prev + 1, current);
    if chainLen >= longest {
      longest, longestStart, longestEnd := chainLen, chainStart, prev;
    }
    if prev == today || prev + 1 == today {
      current := chainLen;
    }
    LastChain(ds, chainStart, prev);
  }

  /** The walk of the achievements: ties go to the earlier chain, which is not reported. */
  method GatherWalk(ds: seq<int>, today: int) returns (longest: nat, current: nat)
    requires Sorted(ds) && ds != []
    ensures IsLongest(Elements(ds), longest) && IsCurrent(Elements(ds), today, current)
  {
    ghost var start := ds[0];
    var chainLen, prev := 1, ds[0];
    longest, current := 0, 0;
    FirstChain(ds);
    for i := 1 to |ds|
      invariant Chain(ds, i, start, prev) && chainLen == prev - start + 1
      invariant MaxBefore(Elements(ds), start, longest)
      invariant CurrentBefore(Elements(ds), today, start, current)
    {
      var d := ds[i];
      if d == prev + 1 {
        ChainContinues(ds, i, start, prev);
        chainLen := chainLen + 1;
      } else {
        ChainEnds(ds, i, start, prev);
        longest, current := EndChain(Elements(ds), today, start, d, prev, chainLen, longest, current);
        start, chainLen := d, 1;
      }
      prev := d;
    }
    ChainEnds(ds, |ds|, start, prev);
    longest, current := EndChain(Elements(ds), today, start, prev + 1, prev, chainLen, longest, current);
    LastChain(ds, start, prev);
    AllBefore(Elements(ds), today, prev + 1, longest, current);
  }

  /** Account for a chain that has ended at `prev`. */
  method EndChain(ghost days: set<int>, today: int, ghost start: int, ghost after: int, prev: int,
                  chainLen: nat, longest: nat, current: nat) returns (longest': nat, current': nat)
    requires Block(days, start, prev) && chainLen == prev - start + 1 && prev < after
    requires forall a, b :: Block(days, a, b) && b < after ==> b < start || (a == start && b == prev)
    requires MaxBefore(days, start, longest) && CurrentBefore(days, today, start, current)
    ensures MaxBefore(days, after, longest') && CurrentBefore(days, today, after, current') && longest' > 0
  {
    CurrentEnds(days, today, start, prev, after, current);
    MaxEnds(days, start, prev, after, longest);
    longest', current' := longest, current;
    if chainLen > longest {
      longest' := chainLen;
    }
    if prev == today || prev + 1 == today {
      current' := chainLen;
    }
  }

  /** Once every block lies before `after`, the best before it is the best. */
  lemma AllBefore(days: set<int>, today: int, after: int, longest: nat, current: nat)
    requires MaxBefore(days, after, longest) && CurrentBefore(days, today, after, current) && longest > 0
    requires forall a, b :: Block(days, a, b) ==> b < after
    ensures IsLongest(days, longest) && IsCurrent(days, today, current)
  {
  }

  lemma MaxEnds(days: set<int>, start: int, prev: int, after: int, was: nat)
    requires MaxBefore(days, start, was) && Block(days, start, prev) && prev < after
    requires forall a, b :: Block(days, a, b) && b < after ==> b < start || (a == start && b == prev)
    ensures MaxBefore(days, after, if prev - start + 1 > was then prev - start + 1 else was)
  {
  }

  /** No block ends after the last chain. */
  lemma LastChain(ds: seq<int>, start: int, prev: int)
    requires Sorted(ds) && Chain(ds, |ds|, start, prev)
    ensures forall a, b :: Block(Elements(ds), a, b) ==> b < prev + 1
  {
    forall a, b | Block(Elements(ds), a, b)
      ensures b < prev + 1
    {
      assert b in Elements(ds);
      var k :| 0 <= k < |ds| && ds[k] == b;
    }
  }

  /** Whatever the two walks return, they return the same two numbers. */
  lemma WalksAgree(days: set<int>, today: int, a: int, b: int, gathered: nat, current: nat, gatheredCurrent: nat)
    requires LatestLongest(days, a, b) && IsLongest(days, gathered)
    requires IsCurrent(days, today, current) && IsCurrent(days, today, gatheredCurrent)
    ensures gathered == b - a + 1 && gatheredCurrent == current
  {
    OneAnswer(days, today, current, gatheredCurrent);
  }

  // ---------------------------------------------------------------- totals

  function Dated(runs: seq<Run>): seq<Run> {
    if runs == [] then []
    else
      var r := runs[|runs| - 1];
      Dated(runs[..|runs| - 1]) + if r.day.Some? then [r] else []
  }

  function ActiveDays(runs: seq<Run>): set<int> {
    set k | 0 <= k < |runs| && runs[k].day.Some? :: runs[k].day.value
  }

  function TasksOf(runs: seq<Run>): set<nat> {
    set k | 0 <= k < |runs| && runs[k].day.Some? :: runs[k].task
  }

  function Cost(runs: seq<Run>): int {
    if runs == [] then 0 else Cost(runs[..|runs| - 1]) + runs[|runs| - 1].cost
  }

  function Added(runs: seq<Run>): nat {
    if runs == [] then 0 else Added(runs[..|runs| - 1]) + runs[|runs| - 1].added
  }

  function Removed(runs: seq<Run>): nat {
    if runs == [] then 0 else Removed(runs[..|runs| - 1]) + runs[|runs| - 1].removed
  }

  lemma SetsGrow(runs: seq<Run>, r: Run)
    ensures ActiveDays(runs + [r]) == ActiveDays(runs) + (if r.day.Some? then {r.day.value} else {})
    ensures TasksOf(runs + [r]) == TasksOf(runs) + (if r.day.Some? then {r.task} else {})
  {
    var all := runs + [r];
    assert forall k :: 0 <= k < |runs| ==> all[k] == runs[k];
    assert all[|runs|] == r;
    forall d | d in ActiveDays(runs)
      ensures d in ActiveDays(all)
    {
      var k :| 0 <= k < |runs| && runs[k].day.Some? && runs[k].day.value == d;
      assert all[k].day.value == d;
    }
    forall t | t in TasksOf(runs)
      ensures t in TasksOf(all)
    {
      var k :| 0 <= k < |runs| && runs[k].day.Some? && runs[k].task == t;
      assert all[k].task == t;
    }
  }

  method ComputeStreak(runs: seq<Run>, today: int) returns (data: Streaks)
    ensures var dated := Dated(runs);
      && data.runs == |dated| && data.cost == Cost(dated) && data.added == Added(dated) && data.removed == Removed(dated)
    ensures data.tasks == |TasksOf(runs)| && data.activeDays == |ActiveDays(runs)|
    ensures ActiveDays(runs) == {} ==> data.longest == 0 && data.current == 0
    ensures var days := ActiveDays(runs); days != {} ==>
      && data.firstDay in days && (forall d :: d in days ==> data.firstDay <= d)
      && data.longest == data.longestEnd - data.longestStart + 1
      && LatestLongest(days, data.longestStart, data.longestEnd)
      && IsLongest(days, data.longest)
      && IsCurrent(days, today, data.current)
  {
    var tasks: set<nat>, days: set<int> := {}, {};
    data := Streaks(0, 0, 0, 0, 0, 0, 0, 0, 0, 0, 0);
    for k := 0 to |runs|
      invariant var dated := Dated(runs[..k]);
        data == Streaks(|dated|, Cost(dated), Added(dated), Removed(dated), 0, 0, 0, 0, 0, 0, 0)
      invariant tasks == TasksOf(runs[..k]) && days == ActiveDays(runs[..k])
    {
      var r := runs[k];
      assert runs[..k + 1] == runs[..k] + [r] && (runs[..k] + [r])[..k] == runs[..k];
      SetsGrow(runs[..k], r);
      assert Dated(runs[..k + 1]) == Dated(runs[..k]) + if r.day.Some? then [r] else [];
      assert r.day.None? ==> Dated(runs[..k + 1]) == Dated(runs[..k]);
      if r.day.Some? {
        DatedGrows(Dated(runs[..k]), r);
        days := days + {r.day.value};
        data := data.(runs := data.runs + 1, cost := data.cost + r.cost,
                      added := data.added + r.added, removed := data.removed + r.removed);
        tasks := tasks + {r.task};
      }
    }
    assert runs[..|runs|] == runs;
    data := data.(tasks := |tasks|, activeDays := |days|);
    if |days| == 0 {
      return;
    }
    var ds := SortDays(days);
    var longest, start, end, current := Walk(ds, today);
    data := data.(firstDay := ds[0], longest := longest, longestStart := start, longestEnd := end, current := current);
    FirstIsLeast(ds);
  }

  lemma DatedGrows(dated: seq<Run>, r: Run)
    ensures Cost(dated + [r]) == Cost(dated) + r.cost
    ensures Added(dated + [r]) == Added(dated) + r.added
    ensures Removed(dated + [r]) == Removed(dated) + r.removed
  {
    assert (dated + [r])[..|dated|] == dated;
  }

  lemma FirstIsLeast(ds: seq<int>)
    requires Sorted(ds) && ds != []
    ensures ds[0] in Elements(ds) && forall d :: d in Elements(ds) ==> ds[0] <= d
  {
  }
}
