/** Cost efficiency (internal/store/analytics.go): runs are bucketed by day and model, the
    buckets rolled up by model. Days and models are numbered in their order, day 0 marking a
    total; money is exact. */
module Analytics {
  import opened Domain

  type Model = nat

  const NO_MODEL: Model := 0
  const UNKNOWN: Model := 1
  const NO_DAY := 0

  /** A run; `day` is 0 when the start is not a date. */
  datatype Run = Run(task: nat, day: nat, model: Model, cost: real, added: nat, removed: nat)

  datatype Key = Key(day: nat, model: Model)

  datatype Amount = Amount(runs: nat, cost: real, added: nat, removed: nat)

  /** Something to be counted in the bucket of its key. */
  datatype Item = Item(key: Key, sum: Amount)

  datatype Point = Point(key: Key, sum: Amount, tasks: nat, changed: nat, perTask: real, perLine: real)

  const ZERO := Amount(0, 0.0, 0, 0)

  function Plus(a: Amount, b: Amount): Amount {
    Amount(a.runs + b.runs, a.cost + b.cost, a.added + b.added, a.removed + b.removed)
  }

  function RunModel(r: Run): Model {
    if r.model == NO_MODEL then UNKNOWN else r.model
  }

  /** A run that counts: dated, not before the cutoff, and not without both spend and churn. */
  predicate Eligible(r: Run, cutoff: nat) {
    r.day != NO_DAY && r.day >= cutoff && !(r.cost <= 0.0 && r.added + r.removed == 0)
  }

  function AsItem(r: Run): Item {
    Item(Key(r.day, RunModel(r)), Amount(1, r.cost, r.added, r.removed))
  }

  function Eligibles(runs: seq<Run>, cutoff: nat): seq<Run> {
    if runs == [] then []
    else
      var r := runs[|runs| - 1];
      Eligibles(runs[..|runs| - 1], cutoff) + if Eligible(r, cutoff) then [r] else []
  }

  function Items(runs: seq<Run>): (items: seq<Item>)
    ensures |items| == |runs| && forall i :: 0 <= i < |runs| ==> items[i] == AsItem(runs[i])
  {
    seq(|runs|, i requires 0 <= i < |runs| => AsItem(runs[i]))
  }

  // ---------------------------------------------------------------- buckets

  /** What the items amount to. */
  function Sum(items: seq<Item>): Amount {
    if items == [] then ZERO else Plus(Sum(items[..|items| - 1]), items[|items| - 1].sum)
  }

  /** What the items of bucket `k` amount to. */
  function Bucket(items: seq<Item>, k: Key): Amount {
    if items == [] then ZERO
    else
      var last := items[|items| - 1];
      var front := Bucket(items[..|items| - 1], k);
      if last.key == k then Plus(front, last.sum) else front
  }

  function Keys(items: seq<Item>): set<Key> {
    set i | 0 <= i < |items| :: items[i].key
  }

  function TasksIn(runs: seq<Run>, k: Key): set<nat> {
    set i | 0 <= i < |runs| && AsItem(runs[i]).key == k :: runs[i].task
  }

  lemma KeysPush(items: seq<Item>, x: Item)
    ensures Keys(items + [x]) == Keys(items) + {x.key}
  {
    var all := items + [x];
    forall k | k in Keys(items) + {x.key}
      ensures k in Keys(all)
    {
      if k == x.key {
        assert all[|items|].key == k;
      } else {
        var i :| 0 <= i < |items| && items[i].key == k;
        assert all[i].key == k;
      }
    }
  }

  lemma TasksPush(runs: seq<Run>, r: Run, k: Key)
    ensures TasksIn(runs + [r], k) == TasksIn(runs, k) + (if AsItem(r).key == k then {r.task} else {})
  {
    var all := runs + [r];
    assert forall i :: 0 <= i < |runs| ==> all[i] == runs[i];
    assert all[|runs|] == r;
    forall t | t in TasksIn(runs, k)
      ensures t in TasksIn(all, k)
    {
      var i :| 0 <= i < |runs| && AsItem(runs[i]).key == k && runs[i].task == t;
      assert all[i].task == t;
    }
  }

  lemma {:induction false} NothingInBucket(items: seq<Item>, k: Key)
    requires k !in Keys(items)
    ensures Bucket(items, k) == ZERO
  {
    if items != [] {
      var front, last := items[..|items| - 1], items[|items| - 1];
      assert items == front + [last];
      KeysPush(front, last);
      NothingInBucket(front, k);
    }
  }

  // ---------------------------------------------------------------- rows

  function Ratio(cost: real, n: nat): real {
    if n > 0 then cost / n as real else 0.0
  }

  /** A row with its derived columns; a zero denominator leaves the ratio at zero. */
  function Finalized(k: Key, sum: Amount, tasks: nat): Point {
    var changed := sum.added + sum.removed;
    Point(k, sum, tasks, changed, Ratio(sum.cost, tasks), Ratio(sum.cost, changed))
  }

  predicate Less(a: Key, b: Key) {
    a.day < b.day || (a.day == b.day && a.model < b.model)
  }

  predicate Ordered(ps: seq<Point>) {
    forall i, j :: 0 <= i < j < |ps| ==> Less(ps[i].key, ps[j].key)
  }

  function RowKeys(ps: seq<Point>): set<Key> {
    set i | 0 <= i < |ps| :: ps[i].key
  }

  /** One row per bucket that holds anything, in order, each with exactly its bucket. */
  predicate IsRollup(items: seq<Item>, ps: seq<Point>) {
    && Ordered(ps) && RowKeys(ps) == Keys(items)
    && forall i :: 0 <= i < |ps| ==> ps[i].sum == Bucket(items, ps[i].key)
  }

  /** The rows of a map, drained in whatever order, sorted by the library. */
  method SortedRows(rows: map<Key, Point>) returns (out: seq<Point>)
    requires forall k :: k in rows ==> rows[k].key == k
    ensures Ordered(out) && RowKeys(out) == rows.Keys
    ensures forall i :: 0 <= i < |out| ==> out[i].key in rows && out[i] == rows[out[i].key]
  {
    var left := rows.Keys;
    out := [];
    while left != {}
      invariant left <= rows.Keys && Ordered(out) && RowKeys(out) == rows.Keys - left
      invariant forall i :: 0 <= i < |out| ==> out[i].key in rows && out[i] == rows[out[i].key]
      decreases |left|
    {
      assert (forall x :: x !in left) ==> left == {};
      var k :| k in left;
      out := Insert(out, rows[k]);
      left := left - {k};
    }
  }

  method Insert(ps: seq<Point>, p: Point) returns (out: seq<Point>)
    requires Ordered(ps) && p.key !in RowKeys(ps)
    ensures Ordered(out) && RowKeys(out) == RowKeys(ps) + {p.key}
    ensures forall i :: 0 <= i < |out| ==> out[i] in ps || out[i] == p
  {
    var i := 0;
    while i < |ps| && Less(ps[i].key, p.key)
      invariant i <= |ps| && forall j :: 0 <= j < i ==> Less(ps[j].key, p.key)
    {
      i := i + 1;
    }
    out := ps[..i] + [p] + ps[i..];
    Inserted(ps, p, i, out);
  }

  lemma Inserted(ps: seq<Point>, p: Point, i: nat, out: seq<Point>)
    requires Ordered(ps) && p.key !in RowKeys(ps) && i <= |ps| && out == ps[..i] + [p] + ps[i..]
    requires (forall j :: 0 <= j < i ==> Less(ps[j].key, p.key)) && (i < |ps| ==> !Less(ps[i].key, p.key))
    ensures Ordered(out) && RowKeys(out) == RowKeys(ps) + {p.key}
    ensures forall j :: 0 <= j < |out| ==> out[j] in ps || out[j] == p
  {
    assert i < |ps| ==> ps[i].key in RowKeys(ps);
    assert forall j :: 0 <= j < |out| ==> out[j] == if j < i then ps[j] else if j == i then p else ps[j - 1];
    forall k | k in RowKeys(ps) + {p.key}
      ensures k in RowKeys(out)
    {
      if k == p.key {
        assert out[i].key == k;
      } else {
        var j :| 0 <= j < |ps| && ps[j].key == k;
        assert out[if j < i then j else j + 1].key == k;
      }
    }
  }

  /** Two ordered lists with the same keys carry them in the same places. */
  lemma {:induction false} SameOrder(a: seq<Point>, b: seq<Point>, n: nat)
    requires Ordered(a) && Ordered(b) && RowKeys(a) == RowKeys(b) && n <= |a|
    ensures n <= |b| && forall i :: 0 <= i < n ==> a[i].key == b[i].key
    decreases n
  {
    if n > 0 {
      SameOrder(a, b, n - 1);
      var i := n - 1;
      assert a[i].key in RowKeys(b);
      var j :| 0 <= j < |b| && b[j].key == a[i].key;
      assert forall h :: 0 <= h < i ==> Less(b[h].key, a[i].key);
      assert b[i].key in RowKeys(a);
      var k :| 0 <= k < |a| && a[k].key == b[i].key;
      assert forall h :: 0 <= h < i ==> Less(a[h].key, b[i].key);
    }
  }

  // ---------------------------------------------------------------- from runs to rows

  /** The rows of the eligible runs, with the number of distinct tasks of each bucket. */
  predicate IsAggregate(runs: seq<Run>, cutoff: nat, ps: seq<Point>) {
    var es := Eligibles(runs, cutoff);
    && IsRollup(Items(es), ps)
    && forall i :: 0 <= i < |ps| ==> ps[i] == Finalized(ps[i].key, ps[i].sum, |TasksIn(es, ps[i].key)|)
  }

  datatype Acc = Acc(sum: Amount, tasks: set<nat>)

  predicate Holds(buckets: map<Key, Acc>, es: seq<Run>) {
    && buckets.Keys == Keys(Items(es))
    && forall k :: k in buckets ==> buckets[k] == Acc(Bucket(Items(es), k), TasksIn(es, k))
  }

  /** Count one eligible run. */
  method Count(buckets: map<Key, Acc>, r: Run, ghost es: seq<Run>) returns (buckets': map<Key, Acc>)
    requires Holds(buckets, es)
    ensures Holds(buckets', es + [r])
  {
    var x := AsItem(r);
    var k := x.key;
    buckets' := buckets;
    if k !in buckets' {
      buckets' := buckets'[k := Acc(ZERO, {})];
    }
    var p := buckets'[k];
    buckets' := buckets'[k := Acc(Plus(p.sum, x.sum), p.tasks + {r.task})];
    CountHolds(buckets, r, es, buckets');
  }

  lemma CountHolds(buckets: map<Key, Acc>, r: Run, es: seq<Run>, buckets': map<Key, Acc>)
    requires Holds(buckets, es)
    requires var x := AsItem(r);
      var p := if x.key in buckets then buckets[x.key] else Acc(ZERO, {});
      buckets' == buckets[x.key := Acc(Plus(p.sum, x.sum), p.tasks + {r.task})]
    ensures Holds(buckets', es + [r])
  {
    var x, items := AsItem(r), Items(es);
    assert Items(es + [r]) == items + [x];
    KeysPush(items, x);
    forall k | k in buckets'
      ensures buckets'[k] == Acc(Bucket(Items(es + [r]), k), TasksIn(es + [r], k))
    {
      CountAt(es, r, k);
    }
  }

  /** What one more run does to the bucket of `k`. */
  lemma CountAt(es: seq<Run>, r: Run, k: Key)
    ensures var x := AsItem(r);
      && Bucket(Items(es + [r]), k) == (if x.key == k then Plus(Bucket(Items(es), k), x.sum) else Bucket(Items(es), k))
      && TasksIn(es + [r], k) == TasksIn(es, k) + (if x.key == k then {r.task} else {})
    ensures k !in Keys(Items(es)) ==> Bucket(Items(es), k) == ZERO && TasksIn(es, k) == {}
  {
    var x := AsItem(r);
    assert Items(es + [r]) == Items(es) + [x];
    TasksPush(es, r, k);
    if k !in Keys(Items(es)) {
      NothingInBucket(Items(es), k);
      NoTasks(es, k);
    }
  }

  lemma NoTasks(es: seq<Run>, k: Key)
    requires k !in Keys(Items(es))
    ensures TasksIn(es, k) == {}
  {
    forall i | 0 <= i < |es|
      ensures AsItem(es[i]).key != k
    {
      assert Items(es)[i].key in Keys(Items(es));
    }
  }

  method AggregateCostEfficiency(runs: seq<Run>, cutoff: nat) returns (out: seq<Point>)
    ensures IsAggregate(runs, cutoff, out)
  {
    var buckets: map<Key, Acc> := map[];
    ghost var es: seq<Run> := [];
    for n := 0 to |runs|
      invariant es == Eligibles(runs[..n], cutoff) && Holds(buckets, es)
    {
      var r := runs[n];
      assert runs[..n + 1][..n] == runs[..n];
      if r.day == NO_DAY || r.day < cutoff {
        continue;
      }
      if r.cost <= 0.0 && r.added + r.removed == 0 {
        continue;
      }
      buckets := Count(buckets, r, es);
      es := es + [r];
    }
    assert runs[..|runs|] == runs;
    var rows := map k | k in buckets :: Finalized(k, buckets[k].sum, |buckets[k].tasks|);
    assert rows.Keys == buckets.Keys;
    out := SortedRows(rows);
  }

  /** Whatever the order of the map, the rows are the same: an aggregate is unique. */
  lemma AggregateIsUnique(runs: seq<Run>, cutoff: nat, a: seq<Point>, b: seq<Point>)
    requires IsAggregate(runs, cutoff, a) && IsAggregate(runs, cutoff, b)
    ensures a == b
  {
    SameOrder(a, b, |a|);
    SameOrder(b, a, |b|);
    assert forall i :: 0 <= i < |a| ==> a[i] == b[i];
  }

  // ---------------------------------------------------------------- from rows to totals

  /** Every row counts in the bucket of its model, which has no day. */
  function ModelItems(ps: seq<Point>): (items: seq<Item>)
    ensures |items| == |ps| && forall i :: 0 <= i < |ps| ==> items[i] == Item(Key(NO_DAY, ps[i].key.model), ps[i].sum)
  {
    seq(|ps|, i requires 0 <= i < |ps| => Item(Key(NO_DAY, ps[i].key.model), ps[i].sum))
  }

  /** Per-day counts are added up, so a task worked on for two days counts twice. */
  function ModelTasks(ps: seq<Point>, model: Model): nat {
    if ps == [] then 0
    else ModelTasks(ps[..|ps| - 1], model) + if ps[|ps| - 1].key.model == model then ps[|ps| - 1].tasks else 0
  }

  predicate IsTotal(ps: seq<Point>, ts: seq<Point>) {
    && IsRollup(ModelItems(ps), ts)
    && forall i :: 0 <= i < |ts| ==> ts[i] == Finalized(ts[i].key, ts[i].sum, ModelTasks(ps, ts[i].key.model))
  }

  predicate Tallies(totals: map<Key, (Amount, nat)>, ps: seq<Point>) {
    && totals.Keys == Keys(ModelItems(ps))
    && forall k :: k in totals ==> totals[k] == (Bucket(ModelItems(ps), k), ModelTasks(ps, k.model))
  }

  method Tally(totals: map<Key, (Amount, nat)>, p: Point, ghost ps: seq<Point>) returns (totals': map<Key, (Amount, nat)>)
    requires Tallies(totals, ps)
    ensures Tallies(totals', ps + [p])
  {
    var k := Key(NO_DAY, p.key.model);
    totals' := totals;
    if k !in totals' {
      totals' := totals'[k := (ZERO, 0)];
    }
    totals' := totals'[k := (Plus(totals'[k].0, p.sum), totals'[k].1 + p.tasks)];
    TallyHolds(totals, p, ps, totals');
  }

  lemma TallyHolds(totals: map<Key, (Amount, nat)>, p: Point, ps: seq<Point>, totals': map<Key, (Amount, nat)>)
    requires Tallies(totals, ps)
    requires var k := Key(NO_DAY, p.key.model);
      var was := if k in totals then totals[k] else (ZERO, 0);
      totals' == totals[k := (Plus(was.0, p.sum), was.1 + p.tasks)]
    ensures Tallies(totals', ps + [p])
  {
    TallyKeys(ps, p);
    forall k | k in totals'
      ensures totals'[k] == (Bucket(ModelItems(ps + [p]), k), ModelTasks(ps + [p], k.model))
    {
      TallyAt(ps, p, k);
      if k !in totals {
        NotTallied(ps, k);
      }
    }
  }

  lemma TallyKeys(ps: seq<Point>, p: Point)
    ensures Keys(ModelItems(ps + [p])) == Keys(ModelItems(ps)) + {Key(NO_DAY, p.key.model)}
    ensures forall k :: k in Keys(ModelItems(ps + [p])) ==> k.day == NO_DAY
  {
    var x := Item(Key(NO_DAY, p.key.model), p.sum);
    assert ModelItems(ps + [p]) == ModelItems(ps) + [x];
    KeysPush(ModelItems(ps), x);
  }

  lemma TallyAt(ps: seq<Point>, p: Point, k: Key)
    requires k.day == NO_DAY
    ensures var x := Item(Key(NO_DAY, p.key.model), p.sum);
      && Bucket(ModelItems(ps + [p]), k) == (if x.key == k then Plus(Bucket(ModelItems(ps), k), x.sum) else Bucket(ModelItems(ps), k))
      && ModelTasks(ps + [p], k.model) == ModelTasks(ps, k.model) + (if x.key == k then p.tasks else 0)
  {
    var x := Item(Key(NO_DAY, p.key.model), p.sum);
    assert ModelItems(ps + [p]) == ModelItems(ps) + [x];
    assert (ps + [p])[..|ps|] == ps;
  }

  lemma NotTallied(ps: seq<Point>, k: Key)
    requires k.day == NO_DAY && k !in Keys(ModelItems(ps))
    ensures Bucket(ModelItems(ps), k) == ZERO && ModelTasks(ps, k.model) == 0
  {
    NothingInBucket(ModelItems(ps), k);
    NoModelTasks(ps, k.model);
  }

  lemma {:induction false} NoModelTasks(ps: seq<Point>, model: Model)
    requires Key(NO_DAY, model) !in Keys(ModelItems(ps))
    ensures ModelTasks(ps, model) == 0
  {
    if ps != [] {
      var front, last := ps[..|ps| - 1], ps[|ps| - 1];
      var x := Item(Key(NO_DAY, last.key.model), last.sum);
      assert ModelItems(ps) == ModelItems(front) + [x];
      KeysPush(ModelItems(front), x);
      NoModelTasks(front, model);
    }
  }

  method TotalCostEfficiency(ps: seq<Point>) returns (out: seq<Point>)
    ensures IsTotal(ps, out)
  {
    var totals: map<Key, (Amount, nat)> := map[];
    for n := 0 to |ps|
      invariant Tallies(totals, ps[..n])
    {
      assert ps[..n + 1] == ps[..n] + [ps[n]];
      totals := Tally(totals, ps[n], ps[..n]);
    }
    assert ps[..|ps|] == ps;
    var rows := map k | k in totals :: Finalized(k, totals[k].0, totals[k].1);
    assert rows.Keys == totals.Keys;
    out := SortedRows(rows);
  }

  // ---------------------------------------------------------------- conservation

  function RowItems(ps: seq<Point>): (items: seq<Item>)
    ensures |items| == |ps| && forall i :: 0 <= i < |ps| ==> items[i] == Item(ps[i].key, ps[i].sum)
  {
    seq(|ps|, i requires 0 <= i < |ps| => Item(ps[i].key, ps[i].sum))
  }

  /** What the buckets of the first `m` keys amount to. */
  function SumBuckets(items: seq<Item>, ks: seq<Key>, m: nat): Amount
    requires m <= |ks|
  {
    if m == 0 then ZERO else Plus(SumBuckets(items, ks, m - 1), Bucket(items, ks[m - 1]))
  }

  predicate Distinct(ks: seq<Key>) {
    forall i, j :: 0 <= i < j < |ks| ==> ks[i] != ks[j]
  }

  predicate Among(k: Key, ks: seq<Key>) {
    exists i :: 0 <= i < |ks| && ks[i] == k
  }

  lemma {:induction false} SameBuckets(items: seq<Item>, all: seq<Item>, ks: seq<Key>, m: nat)
    requires m <= |ks| && forall i :: 0 <= i < m ==> Bucket(all, ks[i]) == Bucket(items, ks[i])
    ensures SumBuckets(all, ks, m) == SumBuckets(items, ks, m)
  {
    if m > 0 {
      SameBuckets(items, all, ks, m - 1);
    }
  }

  /** When one bucket grows by `x` and the others stay, so does their sum. */
  lemma {:induction false} OneBucketGrows(items: seq<Item>, all: seq<Item>, x: Amount, ks: seq<Key>, m: nat, j: nat)
    requires j < m <= |ks| && Bucket(all, ks[j]) == Plus(Bucket(items, ks[j]), x)
    requires forall i :: 0 <= i < m && i != j ==> Bucket(all, ks[i]) == Bucket(items, ks[i])
    ensures SumBuckets(all, ks, m) == Plus(SumBuckets(items, ks, m), x)
    decreases m
  {
    if j == m - 1 {
      SameBuckets(items, all, ks, m - 1);
    } else {
      OneBucketGrows(items, all, x, ks, m - 1, j);
    }
  }

  /** An item goes to exactly one of distinct buckets. */
  lemma OneItemOneBucket(items: seq<Item>, all: seq<Item>, x: Item, ks: seq<Key>, j: nat)
    requires Distinct(ks) && j < |ks| && all == items + [x] && ks[j] == x.key
    ensures SumBuckets(all, ks, |ks|) == Plus(SumBuckets(items, ks, |ks|), x.sum)
  {
    forall i | 0 <= i < |ks| && i != j
      ensures Bucket(all, ks[i]) == Bucket(items, ks[i])
    {
    }
    OneBucketGrows(items, all, x.sum, ks, |ks|, j);
  }

  lemma {:induction false} NoItems(items: seq<Item>, ks: seq<Key>, m: nat)
    requires items == [] && m <= |ks|
    ensures SumBuckets(items, ks, m) == ZERO
    decreases m
  {
    if m > 0 {
      NoItems(items, ks, m - 1);
    }
  }

  lemma {:induction false} BucketsHoldAll(items: seq<Item>, ks: seq<Key>)
    requires Distinct(ks) && forall i :: 0 <= i < |items| ==> Among(items[i].key, ks)
    ensures SumBuckets(items, ks, |ks|) == Sum(items)
    decreases |items|
  {
    if items == [] {
      NoItems(items, ks, |ks|);
    } else {
      var front, x := items[..|items| - 1], items[|items| - 1];
      BucketsHoldAll(front, ks);
      assert Among(x.key, ks);
      var j :| 0 <= j < |ks| && ks[j] == x.key;
      OneItemOneBucket(front, items, x, ks, j);
    }
  }

  function KeyList(ps: seq<Point>): (ks: seq<Key>)
    ensures |ks| == |ps| && forall i :: 0 <= i < |ps| ==> ks[i] == ps[i].key
  {
    seq(|ps|, i requires 0 <= i < |ps| => ps[i].key)
  }

  lemma {:induction false} RowsAreBuckets(items: seq<Item>, ps: seq<Point>, m: nat)
    requires m <= |ps| && forall i :: 0 <= i < |ps| ==> ps[i].sum == Bucket(items, ps[i].key)
    ensures Sum(RowItems(ps)[..m]) == SumBuckets(items, KeyList(ps), m)
    decreases m
  {
    if m > 0 {
      RowsAreBuckets(items, ps, m - 1);
      assert RowItems(ps)[..m][..m - 1] == RowItems(ps)[..m - 1];
    }
  }

  /** A roll-up conserves what it rolls up: runs, cost, lines added and removed. */
  lemma RollupConserves(items: seq<Item>, ps: seq<Point>)
    requires IsRollup(items, ps)
    ensures Sum(RowItems(ps)) == Sum(items)
  {
    var ks := KeyList(ps);
    forall i, j | 0 <= i < j < |ks|
      ensures ks[i] != ks[j]
    {
      assert Less(ps[i].key, ps[j].key);
    }
    forall i | 0 <= i < |items|
      ensures Among(items[i].key, ks)
    {
      assert items[i].key in RowKeys(ps);
      var j :| 0 <= j < |ps| && ps[j].key == items[i].key;
      assert ks[j] == items[i].key;
    }
    BucketsHoldAll(items, ks);
    RowsAreBuckets(items, ps, |ps|);
    assert RowItems(ps)[..|ps|] == RowItems(ps);
  }

  lemma {:induction false} SameSums(a: seq<Item>, b: seq<Item>)
    requires |a| == |b| && forall i :: 0 <= i < |a| ==> a[i].sum == b[i].sum
    ensures Sum(a) == Sum(b)
  {
    if a != [] {
      SameSums(a[..|a| - 1], b[..|b| - 1]);
    }
  }

  /** From eligible runs to rows to totals, nothing is lost and nothing counted twice. */
  lemma CostIsConserved(runs: seq<Run>, cutoff: nat, ps: seq<Point>, ts: seq<Point>)
    requires IsAggregate(runs, cutoff, ps) && IsTotal(ps, ts)
    ensures Sum(RowItems(ps)) == Sum(Items(Eligibles(runs, cutoff)))
    ensures Sum(RowItems(ts)) == Sum(Items(Eligibles(runs, cutoff)))
  {
    RollupConserves(Items(Eligibles(runs, cutoff)), ps);
    RollupConserves(ModelItems(ps), ts);
    SameSums(ModelItems(ps), RowItems(ps));
  }

  /** Money spent, lines added and lines removed by the runs. */
  function Spent(es: seq<Run>): (real, int, int) {
    if es == [] then (0.0, 0, 0)
    else
      var (c, a, d) := Spent(es[..|es| - 1]);
      var r := es[|es| - 1];
      (c + r.cost, a + r.added, d + r.removed)
  }

  lemma {:induction false} RunsAreCounted(es: seq<Run>)
    ensures Sum(Items(es)).runs == |es|
    ensures (Sum(Items(es)).cost, Sum(Items(es)).added, Sum(Items(es)).removed) == Spent(es)
  {
    if es != [] {
      assert Items(es)[..|es| - 1] == Items(es[..|es| - 1]);
      RunsAreCounted(es[..|es| - 1]);
    }
  }

  /** The runs that count are those with a date, not before the cutoff, and with money spent
      or lines changed: each as often as it was given. */
  lemma {:induction false} WhoCounts(runs: seq<Run>, cutoff: nat, r: Run)
    ensures multiset(Eligibles(runs, cutoff))[r]
      == if r.day > 0 && r.day >= cutoff && (r.cost > 0.0 || r.added > 0 || r.removed > 0) then multiset(runs)[r] else 0
  {
    if runs != [] {
      var n := |runs| - 1;
      assert runs == runs[..n] + [runs[n]];
      WhoCounts(runs[..n], cutoff, r);
    }
  }

  /** There is a row for a day and a model exactly when a run that counts was of that day and
      that model, or of the unknown one when it named none. */
  lemma RowsOfRuns(runs: seq<Run>, cutoff: nat, ps: seq<Point>, k: Key)
    requires IsAggregate(runs, cutoff, ps)
    ensures (exists i :: 0 <= i < |ps| && ps[i].key == k) <==>
      exists r :: r in Eligibles(runs, cutoff) && r.day == k.day && (if r.model == 0 then k.model == 1 else r.model == k.model)
  {
    var es := Eligibles(runs, cutoff);
    if i :| 0 <= i < |ps| && ps[i].key == k {
      assert k in RowKeys(ps);
      var j :| 0 <= j < |es| && Items(es)[j].key == k;
      assert es[j] in es;
    }
    if r :| r in es && r.day == k.day && (if r.model == 0 then k.model == 1 else r.model == k.model) {
      var j :| 0 <= j < |es| && es[j] == r;
      assert Items(es)[j].key == k;
      assert k in RowKeys(ps);
    }
  }

  // ---------------------------------------------------------------- what a row shows

  /** The derived columns against the sums they stand beside. */
  predicate Derived(p: Point) {
    && p.changed == p.sum.added + p.sum.removed
    && (if p.tasks == 0 then p.perTask == 0.0 else p.perTask * p.tasks as real == p.sum.cost)
    && (if p.changed == 0 then p.perLine == 0.0 else p.perLine * p.changed as real == p.sum.cost)
  }

  lemma Undivided(cost: real, n: nat)
    ensures if n == 0 then Ratio(cost, n) == 0.0 else Ratio(cost, n) * n as real == cost
  {
    if n > 0 {
      assert cost / n as real * n as real == cost;
    }
  }

  lemma FinalizedIsDerived(k: Key, sum: Amount, tasks: nat)
    ensures Derived(Finalized(k, sum, tasks))
  {
    Undivided(sum.cost, tasks);
    Undivided(sum.cost, sum.added + sum.removed);
  }

  /** The cost per task times the tasks is the cost, and so is the cost per line times the
      lines changed, in every row of a day and in every total. The rows go by day and then by
      model. */
  lemma RowsMean(runs: seq<Run>, cutoff: nat, ps: seq<Point>, ts: seq<Point>)
    requires IsAggregate(runs, cutoff, ps) && IsTotal(ps, ts)
    ensures forall i :: 0 <= i < |ps| ==> Derived(ps[i]) && 1 <= ps[i].tasks <= ps[i].sum.runs
    ensures forall i :: 0 <= i < |ts| ==> Derived(ts[i])
    ensures forall i, j :: 0 <= i < j < |ps| ==>
      ps[i].key.day < ps[j].key.day || (ps[i].key.day == ps[j].key.day && ps[i].key.model < ps[j].key.model)
  {
    var es := Eligibles(runs, cutoff);
    forall i | 0 <= i < |ps|
      ensures Derived(ps[i]) && 1 <= ps[i].tasks <= ps[i].sum.runs
    {
      FinalizedIsDerived(ps[i].key, ps[i].sum, |TasksIn(es, ps[i].key)|);
      TasksAreRuns(es, ps[i].key);
      assert ps[i].key in RowKeys(ps);
    }
    forall i | 0 <= i < |ts|
      ensures Derived(ts[i])
    {
      FinalizedIsDerived(ts[i].key, ts[i].sum, ModelTasks(ps, ts[i].key.model));
    }
  }

  /** A bucket has no more tasks than runs, and at least one if it is anyone's. */
  lemma {:induction false} TasksAreRuns(es: seq<Run>, k: Key)
    ensures |TasksIn(es, k)| <= Bucket(Items(es), k).runs
    ensures k in Keys(Items(es)) ==> |TasksIn(es, k)| >= 1
  {
    if es != [] {
      var front, r := es[..|es| - 1], es[|es| - 1];
      assert es == front + [r];
      TasksAreRuns(front, k);
      CountAt(front, r, k);
    }
    if k in Keys(Items(es)) {
      var i :| 0 <= i < |es| && Items(es)[i].key == k;
      assert es[i].task in TasksIn(es, k);
    }
  }

  // ---------------------------------------------------------------- the order of models

  /** Each model once, in the order their first runs were made; `runs` is newest first. */
  function Order(runs: seq<Run>): seq<Model> {
    if runs == [] then []
    else
      var older := Order(runs[1..]);
      if RunModel(runs[0]) in older then older else older + [RunModel(runs[0])]
  }

  method ModelOrder(runs: seq<Run>) returns (order: seq<Model>)
    ensures order == Order(runs)
  {
    order := [];
    var seen: set<Model> := {};
    var i := |runs|;
    assert runs[|runs|..] == [];
    while i > 0
      invariant 0 <= i <= |runs| && order == Order(runs[i..]) && forall m :: m in seen <==> m in order
    {
      i := i - 1;
      var m := RunModel(runs[i]);
      assert runs[i..][1..] == runs[i + 1..] && runs[i..][0] == runs[i];
      if m in seen {
        continue;
      }
      seen := seen + {m};
      order := order + [m];
    }
    assert runs[0..] == runs;
  }

  /** Every model ever run is listed, once. */
  lemma {:induction false} OrderListsEachOnce(runs: seq<Run>, m: Model)
    ensures m in Order(runs) <==> exists i :: 0 <= i < |runs| && RunModel(runs[i]) == m
    ensures forall i, j :: 0 <= i < j < |Order(runs)| ==> Order(runs)[i] != Order(runs)[j]
  {
    if runs != [] {
      OrderListsEachOnce(runs[1..], m);
      if i :| 0 <= i < |runs| - 1 && RunModel(runs[1..][i]) == m {
        assert RunModel(runs[i + 1]) == m;
      }
      if i :| 0 < i < |runs| && RunModel(runs[i]) == m {
        assert RunModel(runs[1..][i - 1]) == m;
      }
    }
  }

  /** Newer runs never move a model: the order so far stays at the front. */
  lemma {:induction false} OrderIsStable(newer: seq<Run>, runs: seq<Run>)
    ensures Order(runs) <= Order(newer + runs)
  {
    if newer == [] {
      assert newer + runs == runs;
    } else {
      assert (newer + runs)[1..] == newer[1..] + runs;
      OrderIsStable(newer[1..], runs);
    }
  }
}
