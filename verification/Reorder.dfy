/** Reordering part of the queue (internal/store/tasks.go, ReorderTasks): the tasks named take
    the places they held between them, in the order asked for. */
module Reorder {
  import opened Domain

  /** The sort order of every task. */
  type Places = map<nat, int>

  predicate Sorted(xs: seq<int>) {
    forall i, j :: 0 <= i < j < |xs| ==> xs[i] <= xs[j]
  }

  predicate Distinct(ids: seq<nat>) {
    forall i, j :: 0 <= i < j < |ids| ==> ids[i] != ids[j]
  }

  predicate Known(places: Places, ids: seq<nat>) {
    forall i :: 0 <= i < |ids| ==> ids[i] in places
  }

  function Values(places: Places, ids: seq<nat>): (xs: seq<int>)
    requires Known(places, ids)
    ensures |xs| == |ids| && forall i :: 0 <= i < |ids| ==> xs[i] == places[ids[i]]
  {
    seq(|ids|, i requires 0 <= i < |ids| => places[ids[i]])
  }

  /** The tasks named hold, in the order named and ascending, exactly the places they held
      before; every other task stays where it was. */
  predicate IsReorder(places: Places, ids: seq<nat>, after: Places) {
    && Known(places, ids) && Distinct(ids) && after.Keys == places.Keys
    && (forall t :: t in places && t !in ids ==> after[t] == places[t])
    && Known(after, ids) && Sorted(Values(after, ids))
    && multiset(Values(after, ids)) == multiset(Values(places, ids))
  }

  /** The rows an IN query returns: one per known task named, however often it is named. */
  method QueryPlaces(places: Places, ids: seq<nat>) returns (xs: seq<int>, ghost known: seq<nat>)
    ensures Sorted(xs) && Distinct(known) && Known(places, known)
    ensures (forall t :: t in known <==> t in ids && t in places)
    ensures multiset(xs) == multiset(Values(places, known)) && |xs| == |known|
    ensures |xs| == |ids| ==> known == ids
  {
    xs := [];
    known := [];
    var seen: set<nat> := {};
    for i := 0 to |ids|
      invariant Sorted(xs) && Distinct(known) && Known(places, known) && |xs| == |known| <= i
      invariant forall t :: t in seen <==> t in known
      invariant forall t :: t in known <==> t in ids[..i] && t in places
      invariant multiset(xs) == multiset(Values(places, known))
      invariant |known| == i ==> known == ids[..i]
    {
      var t := ids[i];
      assert ids[..i + 1] == ids[..i] + [t];
      if t in places && t !in seen {
        assert Values(places, known + [t]) == Values(places, known) + [places[t]];
        xs := InsertSorted(xs, places[t]);
        known := known + [t];
        seen := seen + {t};
      }
    }
    assert ids[..|ids|] == ids;
  }

  method InsertSorted(xs: seq<int>, x: int) returns (out: seq<int>)
    requires Sorted(xs)
    ensures Sorted(out) && |out| == |xs| + 1 && multiset(out) == multiset(xs + [x])
  {
    var i := 0;
    while i < |xs| && xs[i] < x
      invariant i <= |xs| && forall j :: 0 <= j < i ==> xs[j] < x
    {
      i := i + 1;
    }
    out := xs[..i] + [x] + xs[i..];
    Inserted(xs, xs[..i], xs[i..], x);
  }

  lemma Inserted(xs: seq<int>, a: seq<int>, b: seq<int>, x: int)
    requires Sorted(xs) && xs == a + b
    requires (forall j :: 0 <= j < |a| ==> a[j] < x) && (b != [] ==> b[0] >= x)
    ensures Sorted(a + [x] + b) && multiset(a + [x] + b) == multiset(xs + [x])
  {
    assert forall j :: 0 <= j < |a| ==> a[j] == xs[j];
    assert forall j :: 0 <= j < |b| ==> b[j] == xs[|a| + j];
    Between(a, b, x);
  }

  lemma Between(a: seq<int>, b: seq<int>, x: int)
    ensures multiset(a + [x] + b) == multiset(a + b + [x])
    ensures Sorted(a) && Sorted(b) && (forall j :: 0 <= j < |a| ==> a[j] <= x) && (forall j :: 0 <= j < |b| ==> x <= b[j])
      ==> Sorted(a + [x] + b)
  {
  }

  /** Fails exactly when a task named is unknown or named twice. */
  method ReorderTasks(places: Places, ids: seq<nat>) returns (res: Option<Places>)
    ensures res.Some? <==> Known(places, ids) && Distinct(ids)
    ensures res.Some? ==> IsReorder(places, ids, res.value)
  {
    if |ids| == 0 {
      return Some(places);
    }
    var xs, known := QueryPlaces(places, ids);
    if |xs| != |ids| {
      if Known(places, ids) && Distinct(ids) {
        AllKnown(ids, known);
      }
      return None;
    }
    var after := places;
    for i := 0 to |ids|
      invariant after.Keys == places.Keys
      invariant forall t :: t in places && t !in ids[..i] ==> after[t] == places[t]
      invariant forall j :: 0 <= j < i ==> ids[j] in after && after[ids[j]] == xs[j]
    {
      assert ids[..i + 1] == ids[..i] + [ids[i]];
      after := after[ids[i] := xs[i]];
    }
    assert ids[..|ids|] == ids;
    assert Values(after, ids) == xs;
    return Some(after);
  }

  /** Two distinct lists of the same tasks are equally long. */
  lemma AllKnown(a: seq<nat>, b: seq<nat>)
    requires Distinct(a) && Distinct(b) && forall t :: t in a <==> t in b
    ensures |a| == |b|
  {
    Cardinality(a);
    Cardinality(b);
    assert Elements(a) == Elements(b);
  }

  function Elements(a: seq<nat>): set<nat> {
    set t | t in a
  }

  lemma {:induction false} Cardinality(a: seq<nat>)
    requires Distinct(a)
    ensures |Elements(a)| == |a|
  {
    if a != [] {
      var front, last := a[..|a| - 1], a[|a| - 1];
      assert a == front + [last];
      Cardinality(front);
      assert last !in Elements(front);
      assert Elements(a) == Elements(front) + {last};
    }
  }

  // ---------------------------------------------------------------- one outcome

  /** The greatest element of a sorted list is its last. */
  lemma LastIsGreatest(a: seq<int>, b: seq<int>)
    requires Sorted(a) && Sorted(b) && multiset(a) == multiset(b) && a != [] && b != []
    ensures a[|a| - 1] == b[|b| - 1]
  {
    var x, y := a[|a| - 1], b[|b| - 1];
    assert x in multiset(b) && y in multiset(a);
  }

  lemma DropLast(a: seq<int>)
    requires a != []
    ensures a == a[..|a| - 1] + [a[|a| - 1]]
    ensures multiset(a[..|a| - 1]) == multiset(a) - multiset{a[|a| - 1]}
  {
    assert a == a[..|a| - 1] + [a[|a| - 1]];
  }

  lemma {:induction false} SortedIsUnique(a: seq<int>, b: seq<int>)
    requires Sorted(a) && Sorted(b) && multiset(a) == multiset(b)
    ensures a == b
  {
    SameLength(a, b);
    if a != [] {
      LastIsGreatest(a, b);
      DropLast(a);
      DropLast(b);
      SortedIsUnique(a[..|a| - 1], b[..|b| - 1]);
    }
  }

  lemma SameLength(a: seq<int>, b: seq<int>)
    requires multiset(a) == multiset(b)
    ensures |a| == |b|
  {
    assert |multiset(a)| == |a| && |multiset(b)| == |b|;
  }

  /** The places and the request determine the outcome. */
  lemma ReorderIsDetermined(places: Places, ids: seq<nat>, a: Places, b: Places)
    requires IsReorder(places, ids, a) && IsReorder(places, ids, b)
    ensures a == b
  {
    SortedIsUnique(Values(a, ids), Values(b, ids));
    forall t | t in a
      ensures a[t] == b[t]
    {
      if t in ids {
        var i :| 0 <= i < |ids| && ids[i] == t;
        assert Values(a, ids)[i] == Values(b, ids)[i];
      }
    }
  }

  /** Asking for the same order again changes nothing. */
  lemma ReorderIsIdempotent(places: Places, ids: seq<nat>, a: Places, b: Places)
    requires IsReorder(places, ids, a) && IsReorder(a, ids, b)
    ensures b == a
  {
    assert IsReorder(a, ids, a);
    ReorderIsDetermined(a, ids, a, b);
  }

  /** The last request wins: an earlier order of the same tasks leaves no trace. */
  lemma LastReorderWins(places: Places, ids: seq<nat>, others: seq<nat>, a: Places, b: Places, c: Places)
    requires IsReorder(places, others, a) && IsReorder(a, ids, b) && IsReorder(places, ids, c)
    requires multiset(ids) == multiset(others)
    ensures b == c
  {
    PermutedValues(a, ids, others);
    PermutedValues(places, ids, others);
    forall t | t in places && t !in ids
      ensures b[t] == places[t]
    {
      assert t !in others by {
        assert t !in multiset(ids);
      }
    }
    assert IsReorder(places, ids, b);
    ReorderIsDetermined(places, ids, b, c);
  }

  lemma WithoutOne(a: seq<nat>, front: seq<nat>, back: seq<nat>, x: nat)
    requires multiset(a + [x]) == multiset(front + [x] + back)
    ensures multiset(a) == multiset(front + back)
  {
    assert multiset(a + [x]) == multiset(a) + multiset{x};
    assert multiset(front + [x] + back) == multiset(front) + multiset{x} + multiset(back);
    assert multiset(a) == multiset(a + [x]) - multiset{x};
    assert multiset(front + back) == multiset(front + [x] + back) - multiset{x};
  }

  lemma InsertValues(places: Places, front: seq<nat>, back: seq<nat>, x: nat)
    requires Known(places, front) && Known(places, back) && x in places
    ensures multiset(Values(places, front + [x] + back)) == multiset(Values(places, front + back)) + multiset{places[x]}
  {
    var f, b := Values(places, front), Values(places, back);
    assert Values(places, front + [x] + back) == f + [places[x]] + b;
    assert Values(places, front + back) == f + b;
  }

  lemma KnownParts(places: Places, front: seq<nat>, back: seq<nat>, x: nat)
    requires Known(places, front + [x] + back)
    ensures Known(places, front) && Known(places, back) && x in places && Known(places, front + back)
  {
    var all := front + [x] + back;
    assert forall i :: 0 <= i < |front| ==> front[i] == all[i];
    assert all[|front|] == x;
    assert forall i :: 0 <= i < |back| ==> back[i] == all[|front| + 1 + i];
  }

  lemma {:induction false} PermutedValues(places: Places, a: seq<nat>, b: seq<nat>)
    requires Known(places, a) && Known(places, b) && multiset(a) == multiset(b)
    ensures multiset(Values(places, a)) == multiset(Values(places, b))
    decreases |a|, 1
  {
    if a == [] {
      assert |multiset(b)| == |b|;
      assert b == [];
    } else {
      var front, x := a[..|a| - 1], a[|a| - 1];
      assert a == front + [x] + [];
      assert x in multiset(b);
      var j :| 0 <= j < |b| && b[j] == x;
      assert b == b[..j] + [x] + b[j + 1..];
      MoveOne(places, front, b[..j], b[j + 1..], x);
    }
  }

  lemma MoveOne(places: Places, a: seq<nat>, front: seq<nat>, back: seq<nat>, x: nat)
    requires Known(places, a + [x] + []) && Known(places, front + [x] + back)
    requires multiset(a + [x] + []) == multiset(front + [x] + back)
    ensures multiset(Values(places, a + [x] + [])) == multiset(Values(places, front + [x] + back))
    decreases |a| + 1, 0
  {
    assert a + [x] + [] == a + [x] && a + [] == a;
    KnownParts(places, a, [], x);
    KnownParts(places, front, back, x);
    WithoutOne(a, front, back, x);
    PermutedValues(places, a, front + back);
    InsertValues(places, a, [], x);
    InsertValues(places, front, back, x);
  }
}
