/** Switching a task's branches into the user's clones (internal/checkout/checkout.go): one
    branch a repo, newest first, and every branch reported. */
module Checkout {
  import opened Domain

  /** Repos and branches are numbered, 0 for none; ids are the database's. */
  datatype PR = PR(id: nat, repo: nat, branch: nat)

  /** What happens when one branch is tried: no clone is found, the switch fails, or the clone
      ends up on the branch, possibly because it was there already. */
  datatype Attempt = NoClone | SwitchFails | Switched | WasThere

  datatype Status = CheckedOut | Already | Skipped | Failed

  datatype Result = Result(pr: PR, status: Status)

  predicate Named(p: PR) { p.repo != 0 && p.branch != 0 }

  predicate DistinctIds(prs: seq<PR>) {
    forall i, j :: 0 <= i < j < |prs| ==> prs[i].id != prs[j].id
  }

  // ---------------------------------------------------------------- winners and losers

  /** `w` is the newest named PR of its repo. */
  predicate Newest(prs: seq<PR>, w: PR) {
    w in prs && Named(w) && forall p :: p in prs && Named(p) && p.repo == w.repo ==> p.id <= w.id
  }

  /** The index of the first named PR of `repo`. */
  function FirstSeen(prs: seq<PR>, repo: nat): (k: nat)
    ensures k <= |prs|
  {
    if prs == [] then 0
    else
      var k := FirstSeen(prs[..|prs| - 1], repo);
      if k < |prs| - 1 then k
      else if Named(prs[|prs| - 1]) && prs[|prs| - 1].repo == repo then |prs| - 1
      else |prs|
  }

  predicate Loses(p: PR, best: map<nat, PR>) {
    Named(p) && (p.repo in best ==> best[p.repo].id != p.id)
  }

  /** The named PRs that are not the best of their repo, in order. */
  function Losers(prs: seq<PR>, best: map<nat, PR>): seq<PR> {
    if prs == [] then []
    else Losers(prs[..|prs| - 1], best) + if Loses(prs[|prs| - 1], best) then [prs[|prs| - 1]] else []
  }

  lemma {:induction false} LosersAre(prs: seq<PR>, best: map<nat, PR>, p: PR)
    ensures p in Losers(prs, best) <==> p in prs && Loses(p, best)
  {
    if prs != [] {
      assert prs == prs[..|prs| - 1] + [prs[|prs| - 1]];
      LosersAre(prs[..|prs| - 1], best, p);
    }
  }

  predicate Best(prs: seq<PR>, best: map<nat, PR>) {
    && (forall p :: p in prs && Named(p) ==> p.repo in best)
    && (forall r :: r in best ==> best[r].repo == r && Newest(prs, best[r]))
  }

  /** Each repo once, in the order the repos were first seen. */
  ghost predicate InOrder(prs: seq<PR>, order: seq<nat>, best: map<nat, PR>) {
    && (forall r :: r in order <==> r in best)
    && (forall i :: 0 <= i < |order| ==> FirstSeen(prs, order[i]) < |prs|)
    && (forall i, j :: 0 <= i < j < |order| ==> FirstSeen(prs, order[i]) < FirstSeen(prs, order[j]))
  }

  method FindBest(prs: seq<PR>) returns (best: map<nat, PR>, order: seq<nat>)
    ensures Best(prs, best) && InOrder(prs, order, best)
  {
    best, order := map[], [];
    for i := 0 to |prs|
      invariant Best(prs[..i], best) && InOrder(prs[..i], order, best)
    {
      var pr := prs[i];
      ghost var before := prs[..i];
      assert prs[..i + 1] == before + [pr];
      ghost var oldBest, oldOrder := best, order;
      if pr.repo != 0 && pr.branch != 0 {
        if pr.repo !in best {
          order := order + [pr.repo];
        }
        if pr.repo !in best || pr.id > best[pr.repo].id {
          best := best[pr.repo := pr];
        }
      }
      BestGrows(before, pr, oldBest, best);
      OrderGrows(before, pr, oldBest, best, oldOrder, order);
    }
    assert prs[..|prs|] == prs;
  }

  lemma BestGrows(prs: seq<PR>, p: PR, best: map<nat, PR>, best': map<nat, PR>)
    requires Best(prs, best)
    requires best' == if Named(p) && (p.repo !in best || p.id > best[p.repo].id) then best[p.repo := p] else best
    ensures Best(prs + [p], best')
  {
    forall r | r in best'
      ensures best'[r].repo == r && Newest(prs + [p], best'[r])
    {
      if r in best {
        assert Newest(prs, best[r]);
      }
      assert forall q :: q in prs && Named(q) && q.repo == r ==> r in best && q.id <= best[r].id;
    }
  }

  lemma {:induction false} SeenIffNamed(prs: seq<PR>, r: nat)
    ensures FirstSeen(prs, r) < |prs| <==> exists p :: p in prs && Named(p) && p.repo == r
  {
    if prs != [] {
      var front, last := prs[..|prs| - 1], prs[|prs| - 1];
      assert prs == front + [last];
      SeenIffNamed(front, r);
      if p :| p in front && Named(p) && p.repo == r {
        assert p in prs;
      }
    }
  }

  lemma OrderGrows(prs: seq<PR>, p: PR, best: map<nat, PR>, best': map<nat, PR>, order: seq<nat>, order': seq<nat>)
    requires Best(prs, best) && InOrder(prs, order, best)
    requires best' == if Named(p) && (p.repo !in best || p.id > best[p.repo].id) then best[p.repo := p] else best
    requires order' == if Named(p) && p.repo !in best then order + [p.repo] else order
    ensures InOrder(prs + [p], order', best')
  {
    forall r | r in order'
      ensures FirstSeen(prs + [p], r) == if r in order then FirstSeen(prs, r) else |prs|
    {
      if r !in order {
        SeenIffNamed(prs, r);
      }
    }
  }

  /** Winners first, in the order their repos were first seen, then everyone else. */
  ghost predicate IsSplit(prs: seq<PR>, out: seq<PR>, best: map<nat, PR>, order: seq<nat>) {
    && Best(prs, best) && InOrder(prs, order, best) && |order| <= |out|
    && (forall i :: 0 <= i < |order| ==> out[i] == best[order[i]])
    && out[|order|..] == Losers(prs, best)
  }

  method NewestPerRepo(prs: seq<PR>) returns (out: seq<PR>)
    ensures exists best, order :: IsSplit(prs, out, best, order)
  {
    var top, repos := FindBest(prs);
    var winners: seq<PR> := [];
    for i := 0 to |repos|
      invariant |winners| == i && forall j :: 0 <= j < i ==> winners[j] == top[repos[j]]
    {
      winners := winners + [top[repos[i]]];
    }
    var losers := CollectLosers(prs, top);
    out := winners + losers;
    assert out[|repos|..] == losers;
    assert IsSplit(prs, out, top, repos);
  }

  method CollectLosers(prs: seq<PR>, best: map<nat, PR>) returns (out: seq<PR>)
    requires forall p :: p in prs && Named(p) ==> p.repo in best
    ensures out == Losers(prs, best)
  {
    out := [];
    for i := 0 to |prs|
      invariant out == Losers(prs[..i], best)
    {
      var pr := prs[i];
      assert prs[..i + 1][..i] == prs[..i];
      if pr.repo == 0 || pr.branch == 0 {
        continue;
      }
      assert pr in prs;
      if best[pr.repo].id != pr.id {
        out := out + [pr];
      }
    }
    assert prs[..|prs|] == prs;
  }

  /** Every named PR comes out exactly once, and nothing else does. */
  lemma SplitKeepsEveryPR(prs: seq<PR>, out: seq<PR>, best: map<nat, PR>, order: seq<nat>)
    requires DistinctIds(prs) && IsSplit(prs, out, best, order)
    ensures forall p :: p in out <==> p in prs && p.repo != 0 && p.branch != 0
    ensures DistinctIds(out)
  {
    forall p
      ensures p in out <==> p in prs && Named(p)
    {
      SplitKeeps(prs, out, best, order, p);
    }
    LosersAreDistinct(prs, best);
    forall i, j | 0 <= i < j < |out|
      ensures out[i].id != out[j].id
    {
      SplitIsDistinct(prs, out, best, order, i, j);
    }
  }

  lemma DifferentRepos(prs: seq<PR>, p: PR, q: PR)
    requires DistinctIds(prs) && p in prs && q in prs && p.repo != q.repo
    ensures p.id != q.id
  {
  }

  lemma SplitIsDistinct(prs: seq<PR>, out: seq<PR>, best: map<nat, PR>, order: seq<nat>, i: nat, j: nat)
    requires DistinctIds(prs) && IsSplit(prs, out, best, order) && i < j < |out| && DistinctIds(Losers(prs, best))
    ensures out[i].id != out[j].id
  {
    var n := |order|;
    if j < n {
      assert FirstSeen(prs, order[i]) < FirstSeen(prs, order[j]);
      DifferentRepos(prs, out[i], out[j]);
    } else {
      var loser := out[j];
      assert loser == out[n..][j - n];
      LosersAre(prs, best, loser);
      if i < n {
        if loser.repo == order[i] {
          assert best[loser.repo] == out[i];
        } else {
          DifferentRepos(prs, out[i], loser);
        }
      } else {
        assert out[i] == out[n..][i - n];
      }
    }
  }

  lemma SplitKeeps(prs: seq<PR>, out: seq<PR>, best: map<nat, PR>, order: seq<nat>, p: PR)
    requires DistinctIds(prs) && IsSplit(prs, out, best, order)
    ensures p in out <==> p in prs && Named(p)
  {
    var n := |order|;
    assert out == out[..n] + out[n..];
    LosersAre(prs, best, p);
    if p in out[..n] {
      var i :| 0 <= i < n && out[i] == p;
      assert Newest(prs, best[order[i]]);
    }
    if p in prs && Named(p) && best[p.repo].id == p.id {
      var i :| 0 <= i < n && order[i] == p.repo;
      assert out[i] == p;
    }
  }

  lemma {:induction false} LosersAreDistinct(prs: seq<PR>, best: map<nat, PR>)
    requires DistinctIds(prs)
    ensures DistinctIds(Losers(prs, best))
  {
    if prs != [] {
      var front, last := prs[..|prs| - 1], prs[|prs| - 1];
      LosersAreDistinct(front, best);
      forall p | p in Losers(front, best)
        ensures p.id != last.id
      {
        LosersAre(front, best, p);
        var i :| 0 <= i < |front| && front[i] == p;
        assert prs[i] == p;
      }
    }
  }

  // ---------------------------------------------------------------- trying them

  predicate Claims(s: Status) { s.CheckedOut? || s.Already? }

  /** One of the first `k` results put the clone of `repo` on its branch. */
  predicate ClaimedBefore(rs: seq<Result>, k: nat, repo: nat)
    requires k <= |rs|
  {
    exists i :: 0 <= i < k && rs[i].pr.repo == repo && Claims(rs[i].status)
  }

  /** The status of the PR tried in place `k`. */
  predicate IsStatus(out: seq<PR>, tries: seq<Attempt>, rs: seq<Result>, k: nat)
    requires k < |rs| <= |out| <= |tries|
  {
    && rs[k].pr == out[k]
    && rs[k].status ==
       if ClaimedBefore(rs, k, out[k].repo) then Skipped
       else match tries[k]
         case NoClone => Status.Failed
         case SwitchFails => Status.Failed
         case Switched => CheckedOut
         case WasThere => Already
  }

  /** `tries` is what each switch would do when it is tried. */
  method Task(prs: seq<PR>, tries: seq<Attempt>) returns (results: seq<Result>)
    requires DistinctIds(prs) && |tries| >= |prs|
    ensures exists out, best, order ::
              && IsSplit(prs, out, best, order) && |results| == |out| <= |tries|
              && forall k :: 0 <= k < |results| ==> IsStatus(out, tries, results, k)
  {
    var list := NewestPerRepo(prs);
    ghost var best, order :| IsSplit(prs, list, best, order);
    NotMore(prs, list, best, order);
    results := TryAll(list, tries);
  }

  method TryAll(list: seq<PR>, tries: seq<Attempt>) returns (results: seq<Result>)
    requires |list| <= |tries|
    ensures |results| == |list| && forall k :: 0 <= k < |results| ==> IsStatus(list, tries, results, k)
  {
    results := [];
    var claimed: set<nat> := {};
    for k := 0 to |list|
      invariant |results| == k
      invariant forall j :: 0 <= j < k ==> IsStatus(list, tries, results, j)
      invariant forall r :: r in claimed <==> ClaimedBefore(results, k, r)
    {
      var pr := list[k];
      var status;
      if pr.repo in claimed {
        status := Skipped;
      } else {
        match tries[k]
        case NoClone => status := Status.Failed;
        case SwitchFails => status := Status.Failed;
        case Switched => status := CheckedOut;
        case WasThere => status := Already;
      }
      if Claims(status) {
        claimed := claimed + {pr.repo};
      }
      ghost var before := results;
      results := results + [Result(pr, status)];
      Extended(list, tries, before, results);
    }
  }

  /** One more result leaves the others as they are. */
  lemma Extended(out: seq<PR>, tries: seq<Attempt>, rs: seq<Result>, rs': seq<Result>)
    requires |rs| < |out| <= |tries| && |rs'| == |rs| + 1 && rs' == rs + [rs'[|rs|]]
    requires forall j :: 0 <= j < |rs| ==> IsStatus(out, tries, rs, j)
    ensures forall j :: 0 <= j < |rs| ==> IsStatus(out, tries, rs', j)
    ensures forall r, k :: 0 <= k <= |rs| ==> (ClaimedBefore(rs', k, r) <==> ClaimedBefore(rs, k, r))
    ensures forall r :: ClaimedBefore(rs', |rs'|, r) <==>
      ClaimedBefore(rs, |rs|, r) || (rs'[|rs|].pr.repo == r && Claims(rs'[|rs|].status))
  {
    assert forall i :: 0 <= i < |rs| ==> rs'[i] == rs[i];
    forall j | 0 <= j < |rs|
      ensures IsStatus(out, tries, rs', j)
    {
      assert IsStatus(out, tries, rs, j);
    }
  }

  lemma NotMore(prs: seq<PR>, out: seq<PR>, best: map<nat, PR>, order: seq<nat>)
    requires DistinctIds(prs) && IsSplit(prs, out, best, order)
    ensures |out| <= |prs|
  {
    SplitKeepsEveryPR(prs, out, best, order);
    var a, b := set p | p in out, set p | p in prs;
    CountDistinct(out, a);
    CountDistinct(prs, b);
    assert a <= b;
    Fewer(a, b);
  }

  lemma {:induction false} CountDistinct(xs: seq<PR>, s: set<PR>)
    requires DistinctIds(xs) && forall p :: p in s <==> p in xs
    ensures |s| == |xs|
    decreases |xs|
  {
    if xs == [] {
      assert s == {};
    } else {
      var front, last := xs[..|xs| - 1], xs[|xs| - 1];
      assert xs == front + [last];
      assert last !in front;
      CountDistinct(front, s - {last});
    }
  }

  /** Each result by what its own try gives and what came before: skipped exactly when an
      earlier result put the same repo on a branch, and otherwise checked out, found there
      already, or failed. */
  lemma ResultsMean(out: seq<PR>, tries: seq<Attempt>, rs: seq<Result>, k: nat)
    requires |rs| == |out| <= |tries| && (forall k :: 0 <= k < |rs| ==> IsStatus(out, tries, rs, k))
    requires k < |rs|
    ensures rs[k].pr == out[k]
    ensures rs[k].status.Skipped? <==>
      exists i :: 0 <= i < k && rs[i].pr.repo == out[k].repo && rs[i].status in {CheckedOut, Already}
    ensures rs[k].status.CheckedOut? <==> !rs[k].status.Skipped? && tries[k].Switched?
    ensures rs[k].status.Already? <==> !rs[k].status.Skipped? && tries[k].WasThere?
    ensures rs[k].status.Failed? <==> !rs[k].status.Skipped? && (tries[k].NoClone? || tries[k].SwitchFails?)
  {
    assert IsStatus(out, tries, rs, k);
    if i :| 0 <= i < k && rs[i].pr.repo == out[k].repo && rs[i].status in {CheckedOut, Already} {
      assert Claims(rs[i].status);
    }
  }

  /** A clone is claimed at most once, and a PR is skipped exactly when its repo was claimed
      before it. So an older PR is tried only after every earlier try in its repo has failed. */
  lemma OneClaimPerRepo(out: seq<PR>, tries: seq<Attempt>, rs: seq<Result>, i: nat, j: nat)
    requires |rs| == |out| <= |tries| && (forall k :: 0 <= k < |rs| ==> IsStatus(out, tries, rs, k))
    requires i < j < |rs| && out[i].repo == out[j].repo
    ensures rs[i].status in {CheckedOut, Already, Skipped} ==> rs[j].status.Skipped?
    ensures rs[j].status in {CheckedOut, Already} ==> rs[i].status.Failed?
  {
    assert IsStatus(out, tries, rs, i) && IsStatus(out, tries, rs, j);
    if rs[i].status.Skipped? {
      var c :| 0 <= c < i && rs[c].pr.repo == out[i].repo && Claims(rs[c].status);
      assert 0 <= c < j;
      assert ClaimedBefore(rs, j, out[j].repo);
    } else if Claims(rs[i].status) {
      assert ClaimedBefore(rs, j, out[j].repo);
    }
  }

  /** The newest PR of each repo is tried before any other of it, and so is never skipped. */
  lemma WinnersAreTried(prs: seq<PR>, out: seq<PR>, best: map<nat, PR>, order: seq<nat>,
                        tries: seq<Attempt>, rs: seq<Result>, k: nat)
    requires IsSplit(prs, out, best, order) && |rs| == |out| <= |tries| && k < |order|
    requires forall k :: 0 <= k < |rs| ==> IsStatus(out, tries, rs, k)
    ensures out[k] in prs && out[k].repo != 0 && out[k].branch != 0 && !rs[k].status.Skipped?
    ensures forall p :: p in prs && p.branch != 0 && p.repo == out[k].repo ==> p.id <= out[k].id
  {
    assert IsStatus(out, tries, rs, k);
    assert out[k] == best[order[k]] && Newest(prs, best[order[k]]);
    forall i | 0 <= i < k
      ensures rs[i].pr.repo != out[k].repo
    {
      assert IsStatus(out, tries, rs, i);
      assert out[i] == best[order[i]];
      assert FirstSeen(prs, order[i]) < FirstSeen(prs, order[k]);
    }
  }

  // ---------------------------------------------------------------- one clone, two names

  // Claims are kept by the name of the repo, but a clone is found by the name in lower case:
  // below, `clone` maps a name to the clone it finds.

  /** `rs` is what the loop reports when the tries turn out as `tries` says. */
  predicate Reports(out: seq<PR>, tries: seq<Attempt>, rs: seq<Result>) {
    |rs| == |out| <= |tries| && forall k :: 0 <= k < |rs| ==> IsStatus(out, tries, rs, k)
  }

  predicate BothClaim(rs: seq<Result>, i: nat, j: nat)
    requires i < j < |rs|
  {
    Claims(rs[i].status) && Claims(rs[j].status)
  }

  /** No clone is claimed by two results. */
  predicate ClaimedOnce(out: seq<PR>, rs: seq<Result>, clone: nat -> nat)
    requires |rs| == |out|
  {
    forall i, j :: 0 <= i < j < |rs| && BothClaim(rs, i, j) ==> clone(out[i].repo) != clone(out[j].repo)
  }

  /** PRs `p` and `q` name one clone in two ways. */
  predicate Aliases(p: PR, q: PR, clone: nat -> nat) {
    Named(p) && Named(q) && p.repo != q.repo && clone(p.repo) == clone(q.repo)
  }

  predicate NoAliases(prs: seq<PR>, clone: nat -> nat) {
    forall p, q :: p in prs && q in prs ==> !Aliases(p, q, clone)
  }

  /** The branch clone `c` is on after the first `n` results, if it was on `was`. */
  function BranchOf(out: seq<PR>, rs: seq<Result>, clone: nat -> nat, c: nat, was: nat, n: nat): nat
    requires n <= |rs| == |out|
  {
    if n == 0 then was
    else if Claims(rs[n - 1].status) && clone(out[n - 1].repo) == c then out[n - 1].branch
    else BranchOf(out, rs, clone, c, was, n - 1)
  }

  /** Every branch reported as checked out is checked out in the end. */
  predicate ReportsHold(out: seq<PR>, rs: seq<Result>, clone: nat -> nat, was: nat)
    requires |rs| == |out|
  {
    forall i :: 0 <= i < |rs| && Claims(rs[i].status) ==>
      BranchOf(out, rs, clone, clone(out[i].repo), was, |rs|) == out[i].branch
  }

  /** PRs `p` and `q` name one clone in two ways and want different branches in it. */
  predicate Conflict(p: PR, q: PR, clone: nat -> nat) {
    Aliases(p, q, clone) && p.branch != q.branch
  }

  predicate NoConflicts(prs: seq<PR>, clone: nat -> nat) {
    forall p, q :: p in prs && q in prs ==> !Conflict(p, q, clone)
  }

  /** Only the tries in places `i` and `j` switch a clone. */
  function OnlyThese(n: nat, i: nat, j: nat): seq<Attempt> {
    seq(n, k => if k == i || k == j then Switched else NoClone)
  }

  function TheirResults(out: seq<PR>, i: nat, j: nat): seq<Result>
    requires i < j < |out|
  {
    seq(|out|, k requires 0 <= k < |out| => Result(out[k],
      if k == i || k == j then CheckedOut
      else if (i < k && out[k].repo == out[i].repo) || (j < k && out[k].repo == out[j].repo) then Skipped
      else Status.Failed))
  }

  lemma TheirReports(out: seq<PR>, i: nat, j: nat)
    requires i < j < |out| && out[i].repo != out[j].repo
    ensures Reports(out, OnlyThese(|out|, i, j), TheirResults(out, i, j))
  {
    var tries, rs := OnlyThese(|out|, i, j), TheirResults(out, i, j);
    forall k | 0 <= k < |rs|
      ensures IsStatus(out, tries, rs, k)
    {
      if i < k && out[k].repo == out[i].repo {
        assert rs[i].pr.repo == out[k].repo && Claims(rs[i].status);
      }
      if j < k && out[k].repo == out[j].repo {
        assert rs[j].pr.repo == out[k].repo && Claims(rs[j].status);
      }
    }
  }

  lemma BothClaimDiffer(out: seq<PR>, tries: seq<Attempt>, rs: seq<Result>, i: nat, j: nat)
    requires Reports(out, tries, rs) && i < j < |rs| && BothClaim(rs, i, j)
    ensures out[i].repo != out[j].repo
  {
    if out[i].repo == out[j].repo {
      OneClaimPerRepo(out, tries, rs, i, j);
    }
  }

  /** However the tries turn out no clone is claimed twice, exactly when the pull requests name
      no clone in two ways. */
  lemma CloneClaimedOnceIff(prs: seq<PR>, out: seq<PR>, best: map<nat, PR>, order: seq<nat>, clone: nat -> nat)
    requires DistinctIds(prs) && IsSplit(prs, out, best, order)
    ensures (forall tries, rs :: Reports(out, tries, rs) ==> ClaimedOnce(out, rs, clone)) <==> NoAliases(prs, clone)
  {
    SplitKeepsEveryPR(prs, out, best, order);
    if NoAliases(prs, clone) {
      forall tries: seq<Attempt>, rs: seq<Result> | Reports(out, tries, rs)
        ensures ClaimedOnce(out, rs, clone)
      {
        forall i, j | 0 <= i < j < |rs| && BothClaim(rs, i, j)
          ensures clone(out[i].repo) != clone(out[j].repo)
        {
          BothClaimDiffer(out, tries, rs, i, j);
          assert out[i] in out && out[j] in out && !Aliases(out[i], out[j], clone);
        }
      }
    } else {
      var p, q :| p in prs && q in prs && Aliases(p, q, clone);
      var i, j := InPlaces(out, p, q);
      TheirReports(out, i, j);
      assert BothClaim(TheirResults(out, i, j), i, j);
    }
  }

  /** Two PRs of different repos stand in two places. */
  lemma InPlaces(out: seq<PR>, p: PR, q: PR) returns (i: nat, j: nat)
    requires p in out && q in out && p.repo != q.repo
    ensures i < j < |out| && ((out[i] == p && out[j] == q) || (out[i] == q && out[j] == p))
  {
    var k :| 0 <= k < |out| && out[k] == p;
    var l :| 0 <= l < |out| && out[l] == q;
    i, j := if k < l then k else l, if k < l then l else k;
  }

  /** A clone is on the branch of the last result that claimed it. */
  lemma {:induction false} LastClaimHolds(out: seq<PR>, rs: seq<Result>, clone: nat -> nat, was: nat, i: nat, n: nat) returns (j: nat)
    requires i < n <= |rs| == |out| && Claims(rs[i].status)
    ensures i <= j < n && Claims(rs[j].status) && clone(out[j].repo) == clone(out[i].repo)
    ensures BranchOf(out, rs, clone, clone(out[i].repo), was, n) == out[j].branch
    decreases n
  {
    if Claims(rs[n - 1].status) && clone(out[n - 1].repo) == clone(out[i].repo) {
      j := n - 1;
    } else {
      j := LastClaimHolds(out, rs, clone, was, i, n - 1);
    }
  }

  /** Without conflicts the last claim on a clone wants the branch of every other. */
  lemma WithoutConflicts(out: seq<PR>, tries: seq<Attempt>, rs: seq<Result>, clone: nat -> nat, was: nat, i: nat)
    requires Reports(out, tries, rs) && i < |rs| && Claims(rs[i].status)
    requires forall p, q :: p in out && q in out ==> !Conflict(p, q, clone)
    requires forall p :: p in out ==> Named(p)
    ensures BranchOf(out, rs, clone, clone(out[i].repo), was, |rs|) == out[i].branch
  {
    var j := LastClaimHolds(out, rs, clone, was, i, |rs|);
    if i < j {
      BothClaimDiffer(out, tries, rs, i, j);
      assert out[i] in out && out[j] in out && !Conflict(out[i], out[j], clone);
    }
  }

  /** With one, the second of the two takes the clone. */
  lemma ConflictSpoils(out: seq<PR>, clone: nat -> nat, was: nat, i: nat, j: nat)
    requires i < j < |out| && Conflict(out[i], out[j], clone)
    ensures Reports(out, OnlyThese(|out|, i, j), TheirResults(out, i, j))
    ensures !ReportsHold(out, TheirResults(out, i, j), clone, was)
  {
    var rs := TheirResults(out, i, j);
    TheirReports(out, i, j);
    var l := LastClaimHolds(out, rs, clone, was, j, |rs|);
    assert l == j;
    assert Claims(rs[i].status) && BranchOf(out, rs, clone, clone(out[i].repo), was, |rs|) == out[j].branch;
  }

  /** However the tries turn out every branch reported is checked out in the end, exactly when
      no two pull requests name one clone in two ways and want different branches in it. */
  lemma ReportsHoldIff(prs: seq<PR>, out: seq<PR>, best: map<nat, PR>, order: seq<nat>, clone: nat -> nat, was: nat)
    requires DistinctIds(prs) && IsSplit(prs, out, best, order)
    ensures (forall tries, rs :: Reports(out, tries, rs) ==> ReportsHold(out, rs, clone, was)) <==> NoConflicts(prs, clone)
  {
    SplitKeepsEveryPR(prs, out, best, order);
    if NoConflicts(prs, clone) {
      forall tries: seq<Attempt>, rs: seq<Result> | Reports(out, tries, rs)
        ensures ReportsHold(out, rs, clone, was)
      {
        forall i | 0 <= i < |rs| && Claims(rs[i].status)
          ensures BranchOf(out, rs, clone, clone(out[i].repo), was, |rs|) == out[i].branch
        {
          WithoutConflicts(out, tries, rs, clone, was, i);
        }
      }
    } else {
      var p, q :| p in prs && q in prs && Conflict(p, q, clone);
      var i, j := InPlaces(out, p, q);
      ConflictSpoils(out, clone, was, i, j);
    }
  }

  /** Two spellings of one repo: name 2 is name 1 in other letters. */
  function Spelling(r: nat): nat { if r == 2 then 1 else r }

  /** A task with a branch under each spelling: both are reported as checked out, in one clone,
      which ends up on the second branch. */
  lemma TwoNamesClaimOneClone()
    ensures exists out: seq<PR>, tries: seq<Attempt>, rs: seq<Result> ::
      && |out| == 2 && Reports(out, tries, rs) && out[0].repo != out[1].repo
      && Spelling(out[0].repo) == Spelling(out[1].repo)
      && rs[0].status == CheckedOut == rs[1].status
      && BranchOf(out, rs, Spelling, Spelling(out[0].repo), 0, 2) == out[1].branch != out[0].branch
  {
    var out := [PR(1, 1, 1), PR(2, 2, 2)];
    var rs := TheirResults(out, 0, 1);
    TheirReports(out, 0, 1);
    assert rs[0].status == CheckedOut && rs[1].status == CheckedOut;
    assert BranchOf(out, rs, Spelling, Spelling(out[0].repo), 0, 2) == 2;
  }
}
