/** Tearing down an agent's working directory (internal/git/git.go), over any directory tree.
    Git is an oracle: what it says about each worktree is asked once. */
module Workdir {
  import opened Domain

  const SCAN_DEPTH := 3

  /** A path below the working directory; the directory itself is []. */
  type Path = seq<string>

  /** `listing` maps each directory to the names in it; `files` is everything else. */
  datatype Tree = Tree(listing: map<Path, seq<string>>, files: set<Path>)

  predicate Listed(t: Tree, p: Path) {
    p != [] && p[..|p| - 1] in t.listing && p[|p| - 1] in t.listing[p[..|p| - 1]]
  }

  predicate Valid(t: Tree) {
    && [] in t.listing
    && (forall d :: d in t.listing && d != [] ==> Listed(t, d))
    && (forall f :: f in t.files ==> Listed(t, f) && f !in t.listing)
  }

  /** What git says about a worktree: does it have an owner, has it uncommitted changes, has
      it commits that origin lacks, is it on a branch, does the checkpoint commit, does its
      push succeed, and are there changes even after that. */
  datatype Git = Git(
    owned: bool, dirty: bool, ahead: bool, onBranch: bool, commits: bool, pushes: bool, stillDirty: bool)

  /** Everything in the worktree stands on a branch, possibly after a checkpoint. */
  predicate Clean(g: Git) {
    g.owned && (!g.dirty || (g.onBranch && g.commits && !g.stillDirty))
  }

  datatype Outcome =
    | NoWorkdir
    | Refused(path: Path)   // a worktree that cannot be made clean
    | Unbacked              // files no branch stands behind
    | Removed

  // ---------------------------------------------------------------- finding worktrees

  predicate Visible(name: string) {
    (name == "" || name[0] != '.') && name != "node_modules"
  }

  /** A `.git` that is not a directory: a full clone has a directory there. */
  predicate IsWorktree(t: Tree, p: Path) {
    p + [".git"] in t.files
  }

  /** What the scan is after: a worktree at most `depth` below `dir`, reached by visible names
      only, and not inside another worktree. */
  predicate Found(t: Tree, dir: Path, depth: nat, p: Path) {
    && |dir| < |p| <= |dir| + depth && dir <= p && p in t.listing && IsWorktree(t, p)
    && (forall k :: |dir| <= k < |p| ==> p[k] != "node_modules" && (p[k] == "" || p[k][0] != '.'))
    && (forall k :: |dir| < k < |p| ==> !IsWorktree(t, p[..k]))
  }

  lemma {:induction false} PrefixIsDirectory(t: Tree, p: Path, k: nat)
    requires Valid(t) && p in t.listing && k <= |p|
    ensures p[..k] in t.listing
    ensures k < |p| ==> p[k] in t.listing[p[..k]]
    decreases |p| - k
  {
    if k == |p| {
      assert p[..k] == p;
    } else {
      PrefixIsDirectory(t, p, k + 1);
      var q := p[..k + 1];
      assert Listed(t, q);
      assert q[..k] == p[..k];
    }
  }

  /** The scan of `dir` finds what the scan of a child finds, or the child itself. */
  predicate FoundVia(t: Tree, child: Path, name: string, depth: nat, p: Path) {
    && child in t.listing && Visible(name)
    && if IsWorktree(t, child) then p == child else Found(t, child, depth, p)
  }

  lemma FoundGoesDown(t: Tree, dir: Path, depth: nat, name: string, p: Path)
    requires Valid(t) && depth > 0 && Found(t, dir, depth, p) && p[|dir|] == name
    ensures FoundVia(t, dir + [name], name, depth - 1, p)
  {
    var child, n := dir + [name], |dir|;
    assert p[..n + 1] == child;
    PrefixIsDirectory(t, p, n + 1);
    if |p| == n + 1 {
      assert p == child;
    } else {
      assert !IsWorktree(t, p[..n + 1]);
    }
  }

  lemma FoundGoesUp(t: Tree, dir: Path, depth: nat, name: string, p: Path)
    requires depth > 0 && FoundVia(t, dir + [name], name, depth - 1, p)
    ensures Found(t, dir, depth, p) && p[|dir|] == name
  {
    var child, n := dir + [name], |dir|;
    assert child <= p && p[n] == child[n];
    assert dir <= p;
    forall k | n < k < |p|
      ensures !IsWorktree(t, p[..k])
    {
      if k == n + 1 {
        assert p[..k] == child;
      }
    }
  }

  /** The worktrees in the order in which the directories are listed. */
  function Scan(t: Tree, dir: Path, depth: nat): seq<Path>
    requires dir in t.listing
    decreases depth, 2, 0
  {
    if depth == 0 then [] else ScanNames(t, dir, depth, t.listing[dir])
  }

  function ScanNames(t: Tree, dir: Path, depth: nat, names: seq<string>): seq<Path>
    requires depth > 0
    decreases depth, 1, |names|
  {
    if names == [] then []
    else
      var name := names[|names| - 1];
      ScanNames(t, dir, depth, names[..|names| - 1]) + ScanChild(t, dir + [name], name, depth - 1)
  }

  function ScanChild(t: Tree, child: Path, name: string, depth: nat): seq<Path>
    decreases depth, 3, 0
  {
    if child !in t.listing || !Visible(name) then []
    else if IsWorktree(t, child) then [child]
    else Scan(t, child, depth)
  }

  lemma {:induction false} ScanFinds(t: Tree, dir: Path, depth: nat, p: Path)
    requires Valid(t) && dir in t.listing
    ensures p in Scan(t, dir, depth) <==> Found(t, dir, depth, p)
    decreases depth, 2, 0
  {
    if depth > 0 {
      NamesFind(t, dir, depth, t.listing[dir], p);
      if Found(t, dir, depth, p) {
        PrefixIsDirectory(t, p, |dir|);
        assert p[..|dir|] == dir;
      }
    }
  }

  lemma {:induction false} NamesFind(t: Tree, dir: Path, depth: nat, names: seq<string>, p: Path)
    requires Valid(t) && depth > 0
    ensures p in ScanNames(t, dir, depth, names) <==> Found(t, dir, depth, p) && p[|dir|] in names
    decreases depth, 1, |names|
  {
    if names != [] {
      var front, name := names[..|names| - 1], names[|names| - 1];
      assert names == front + [name];
      NamesFind(t, dir, depth, front, p);
      ChildFinds(t, dir + [name], name, depth - 1, p);
      if FoundVia(t, dir + [name], name, depth - 1, p) {
        FoundGoesUp(t, dir, depth, name, p);
      }
      if Found(t, dir, depth, p) && p[|dir|] == name {
        FoundGoesDown(t, dir, depth, name, p);
      }
    }
  }

  lemma {:induction false} ChildFinds(t: Tree, child: Path, name: string, depth: nat, p: Path)
    requires Valid(t)
    ensures p in ScanChild(t, child, name, depth) <==> FoundVia(t, child, name, depth, p)
    decreases depth, 3, 0
  {
    if child in t.listing {
      ScanFinds(t, child, depth, p);
    }
  }

  method FindAgentWorktrees(t: Tree, dir: Path, depth: nat) returns (found: seq<Path>)
    requires Valid(t) && dir in t.listing
    ensures found == Scan(t, dir, depth)
    ensures forall p :: p in found <==> Found(t, dir, depth, p)
    decreases depth
  {
    forall p {
      ScanFinds(t, dir, depth, p);
    }
    found := [];
    if depth == 0 {
      return;
    }
    var names := t.listing[dir];
    for i := 0 to |names|
      invariant found == ScanNames(t, dir, depth, names[..i])
    {
      var child := dir + [names[i]];
      assert names[..i + 1] == names[..i] + [names[i]];
      if child in t.listing && Visible(names[i]) {
        if IsWorktree(t, child) {
          found := found + [child];
        } else {
          var below := FindAgentWorktrees(t, child, depth - 1);
          found := found + below;
        }
      }
    }
    assert names[..|names|] == names;
  }

  /** No worktree the scan returns lies inside another. */
  lemma FoundAreDisjoint(t: Tree, p: Path, q: Path)
    requires Found(t, [], SCAN_DEPTH, p) && Found(t, [], SCAN_DEPTH, q) && p <= q
    ensures p == q
  {
    assert q[..|p|] == p;
    assert IsWorktree(t, p);
  }

  // ---------------------------------------------------------------- the teardown

  predicate InWorktree(t: Tree, f: Path) {
    exists k :: 0 <= k <= |f| && Found(t, [], SCAN_DEPTH, f[..k])
  }

  /** A file that counts: Finder's own do not. */
  predicate Counts(f: Path) {
    f != [] && f[|f| - 1] != ".DS_Store"
  }

  predicate HasFiles(files: set<Path>) {
    exists f :: f in files && Counts(f)
  }

  /** The files that no found worktree holds. */
  function Loose(t: Tree): set<Path> {
    set f | f in t.files && !InWorktree(t, f)
  }

  /** What a teardown leaves behind. If any worktree cannot be made clean, everything. If all
      can, the loose files; and if there are none that count, nothing. */
  predicate Teardown(t: Tree, git: map<Path, Git>, outcome: Outcome, files: set<Path>)
    requires forall p :: p in t.listing && Found(t, [], SCAN_DEPTH, p) ==> p in git
  {
    if forall p :: p in t.listing && Found(t, [], SCAN_DEPTH, p) ==> Clean(git[p])
    then outcome == (if HasFiles(Loose(t)) then Unbacked else Removed) && files == if HasFiles(Loose(t)) then Loose(t) else {}
    else outcome.Refused? && files == t.files
  }

  /** Worktree `p` is the first, in scan order, that cannot be made clean. */
  predicate FirstUnclean(t: Tree, git: map<Path, Git>, p: Path)
    requires [] in t.listing
  {
    var found := Scan(t, [], SCAN_DEPTH);
    exists i :: 0 <= i < |found| && found[i] == p && p in git && !Clean(git[p])
                && forall j :: 0 <= j < i ==> found[j] in git && Clean(git[found[j]])
  }

  /** The first loop: every worktree is checkpointed if it needs it, up to the first that
      cannot be made clean. */
  method CheckpointAll(found: seq<Path>, git: map<Path, Git>)
    returns (clean: nat, checkpointed: seq<Path>, pushed: seq<Path>)
    requires forall p :: p in found ==> p in git
    ensures clean <= |found| && (forall j :: 0 <= j < clean ==> Clean(git[found[j]]))
    ensures clean < |found| ==> !Clean(git[found[clean]])
    ensures forall p :: p in checkpointed <==>
      p in found[..if clean < |found| then clean + 1 else clean] && git[p].owned && git[p].dirty && git[p].onBranch
    ensures forall p :: p in pushed ==> p in checkpointed && git[p].commits && git[p].pushes
    ensures clean == |found| ==> forall p :: p in pushed <==> p in found && git[p].dirty && git[p].pushes
  {
    checkpointed, pushed := [], [];
    for i := 0 to |found|
      invariant forall j :: 0 <= j < i ==> Clean(git[found[j]])
      invariant forall p :: p in checkpointed <==> p in found[..i] && git[p].owned && git[p].dirty && git[p].onBranch
      invariant forall p :: p in pushed <==> p in found[..i] && git[p].dirty && git[p].pushes
      invariant forall p :: p in pushed ==> p in checkpointed && git[p].commits
    {
      var path := found[i];
      assert path in found;
      assert found[..i + 1] == found[..i] + [path];
      var g := git[path];
      if !g.owned {
        return i, checkpointed, pushed;
      }
      if g.dirty {
        if !g.onBranch {
          return i, checkpointed, pushed;
        }
        checkpointed := checkpointed + [path];
        if !g.commits {
          return i, checkpointed, pushed;
        }
        if g.pushes {
          pushed := pushed + [path];
        }
        if g.stillDirty {
          return i, checkpointed, pushed;
        }
      }
    }
    assert found[..|found|] == found;
    clean := |found|;
  }

  method RemoveAgentWorkdir(disk: Option<Tree>, git: map<Path, Git>)
    returns (outcome: Outcome, files: set<Path>, pushed: seq<Path>)
    requires disk.Some? ==> Valid(disk.value)
    requires disk.Some? ==> forall p :: p in disk.value.listing && Found(disk.value, [], SCAN_DEPTH, p) ==> p in git
    ensures disk.None? ==> outcome == NoWorkdir && files == {}
    ensures disk.Some? ==> Teardown(disk.value, git, outcome, files)
    ensures disk.Some? && outcome.Refused? ==> FirstUnclean(disk.value, git, outcome.path)
    ensures disk.Some? && !outcome.Refused? ==> Pushes(disk.value, git, pushed)
  {
    if disk.None? {
      return NoWorkdir, {}, [];
    }
    var t := disk.value;
    files := t.files;
    var found := FindAgentWorktrees(t, [], SCAN_DEPTH);
    var clean, checkpointed;
    clean, checkpointed, pushed := CheckpointAll(found, git);
    if clean < |found| {
      assert found[clean] in found && Found(t, [], SCAN_DEPTH, found[clean]);
      return Refused(found[clean]), files, pushed;
    }
    files := Detach(t, found);
    if HasFiles(files) {
      outcome := Unbacked;
    } else {
      outcome, files := Removed, {};
    }
  }

  /** The worktrees that were pushed, once none was refused. */
  ghost predicate Pushes(t: Tree, git: map<Path, Git>, pushed: seq<Path>)
    requires forall p :: p in t.listing && Found(t, [], SCAN_DEPTH, p) ==> p in git
  {
    forall p :: p in pushed <==> p in t.listing && Found(t, [], SCAN_DEPTH, p) && git[p].dirty && git[p].pushes
  }

  /** Removing worktree after worktree leaves the loose files. */
  method Detach(t: Tree, worktrees: seq<Path>) returns (files: set<Path>)
    requires forall p :: p in worktrees <==> Found(t, [], SCAN_DEPTH, p)
    ensures files == Loose(t)
  {
    files := t.files;
    for i := 0 to |worktrees|
      invariant forall f :: f in files <==> f in t.files && forall j :: 0 <= j < i ==> !(worktrees[j] <= f)
    {
      files := set f | f in files && !(worktrees[i] <= f);
    }
    forall f | f in t.files
      ensures (exists j :: 0 <= j < |worktrees| && worktrees[j] <= f) <==> InWorktree(t, f)
    {
      if j :| 0 <= j < |worktrees| && worktrees[j] <= f {
        assert f[..|worktrees[j]|] == worktrees[j];
        assert worktrees[j] in worktrees;
      }
      if InWorktree(t, f) {
        var k :| 0 <= k <= |f| && Found(t, [], SCAN_DEPTH, f[..k]);
        var j :| 0 <= j < |worktrees| && worktrees[j] == f[..k];
        assert worktrees[j] <= f;
      }
    }
  }

  // ---------------------------------------------------------------- what the teardown promises

  /** All or nothing, and nothing of value: a file that disappears was Finder's, or lay in a
      worktree that was clean at the check while every other one was clean too. */
  lemma OnlyBackedFilesDisappear(t: Tree, git: map<Path, Git>, outcome: Outcome, files: set<Path>, f: Path)
    requires Valid(t) && forall p :: p in t.listing && Found(t, [], SCAN_DEPTH, p) ==> p in git
    requires Teardown(t, git, outcome, files) && f in t.files && f !in files
    ensures forall p :: p in t.listing && Found(t, [], SCAN_DEPTH, p) ==> Clean(git[p])
    ensures Counts(f) ==> exists k :: 0 <= k <= |f| && f[..k] in t.listing && Found(t, [], SCAN_DEPTH, f[..k]) && Clean(git[f[..k]])
  {
    assert f != [] by {
      assert Listed(t, f);
    }
    if Counts(f) && !InWorktree(t, f) {
      assert f in Loose(t) && HasFiles(Loose(t));
    }
    if InWorktree(t, f) {
      var k :| 0 <= k <= |f| && Found(t, [], SCAN_DEPTH, f[..k]);
      assert f[..k] in t.listing;
    }
  }

  /** The teardown is refused exactly when some found worktree has no owner, or has uncommitted
      changes that the checkpoint does not save: there is no branch to commit to, the commit
      fails, or changes remain after it. Then every file stays. So a file that disappears has
      every found worktree owned and saved, and unless it was Finder's it lay in one of them. */
  lemma RefusedIff(t: Tree, git: map<Path, Git>, outcome: Outcome, files: set<Path>)
    requires Valid(t) && forall p :: p in t.listing && Found(t, [], SCAN_DEPTH, p) ==> p in git
    requires Teardown(t, git, outcome, files)
    ensures outcome.Refused? <==>
      exists p :: p in t.listing && Found(t, [], SCAN_DEPTH, p)
        && (!git[p].owned || (git[p].dirty && (!git[p].onBranch || !git[p].commits || git[p].stillDirty)))
    ensures outcome.Refused? ==> files == t.files
    ensures !outcome.Refused? ==> forall f :: f in t.files && f !in files ==>
      (f[|f| - 1] == ".DS_Store" || exists k :: 0 < k < |f| && f[..k] in t.listing && Found(t, [], SCAN_DEPTH, f[..k]))
  {
    if !outcome.Refused? {
      forall f | f in t.files && f !in files
        ensures f[|f| - 1] == ".DS_Store" || exists k :: 0 < k < |f| && f[..k] in t.listing && Found(t, [], SCAN_DEPTH, f[..k])
      {
        OnlyBackedFilesDisappear(t, git, outcome, files, f);
        assert Listed(t, f) && f[..|f|] == f;
      }
    }
  }

  lemma NotReached(t: Tree, p: Path, k: nat)
    requires k <= |p|
    requires 0 < k <= SCAN_DEPTH && IsWorktree(t, p[..k]) ==> exists j :: 0 <= j < k && !Visible(p[j])
    ensures !Found(t, [], SCAN_DEPTH, p[..k])
  {
    if 0 < k <= SCAN_DEPTH && IsWorktree(t, p[..k]) {
      var j :| 0 <= j < k && !Visible(p[j]);
      assert !Visible(p[..k][j]);
    }
  }

  /** The directory goes only when every file that counts lay in a found worktree. So a
      worktree the scan cannot reach keeps it: below the scan depth, behind a hidden name or
      under node_modules. */
  lemma UnreachedWorktreeKeepsDirectory(t: Tree, git: map<Path, Git>, outcome: Outcome, files: set<Path>, p: Path)
    requires Valid(t) && forall q :: q in t.listing && Found(t, [], SCAN_DEPTH, q) ==> q in git
    requires Teardown(t, git, outcome, files) && IsWorktree(t, p)
    requires |p| > SCAN_DEPTH || exists k :: 0 <= k < |p| && !Visible(p[k])
    requires forall k :: 0 < k <= |p| && k <= SCAN_DEPTH && IsWorktree(t, p[..k]) ==> exists j :: 0 <= j < k && !Visible(p[j])
    ensures !outcome.Removed? && p + [".git"] in files
  {
    var f := p + [".git"];
    assert Counts(f);
    forall k | 0 <= k <= |f|
      ensures !Found(t, [], SCAN_DEPTH, f[..k])
    {
      if k <= |p| {
        assert f[..k] == p[..k];
        NotReached(t, p, k);
      } else {
        assert f[..k] == f && f !in t.listing;
      }
    }
    assert !InWorktree(t, f);
    assert f in Loose(t) && HasFiles(Loose(t));
  }

  /** Loose files keep the directory too, and stay themselves. */
  lemma LooseFilesStay(t: Tree, git: map<Path, Git>, outcome: Outcome, files: set<Path>, f: Path)
    requires Valid(t) && forall p :: p in t.listing && Found(t, [], SCAN_DEPTH, p) ==> p in git
    requires Teardown(t, git, outcome, files) && f in t.files && Counts(f) && !InWorktree(t, f)
    ensures !outcome.Removed? && f in files
  {
    assert f in Loose(t);
  }

  // ---------------------------------------------------------------- what it does not promise

  /** Keeping the directory for unbacked files is no promise that nothing was removed: the
      files are all still there exactly when the scan found no worktree. */
  lemma UnbackedKeepsAllIff(t: Tree, git: map<Path, Git>, files: set<Path>)
    requires Valid(t) && forall p :: p in t.listing && Found(t, [], SCAN_DEPTH, p) ==> p in git
    requires Teardown(t, git, Unbacked, files)
    ensures files == t.files <==> forall p :: p in t.listing ==> !Found(t, [], SCAN_DEPTH, p)
  {
    forall p | p in t.listing && Found(t, [], SCAN_DEPTH, p)
      ensures files != t.files
    {
      var f := p + [".git"];
      assert f[..|p|] == p && InWorktree(t, f);
      assert f in t.files && f !in Loose(t);
    }
    if f :| f in t.files && f !in files {
      var k :| 0 <= k <= |f| && Found(t, [], SCAN_DEPTH, f[..k]);
      assert f[..k] in t.listing;
    }
  }

  /** A working directory holding one worktree and, if `notes`, one loose file beside it. */
  function OneWorktree(notes: bool): Tree {
    var w: Path := ["w"];
    var top: Path := [];
    Tree(map[top := if notes then ["w", "notes"] else ["w"], w := [".git"]],
         {["w", ".git"]} + if notes then {["notes"]} else {})
  }

  lemma OneWorktreeIsValid(notes: bool)
    ensures Valid(OneWorktree(notes)) && IsWorktree(OneWorktree(notes), ["w"])
  {
    var t := OneWorktree(notes);
    var w, dotgit, loose: Path := ["w"], ["w", ".git"], ["notes"];
    assert w + [".git"] == dotgit && dotgit[..1] == w && w[..0] == [];
    assert Listed(t, dotgit) && Listed(t, w);
    assert loose[..0] == [];
    assert notes ==> Listed(t, loose);
  }

  lemma OneWorktreeIsFound(notes: bool)
    ensures forall p :: p in OneWorktree(notes).listing && Found(OneWorktree(notes), [], SCAN_DEPTH, p) <==> p == ["w"]
  {
    OneWorktreeIsValid(notes);
    var w: Path := ["w"];
    assert Found(OneWorktree(notes), [], SCAN_DEPTH, w);
  }

  lemma OneWorktreeLeaves(notes: bool)
    ensures Loose(OneWorktree(notes)) == if notes then {["notes"]} else {}
  {
    var t := OneWorktree(notes);
    var w, dotgit, loose: Path := ["w"], ["w", ".git"], ["notes"];
    OneWorktreeIsFound(notes);
    assert dotgit[..1] == w && InWorktree(t, dotgit);
    assert loose[..0] == [] && loose[..1] == loose;
    assert !InWorktree(t, loose);
  }

  /** A clean worktree beside one loose file is removed, and then the directory is kept. */
  lemma UnbackedButRemoved()
    ensures exists git: map<Path, Git>, files: set<Path> ::
      && (forall p :: p in OneWorktree(true).listing && Found(OneWorktree(true), [], SCAN_DEPTH, p) ==> p in git)
      && Teardown(OneWorktree(true), git, Unbacked, files) && files == {["notes"]}
  {
    var w, loose: Path := ["w"], ["notes"];
    var git := map[w := Git(true, false, false, true, false, false, false)];
    OneWorktreeIsFound(true);
    OneWorktreeLeaves(true);
    assert Counts(loose) && HasFiles(Loose(OneWorktree(true)));
    assert Teardown(OneWorktree(true), git, Unbacked, {loose});
  }

  /** A worktree whose checkpoint could not be pushed counts as clean: the directory goes. */
  lemma UnpushedButRemoved()
    ensures exists git: map<Path, Git> ::
      && (forall p :: p in OneWorktree(false).listing && Found(OneWorktree(false), [], SCAN_DEPTH, p) ==>
            p in git && git[p].dirty && !git[p].pushes)
      && Teardown(OneWorktree(false), git, Removed, {})
  {
    var w: Path := ["w"];
    var git := map[w := Git(true, true, true, true, true, false, false)];
    OneWorktreeIsFound(false);
    OneWorktreeLeaves(false);
    assert !HasFiles(Loose(OneWorktree(false)));
    assert Teardown(OneWorktree(false), git, Removed, {});
  }

  /** Everything worktree `p` held is at origin: its checkpoint was pushed, or it had neither
      uncommitted changes nor commits that origin lacks. */
  predicate AtOrigin(g: Git, p: Path, pushed: seq<Path>) {
    p in pushed || (!g.dirty && !g.ahead)
  }

  /** When worktrees are removed, all they held is at origin exactly when every checkpoint's
      push succeeded and no worktree without changes was ahead: a clean one is never pushed. */
  lemma RemovedWorkIsAtOriginIff(t: Tree, git: map<Path, Git>, outcome: Outcome, files: set<Path>, pushed: seq<Path>)
    requires Valid(t) && forall p :: p in t.listing && Found(t, [], SCAN_DEPTH, p) ==> p in git
    requires Teardown(t, git, outcome, files) && !outcome.Refused? && Pushes(t, git, pushed)
    ensures (forall p :: p in t.listing && Found(t, [], SCAN_DEPTH, p) ==> AtOrigin(git[p], p, pushed))
      <==> forall p :: p in t.listing && Found(t, [], SCAN_DEPTH, p) ==>
             if git[p].dirty then git[p].pushes else !git[p].ahead
  {
    if forall p :: p in t.listing && Found(t, [], SCAN_DEPTH, p) ==> AtOrigin(git[p], p, pushed) {
      forall p | p in t.listing && Found(t, [], SCAN_DEPTH, p)
        ensures if git[p].dirty then git[p].pushes else !git[p].ahead
      {
        assert AtOrigin(git[p], p, pushed);
      }
    }
  }
}
