/** A state's whole documents seed, every organization's hierarchy in file order, stopped
    anywhere and run again. */
module DocumentSeedWrite {
  import opened Forest
  import opened Events
  import opened Documents
  import opened DocumentAnswers
  import opened DocumentStore
  import opened DocumentSeed
  import opened DocumentSeedRuns
  import opened DocumentSeedResume
  import opened DocumentSeedTree
  import opened DocumentSeeder

  /** The hierarchies in file order, with a limit on the transactions run. */
  ghost function WriteRun(trees: seq<Tree>, orgs: set<Id>, s: Snapshot, left: int): Progress
    decreases |trees|
  {
    if trees == [] then Progress(s, left, 0, None)
    else
      var p := Run1(trees[0], orgs, s, left);
      if p.halt.Some? then p else Plus(p.created, WriteRun(trees[1..], orgs, p.store, p.left))
  }

  ghost function Run1(t: Tree, orgs: set<Id>, s: Snapshot, left: int): Progress {
    SeedTree(t.org, t.org in orgs, t.rootId, t.entries, s, left)
  }

  predicate ForOrg(trees: seq<Tree>, org: Id) {
    exists i :: 0 <= i < |trees| && trees[i].org == org
  }

  /** Each hierarchy well formed, and no organization's listed twice. */
  predicate WellFormedTrees(trees: seq<Tree>)
    decreases |trees|
  {
    trees != [] ==>
      && WellFormed(trees[0].entries) && trees[0].rootId != TOP && !ForOrg(trees[1..], trees[0].org)
      && WellFormedTrees(trees[1..])
  }

  /** Nothing of the organization's hierarchy is left to do. */
  ghost predicate TreeSettled(h: Hierarchy, t: Tree) {
    t.org in h.roots && AllSettled(h, h.roots[t.org], t.entries)
  }

  // ---- A settled hierarchy, beside another's seed ----

  lemma {:induction false} AllSettledRoots(h: Hierarchy, roots: map<Id, Id>, parent: Id, entries: seq<Entry>)
    ensures AllSettled(h.(roots := roots), parent, entries) == AllSettled(h, parent, entries)
    decreases entries, 0
  {
    if entries != [] {
      SettledRoots(h, roots, parent, entries[0]);
      AllSettledRoots(h, roots, parent, entries[1..]);
    }
  }

  lemma {:induction false} SettledRoots(h: Hierarchy, roots: map<Id, Id>, parent: Id, e: Entry)
    ensures Settled(h.(roots := roots), parent, e) == Settled(h, parent, e)
    decreases e, 1
  {
    SameFinds(h, roots, parent, e.name);
    if KindOf(e).IsDirectory? && FindDir(h, parent, e.name).Some? {
      AllSettledRoots(h, roots, FindDir(h, parent, e.name).value, e.entries);
    }
    hide FindDir, FindFile;
  }

  lemma SameFinds(h: Hierarchy, roots: map<Id, Id>, parent: Id, name: string)
    ensures FindDir(h.(roots := roots), parent, name) == FindDir(h, parent, name)
    ensures FindFile(h.(roots := roots), parent, name) == FindFile(h, parent, name)
  {
    var g := h.(roots := roots);
    assert g.dirs == h.dirs && g.files == h.files;
  }

  lemma SettledBesideGrowth(h: Hierarchy, h': Hierarchy, root: Id, entries: seq<Entry>)
    requires Sound(h) && Unique(h') && Persists(h, h') && root in h.dirs && Quiet(h, h', root)
    requires AllSettled(h, root, entries)
    ensures AllSettled(h', root, entries)
  {
    hide Sound, Persists, Quiet, AllSettled, Unique;
    UniqueOf(h);
    AllSettledStay(h, h', root, entries);
  }

  /** A new root beside it. */
  lemma RootBeside(h: Hierarchy, org: Id, stands: bool, rootId: Id, root: Id, entries: seq<Entry>)
    requires Sound(h) && rootId != TOP && root in h.dirs && AllSettled(h, root, entries)
    requires RunEnsureRoot(h, org, stands, rootId).Committed?
    ensures AllSettled(RunEnsureRoot(h, org, stands, rootId).after, root, entries)
  {
    hide AllSettled, IsForest, UniqueDirs, UniqueFiles, Housed;
    var h' := RunEnsureRoot(h, org, stands, rootId).after;
    if org !in h.roots {
      NoRootUnbound(h, org);
      EnsureRootKeeps(h, org, stands, rootId);
      var g := h'.(roots := h.roots);
      ForestOf(h);
      TopIsOutside(h', root);
      assert Quiet(h, g, root) by {
        assert ParentsIn(g) == ParentsIn(h');
        hide Within;
      }
      SettledBesideGrowth(h, g, root, entries);
      AllSettledRoots(g, h'.roots, root, entries);
      assert g.(roots := h'.roots) == h';
    } else {
      assert h' == h;
    }
  }

  lemma TopIsOutside(h: Hierarchy, root: Id)
    requires Sound(h) && root in h.dirs
    ensures !Within(ParentsIn(h), TOP, root)
  {
    assert TOP !in ParentsIn(h);
    WithinOutside(ParentsIn(h), TOP, root);
  }

  /** What joins under one root leaves another quiet. */
  lemma RootsQuiet(h: Hierarchy, h': Hierarchy, other: Id, entries: seq<Entry>, root: Id)
    requires Sound(h') && GrowsAt(h, h', other, entries) && other != root && other in h'.dirs && root in h'.dirs
    requires h'.dirs[other].parent == TOP && h'.dirs[root].parent == TOP
    ensures Quiet(h, h', root)
  {
    hide Joined, Within, Bound, Unique, Housed, IsForest;
    forall d | d in h'.dirs && d !in h.dirs
      ensures !Within(ParentsIn(h'), h'.dirs[d].parent, root)
    {
      JoinedIsBelow(h', other, entries, h'.dirs[d].parent, h'.dirs[d].name.text);
      SiblingsApart(h', other, root, h'.dirs[d].parent);
    }
    forall f | f in h'.files && f !in h.files
      ensures !Within(ParentsIn(h'), h'.files[f].directory, root)
    {
      JoinedIsBelow(h', other, entries, h'.files[f].directory, h'.files[f].name);
      SiblingsApart(h', other, root, h'.files[f].directory);
    }
  }

  lemma RootRows(h: Hierarchy, a: Id, b: Id)
    requires Sound(h) && a in h.roots && b in h.roots
    ensures h.roots[a] in h.dirs && h.dirs[h.roots[a]].parent == TOP
    ensures h.roots[b] in h.dirs && h.dirs[h.roots[b]].parent == TOP
    ensures a != b ==> h.roots[a] != h.roots[b]
  {
    hide IsForest, Unique, Housed;
    assert h.dirs[h.roots[a]].name == OfOrganization(a) && h.dirs[h.roots[b]].name == OfOrganization(b);
  }

  lemma RootAdds(h: Hierarchy, org: Id, stands: bool, rootId: Id)
    requires Sound(h) && rootId != TOP && RunEnsureRoot(h, org, stands, rootId).Committed?
    ensures var h' := RunEnsureRoot(h, org, stands, rootId).after;
            Sound(h') && org in h'.roots && forall o :: o in h.roots ==> o in h'.roots && h'.roots[o] == h.roots[o]
  {
    EnsureRootKeeps(h, org, stands, rootId);
  }

  /** One hierarchy's run, stopped or not, leaves another organization's settled. */
  lemma TreeStaysSettled(t: Tree, other: Tree, orgs: set<Id>, s: Snapshot, left: int)
    requires Sound(s.rows) && other.rootId != TOP && t.org != other.org && TreeSettled(s.rows, t)
    ensures Sound(Run1(other, orgs, s, left).store.rows) && TreeSettled(Run1(other, orgs, s, left).store.rows, t)
  {
    hide Sound, AllSettled, RunEnsureRoot, SeedEntries, GrowsAt, Persists, Quiet;
    var h := s.rows;
    var stands := other.org in orgs;
    if left != 0 && RunEnsureRoot(h, other.org, stands, other.rootId).Committed? {
      var h1 := RunEnsureRoot(h, other.org, stands, other.rootId).after;
      RootAdds(h, other.org, stands, other.rootId);
      RootRows(h, t.org, t.org);
      RootBeside(h, other.org, stands, other.rootId, h.roots[t.org], t.entries);
      var rooted := Step(s, EnsureRoot(other.org, stands, other.rootId));
      assert rooted.rows == h1;
      RootRows(h1, t.org, other.org);
      var p := SeedEntries(other.org, h1.roots[other.org], h1.roots[other.org], other.entries, rooted, left - 1);
      SeedEntriesKeep(other.org, h1.roots[other.org], h1.roots[other.org], other.entries, rooted, left - 1);
      var h2 := p.store.rows;
      RootsPersist(h1, h2);
      RootRows(h2, t.org, other.org);
      RootsQuiet(h1, h2, h1.roots[other.org], other.entries, h1.roots[t.org]);
      UniqueOf(h2);
      SettledBesideGrowth(h1, h2, h1.roots[t.org], t.entries);
    }
  }

  lemma {:induction false} RestStaysSettled(t: Tree, trees: seq<Tree>, orgs: set<Id>, s: Snapshot, left: int)
    requires Sound(s.rows) && WellFormedTrees(trees) && !ForOrg(trees, t.org) && TreeSettled(s.rows, t)
    ensures Sound(WriteRun(trees, orgs, s, left).store.rows)
    ensures TreeSettled(WriteRun(trees, orgs, s, left).store.rows, t)
    decreases |trees|
  {
    hide Sound, TreeSettled, Run1, WellFormed;
    if trees != [] {
      assert trees[0].org != t.org;
      TreeStaysSettled(t, trees[0], orgs, s, left);
      var p := Run1(trees[0], orgs, s, left);
      if p.halt.None? {
        if ForOrg(trees[1..], t.org) {
          ForOrgRest(trees, t.org);
        }
        RestStaysSettled(t, trees[1..], orgs, p.store, p.left);
      }
    }
  }

  lemma ForOrgRest(trees: seq<Tree>, org: Id)
    requires trees != [] && ForOrg(trees[1..], org)
    ensures ForOrg(trees, org)
  {
    var i :| 0 <= i < |trees[1..]| && trees[1..][i].org == org;
    assert trees[i + 1].org == org;
  }

  // ---- A finished hierarchy is settled, and a settled one done ----

  lemma FinishedTreeSettles(t: Tree, orgs: set<Id>, s: Snapshot, left: int)
    requires Sound(s.rows) && t.rootId != TOP && WellFormed(t.entries) && Run1(t, orgs, s, left).halt.None?
    ensures Sound(Run1(t, orgs, s, left).store.rows) && TreeSettled(Run1(t, orgs, s, left).store.rows, t)
  {
    hide Sound, AllSettled, RunEnsureRoot, SeedEntries, GrowsAt, Persists, WellFormed;
    var stands := t.org in orgs;
    var rooted := Step(s, EnsureRoot(t.org, stands, t.rootId));
    RootAdds(s.rows, t.org, stands, t.rootId);
    RootRows(rooted.rows, t.org, t.org);
    var root := rooted.rows.roots[t.org];
    SeedEntriesKeep(t.org, root, root, t.entries, rooted, left - 1);
    RootsPersist(rooted.rows, SeedEntries(t.org, root, root, t.entries, rooted, left - 1).store.rows);
    FinishedSettles(t.org, root, root, t.entries, rooted, left - 1);
  }

  lemma SettledTreeIsDone(t: Tree, orgs: set<Id>, s: Snapshot, left: int)
    requires TreeSettled(s.rows, t) && WellFormed(t.entries) && left < 0
    ensures var p := Run1(t, orgs, s, left); p.store == s && p.created == 0 && p.halt.None? && p.left < 0
  {
    hide AllSettled, RunEnsureRoot, SeedEntries, WellFormed;
    RootStaysFound(t.org, t.org in orgs, t.rootId, s);
    SettledIsDone(t.org, s.rows.roots[t.org], s.rows.roots[t.org], t.entries, s, left - 1);
  }

  // ---- With no limit, or less of one ----

  /** What two progresses share: where they came to, what they created, and how they ended. */
  predicate Alike(p: Progress, q: Progress) {
    p.store == q.store && p.created == q.created && p.halt == q.halt
  }

  lemma TreeAlike(t: Tree, orgs: set<Id>, s: Snapshot, left: int, other: int)
    requires Sound(s.rows) && t.rootId != TOP && WellFormed(t.entries) && other < 0
    requires left < 0 || Run1(t, orgs, s, left).halt.None?
    ensures Alike(Run1(t, orgs, s, left), Run1(t, orgs, s, other)) && Run1(t, orgs, s, other).left < 0
  {
    hide Sound, RunEnsureRoot, SeedEntries, WellFormed;
    var stands := t.org in orgs;
    if RunEnsureRoot(s.rows, t.org, stands, t.rootId).Committed? {
      var rooted := Step(s, EnsureRoot(t.org, stands, t.rootId));
      RootAdds(s.rows, t.org, stands, t.rootId);
      var root := rooted.rows.roots[t.org];
      UnlimitedFinishes(t.org, root, root, t.entries, rooted, other - 1);
      if left < 0 {
        UnlimitedFinishes(t.org, root, root, t.entries, rooted, left - 1);
      }
      FinishedAgree(t.org, root, root, t.entries, rooted, left - 1, other - 1);
    }
  }

  lemma {:induction false} WriteAlike(trees: seq<Tree>, orgs: set<Id>, s: Snapshot, left: int, other: int)
    requires Sound(s.rows) && WellFormedTrees(trees) && left < 0 && other < 0
    ensures Alike(WriteRun(trees, orgs, s, left), WriteRun(trees, orgs, s, other))
    decreases |trees|
  {
    hide Sound, Run1, WellFormed, ForOrg;
    if trees != [] {
      TreeAlike(trees[0], orgs, s, left, other);
      TreeAlike(trees[0], orgs, s, other, left);
      var p, q := Run1(trees[0], orgs, s, left), Run1(trees[0], orgs, s, other);
      if p.halt.None? {
        Run1Sound(trees[0], orgs, s, left);
        WriteAlike(trees[1..], orgs, p.store, p.left, q.left);
      }
    }
  }

  lemma Run1Sound(t: Tree, orgs: set<Id>, s: Snapshot, left: int)
    requires Sound(s.rows) && t.rootId != TOP
    ensures Sound(Run1(t, orgs, s, left).store.rows)
  {
    hide Sound, SeedTree;
    TreeKeepsSound(t.org, t.org in orgs, t.rootId, t.entries, s, left);
  }

  /** A run of a list is one of its first hierarchy and then one of the rest. */
  lemma WriteFirst(trees: seq<Tree>, orgs: set<Id>, s: Snapshot)
    requires Sound(s.rows) && WellFormedTrees(trees) && trees != []
    ensures var first := Run1(trees[0], orgs, s, UNLIMITED);
            var all := WriteRun(trees, orgs, s, UNLIMITED);
            Sound(first.store.rows)
            && if first.halt.Some? then Alike(all, first)
               else Alike(all, Plus(first.created, WriteRun(trees[1..], orgs, first.store, UNLIMITED)))
  {
    hide Sound, Run1, WellFormed, ForOrg;
    var first := Run1(trees[0], orgs, s, UNLIMITED);
    Run1Sound(trees[0], orgs, s, UNLIMITED);
    TreeAlike(trees[0], orgs, s, UNLIMITED, UNLIMITED);
    if first.halt.None? {
      WriteAlike(trees[1..], orgs, first.store, first.left, UNLIMITED);
    }
  }

  // ---- The rerun ----

  /** A hierarchy run again after a stop ends where one run ends, and the same way. */
  lemma Run1Resumes(t: Tree, orgs: set<Id>, s: Snapshot, left: int)
    requires Sound(s.rows) && t.rootId != TOP && WellFormed(t.entries)
    ensures var p := Run1(t, orgs, s, left);
            var again, once := Run1(t, orgs, p.store, UNLIMITED), Run1(t, orgs, s, UNLIMITED);
            again.store == once.store && p.created + again.created == once.created && again.halt == once.halt
  {
    hide Sound, RunEnsureRoot, SeedEntries, WellFormed, Persists, GrowsAt;
    var stands := t.org in orgs;
    TreeResumes(t.org, stands, t.rootId, t.entries, s, left);
    if left != 0 && RunEnsureRoot(s.rows, t.org, stands, t.rootId).Committed? {
      var rooted := Step(s, EnsureRoot(t.org, stands, t.rootId));
      RootAdds(s.rows, t.org, stands, t.rootId);
      RootRows(rooted.rows, t.org, t.org);
      var root := rooted.rows.roots[t.org];
      var p := SeedEntries(t.org, root, root, t.entries, rooted, left - 1);
      SeedEntriesKeep(t.org, root, root, t.entries, rooted, left - 1);
      RootsPersist(rooted.rows, p.store.rows);
      RootStaysFound(t.org, stands, t.rootId, p.store);
      UnlimitedFinishes(t.org, root, root, t.entries, rooted, UNLIMITED - 1);
      UnlimitedFinishes(t.org, root, root, t.entries, p.store, UNLIMITED - 1);
    }
  }

  /** For every well-formed seed of any number of hierarchies, every start, and every stop,
      between entries or inside a file's steps: a rerun reaches the rows one run would have
      reached, with the events one run commits in the order it commits them, and counts what
      the stopped run had not. */
  lemma {:induction false} WriteResumes(trees: seq<Tree>, orgs: set<Id>, s: Snapshot, left: int)
    requires Sound(s.rows) && WellFormedTrees(trees)
    ensures var p := WriteRun(trees, orgs, s, left);
            var again, once := WriteRun(trees, orgs, p.store, UNLIMITED), WriteRun(trees, orgs, s, UNLIMITED);
            again.store == once.store && p.created + again.created == once.created && again.halt == once.halt
    decreases |trees|
  {
    hide Sound, Run1, WellFormed, ForOrg, TreeSettled;
    if trees != [] {
      var t := trees[0];
      var p := Run1(t, orgs, s, left);
      WriteFirst(trees, orgs, s);
      Run1Sound(t, orgs, s, left);
      if p.halt.Some? {
        Run1Resumes(t, orgs, s, left);
        WriteFirst(trees, orgs, p.store);
      } else {
        TreeAlike(t, orgs, s, left, UNLIMITED);
        FinishedTreeSettles(t, orgs, s, left);
        var q := WriteRun(trees[1..], orgs, p.store, p.left);
        RestStaysSettled(t, trees[1..], orgs, p.store, p.left);
        SettledTreeIsDone(t, orgs, q.store, UNLIMITED);
        WriteResumes(trees[1..], orgs, p.store, p.left);
        WriteFirst(trees, orgs, q.store);
      }
    }
  }

  /** What the seed's own method computes. */
  lemma {:induction false} WriteRunIsWrite(trees: seq<Tree>, orgs: set<Id>, s: Snapshot)
    requires Sound(s.rows) && WellFormedTrees(trees)
    ensures Alike(WriteRun(trees, orgs, s, UNLIMITED), WriteAll(trees, orgs, s))
    decreases |trees|
  {
    hide Sound, SeedTree, WellFormed, ForOrg;
    if trees != [] {
      WriteFirst(trees, orgs, s);
      var p := Run1(trees[0], orgs, s, UNLIMITED);
      if p.halt.None? {
        WriteRunIsWrite(trees[1..], orgs, p.store);
      }
    }
  }

  lemma {:induction false} WriteKeepsSound(trees: seq<Tree>, orgs: set<Id>, s: Snapshot, left: int)
    requires Sound(s.rows) && WellFormedTrees(trees)
    ensures Sound(WriteRun(trees, orgs, s, left).store.rows)
    decreases |trees|
  {
    hide Sound, Run1, WellFormed, ForOrg;
    if trees != [] {
      Run1Sound(trees[0], orgs, s, left);
      var p := Run1(trees[0], orgs, s, left);
      if p.halt.None? {
        WriteKeepsSound(trees[1..], orgs, p.store, p.left);
      }
    }
  }
}
