/** A directory's path as its read reports it, over the document hierarchies. */
module DocumentPaths {
  import opened Forest
  import opened Events
  import opened Documents
  import opened DocumentScope
  import Paths
  import Strings

  /** A directory's name as a path shows it; a root's is its organization's id, of which only
      that it is one segment and the organization's own matters here. */
  function Label(name: Name): string {
    match name
    case OfOrganization(org) => seq(org + 1, _ => '0')
    case Plain(text) => text
  }

  function TreeOf(h: Hierarchy): Paths.Tree {
    map d | d in h.dirs :: Paths.Node(h.dirs[d].parent, Label(h.dirs[d].name))
  }

  lemma LabelsApart(h: Hierarchy, a: Id, b: Id)
    requires Bound(h) && UniqueDirs(h.dirs) && a in h.dirs && b in h.dirs && a != b
    requires h.dirs[a].parent == h.dirs[b].parent
    ensures Label(h.dirs[a].name) != Label(h.dirs[b].name)
  {
    if h.dirs[a].parent == TOP {
      assert |Label(h.dirs[a].name)| == h.dirs[a].name.org + 1;
      assert |Label(h.dirs[b].name)| == h.dirs[b].name.org + 1;
    }
  }

  lemma LabelIsSegment(h: Hierarchy, d: Id)
    requires Bound(h) && d in h.dirs
    ensures Label(h.dirs[d].name) != "" && '/' !in Label(h.dirs[d].name)
  {
  }

  /** The name rule and the sibling-unique names are what a path's walk needs. */
  lemma NamesLabel(h: Hierarchy)
    requires Sound(h)
    ensures Paths.Labelled(TreeOf(h)) && IsForest(Paths.ParentsIn(TreeOf(h)))
  {
    assert Paths.ParentsIn(TreeOf(h)) == ParentsIn(h);
    assert TOP !in ParentsIn(h);
    hide IsForest, Bound, UniqueDirs, UniqueFiles, Housed, Label;
    var t := TreeOf(h);
    forall a, b | a in t && b in t && a != b
      ensures t[a].parent != t[b].parent || t[a].name != t[b].name
    {
      if h.dirs[a].parent == h.dirs[b].parent {
        LabelsApart(h, a, b);
      }
    }
    forall d | d in t
      ensures t[d].name != "" && '/' !in t[d].name
    {
      LabelIsSegment(h, d);
    }
  }

  /** The path's segments lead from the root, by child name, to the directory. */
  ghost predicate LeadsTo(h: Hierarchy, root: Id, path: string, d: Id) {
    exists ids :: |ids| >= 1 && Paths.Leads(TreeOf(h), root, Strings.Split(Paths.TrimSlash(path), '/'), ids) && ids[|ids| - 1] == d
  }

  /** They lead to no other. */
  lemma LeadsToOne(h: Hierarchy, root: Id, path: string, d: Id, e: Id)
    requires Sound(h) && LeadsTo(h, root, path, d) && LeadsTo(h, root, path, e)
    ensures d == e
  {
    hide Sound, Paths.Leads, Paths.Labelled, TreeOf, Strings.Split;
    NamesLabel(h);
    var segments := Strings.Split(Paths.TrimSlash(path), '/');
    var a :| |a| >= 1 && Paths.Leads(TreeOf(h), root, segments, a) && a[|a| - 1] == d;
    var b :| |b| >= 1 && Paths.Leads(TreeOf(h), root, segments, b) && b[|b| - 1] == e;
    Paths.LeadsIsUnique(TreeOf(h), root, segments, a, b);
  }

  lemma {:induction false} LineageIsWithin(h: Hierarchy, ids: seq<Id>, n: nat)
    requires IsForest(ParentsIn(h)) && n < |ids| && Paths.Lineage(TreeOf(h), TOP, ids)
    ensures ids[0] in h.dirs && h.dirs[ids[0]].parent == TOP && Within(ParentsIn(h), ids[n], ids[0])
  {
    hide Within, IsForest;
    var p := ParentsIn(h);
    assert Paths.Above(TOP, ids, 0) == TOP;
    assert ids[n] in TreeOf(h) && TreeOf(h)[ids[n]].parent == Paths.Above(TOP, ids, n);
    if n > 0 {
      LineageIsWithin(h, ids, n - 1);
      WithinStep(p, ids[n], ids[0]);
    } else {
      WithinSelf(p, ids[0]);
    }
  }

  /** The lineage of a directory in an organization's root begins at that root. */
  lemma LineageFromRoot(h: Hierarchy, org: Id, ids: seq<Id>, d: Id)
    requires Sound(h) && Home(h, org, d) && |ids| >= 1 && Paths.Lineage(TreeOf(h), TOP, ids) && ids[|ids| - 1] == d
    ensures ids[0] == h.roots[org]
  {
    hide IsForest, Unique, Housed, Within, Paths.Lineage;
    LineageIsWithin(h, ids, |ids| - 1);
    var r := ids[0];
    var owner := h.dirs[r].name.org;
    assert Home(h, owner, d);
    RootsApart(h, org, owner, d);
  }

  /** The path a directory's read reports, from its whole path. */
  method ReportPath(h: Hierarchy, org: Id, d: Id) returns (path: string)
    requires Sound(h) && Home(h, org, d)
    ensures path != "" && path[0] == '/' && (path == "/" <==> d == h.roots[org])
    ensures d != h.roots[org] ==> LeadsTo(h, h.roots[org], path, d)
  {
    hide Sound, Paths.Leads, Paths.Labelled, Strings.Split, Strings.Join, Paths.AfterSlash, Paths.Composed,
         Paths.Lineage, IsForest;
    NamesLabel(h);
    var t := TreeOf(h);
    var ids := Paths.WalkUp(t, d);
    LineageFromRoot(h, org, ids, d);
    path := "/" + Paths.AfterSlash(Paths.TrimSlash(Paths.Composed(t, ids)));
    Paths.ReportedPath(t, ids);
    if |ids| > 1 {
      Paths.ReportedLeads(t, ids);
      RootIsFirst(t, ids);
    }
  }

  lemma RootIsFirst(t: Paths.Tree, ids: seq<Id>)
    requires Paths.Labelled(t) && |ids| > 1 && Paths.Lineage(t, TOP, ids)
    ensures ids[|ids| - 1] != ids[0]
  {
    var n := |ids| - 1;
    assert t[ids[n]].parent == Paths.Above(TOP, ids, n) && t[ids[0]].parent == Paths.Above(TOP, ids, 0);
    assert ids[n - 1] in t;
  }
}
