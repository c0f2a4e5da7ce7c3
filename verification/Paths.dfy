/** Paths composed from a tree's labels: an organization's from the codes of its lineage,
    a directory's from the names above it. A read finds a node by its whole composed path;
    a seed walks the path a segment at a time from the root. */
module Paths {
  import opened Forest
  import opened Events
  import Strings

  datatype Node = Node(parent: Id, name: string)
  type Tree = map<Id, Node>

  /** No two siblings share a name, and no name is empty or holds the separator. */
  ghost predicate Labelled(t: Tree) {
    && TOP !in t
    && (forall a, b :: a in t && b in t && a != b ==> t[a].parent != t[b].parent || t[a].name != t[b].name)
    && (forall id :: id in t ==> t[id].name != "" && '/' !in t[id].name)
  }

  /** The parent of a lineage's step i, the lineage beginning below from. */
  function Above(from: Id, ids: seq<Id>, i: nat): Id
    requires i <= |ids|
  {
    if i == 0 then from else ids[i - 1]
  }

  /** The ids of a lineage, from a node whose parent is from down to its last. */
  ghost predicate Lineage(t: Tree, from: Id, ids: seq<Id>) {
    && (forall i :: 0 <= i < |ids| ==> ids[i] in t)
    && (forall i {:trigger Above(from, ids, i)} :: 0 <= i < |ids| ==> t[ids[i]].parent == Above(from, ids, i))
  }

  lemma LineageNext(t: Tree, from: Id, ids: seq<Id>, id: Id)
    requires Lineage(t, from, ids) && id in t && t[id].parent == Above(from, ids, |ids|)
    ensures Lineage(t, from, ids + [id])
  {
    var more := ids + [id];
    forall i | 0 <= i < |more|
      ensures t[more[i]].parent == Above(from, more, i)
    {
      assert Above(from, more, i) == Above(from, ids, i);
    }
  }

  lemma LineageRest(t: Tree, from: Id, ids: seq<Id>)
    requires Lineage(t, from, ids) && |ids| >= 1
    ensures Lineage(t, ids[0], ids[1..])
  {
    var rest := ids[1..];
    forall i | 0 <= i < |rest|
      ensures t[rest[i]].parent == Above(ids[0], rest, i)
    {
      assert Above(ids[0], rest, i) == Above(from, ids, i + 1);
    }
  }

  function Labels(t: Tree, ids: seq<Id>): (labels: seq<string>)
    requires forall i :: 0 <= i < |ids| ==> ids[i] in t
    ensures |labels| == |ids|
  {
    seq(|ids|, i requires 0 <= i < |ids| => t[ids[i]].name)
  }

  /** The path a lineage composes: each name after a separator. */
  function Composed(t: Tree, ids: seq<Id>): string
    requires |ids| >= 1 && forall i :: 0 <= i < |ids| ==> ids[i] in t
  {
    "/" + Strings.Join(Labels(t, ids), '/')
  }

  /** The read model holds a row for id under path. */
  ghost predicate Named(t: Tree, path: string, id: Id) {
    exists ids :: |ids| >= 1 && Lineage(t, TOP, ids) && ids[|ids| - 1] == id && Composed(t, ids) == path
  }

  /** The path without one leading separator. */
  function TrimSlash(path: string): string {
    if path != [] && path[0] == '/' then path[1..] else path
  }

  // ---- Paths are injective ----

  lemma {:induction false} LineageByLabels(t: Tree, from: Id, a: seq<Id>, b: seq<Id>, n: nat)
    requires Labelled(t) && Lineage(t, from, a) && Lineage(t, from, b)
    requires n <= |a| && n <= |b| && Labels(t, a)[..n] == Labels(t, b)[..n]
    ensures a[..n] == b[..n]
    decreases n
  {
    if n > 0 {
      var x, y := Labels(t, a), Labels(t, b);
      assert x[..n - 1] == x[..n][..n - 1] && y[..n - 1] == y[..n][..n - 1];
      LineageByLabels(t, from, a, b, n - 1);
      assert x[n - 1] == x[..n][n - 1] == y[..n][n - 1] == y[n - 1];
      if n > 1 {
        assert a[n - 2] == a[..n - 1][n - 2] == b[..n - 1][n - 2] == b[n - 2];
      }
      var last := n - 1;
      assert t[a[last]].parent == Above(from, a, last);
      assert t[b[last]].parent == Above(from, b, last);
      assert t[a[n - 1]].name == x[n - 1] && t[b[n - 1]].name == y[n - 1];
      assert t[a[n - 1]].parent == t[b[n - 1]].parent;
      assert a[..n] == a[..n - 1] + [a[n - 1]] && b[..n] == b[..n - 1] + [b[n - 1]];
    }
  }

  lemma LabelsOfPath(t: Tree, ids: seq<Id>)
    requires Labelled(t) && |ids| >= 1 && forall i :: 0 <= i < |ids| ==> ids[i] in t
    ensures Strings.Split(TrimSlash(Composed(t, ids)), '/') == Labels(t, ids)
  {
    assert Composed(t, ids)[1..] == Strings.Join(Labels(t, ids), '/');
    Strings.SplitJoin(Labels(t, ids), '/');
  }

  /** On any tree, two lineages that compose one path are one lineage. */
  lemma ComposedIsInjective(t: Tree, a: seq<Id>, b: seq<Id>)
    requires Labelled(t) && |a| >= 1 && |b| >= 1 && Lineage(t, TOP, a) && Lineage(t, TOP, b)
    ensures Composed(t, a) == Composed(t, b) ==> a == b
  {
    if Composed(t, a) == Composed(t, b) {
      LabelsOfPath(t, a);
      LabelsOfPath(t, b);
      LineageByLabels(t, TOP, a, b, |a|);
      assert a[..|a|] == a && b[..|b|] == b;
    }
  }

  lemma NamedIsUnique(t: Tree, path: string, a: Id, b: Id)
    requires Labelled(t) && Named(t, path, a) && Named(t, path, b)
    ensures a == b
  {
    hide Composed, Labelled;
    var x :| |x| >= 1 && Lineage(t, TOP, x) && x[|x| - 1] == a && Composed(t, x) == path;
    var y :| |y| >= 1 && Lineage(t, TOP, y) && y[|y| - 1] == b && Composed(t, y) == path;
    ComposedIsInjective(t, x, y);
  }

  // ---- Every node of a forest has one path ----

  function ParentsIn(t: Tree): Parents {
    map id | id in t :: t[id].parent
  }

  /** On a forest a lineage leads to every node. */
  lemma {:induction false} LineageTo(t: Tree, id: Id, n: nat) returns (ids: seq<Id>)
    requires IsForest(ParentsIn(t)) && id in t && Up(ParentsIn(t), id, n) == TOP
    ensures |ids| >= 1 && Lineage(t, TOP, ids) && ids[|ids| - 1] == id
    decreases n
  {
    var p := ParentsIn(t);
    assert p[id] == t[id].parent;
    if t[id].parent == TOP {
      ids := [id];
    } else {
      var above := LineageTo(t, t[id].parent, n - 1);
      LineageNext(t, TOP, above, id);
      ids := above + [id];
    }
  }

  lemma LineagePrefix(t: Tree, ids: seq<Id>, n: nat)
    requires Lineage(t, TOP, ids) && n <= |ids|
    ensures Lineage(t, TOP, ids[..n])
  {
    var prefix := ids[..n];
    forall i | 0 <= i < |prefix|
      ensures prefix[i] in t && t[prefix[i]].parent == Above(TOP, prefix, i)
    {
      assert Above(TOP, prefix, i) == Above(TOP, ids, i);
    }
  }

  /** Two lineages to one node are one. */
  lemma {:induction false} LineageBackwards(t: Tree, a: seq<Id>, b: seq<Id>)
    requires TOP !in t && Lineage(t, TOP, a) && Lineage(t, TOP, b)
    requires |a| >= 1 && |b| >= 1 && a[|a| - 1] == b[|b| - 1]
    ensures a == b
    decreases |a|
  {
    var m, n := |a| - 1, |b| - 1;
    assert t[a[m]].parent == Above(TOP, a, m);
    assert t[b[n]].parent == Above(TOP, b, n);
    if m > 0 && n > 0 {
      LineagePrefix(t, a, m);
      LineagePrefix(t, b, n);
      LineageBackwards(t, a[..m], b[..n]);
      assert a == a[..m] + [a[m]] && b == b[..n] + [b[n]];
    }
  }

  /** The read model is one row for each node: a path names at most one node, and each node
      of a forest has exactly one path. */
  lemma EachNodeHasOnePath(t: Tree, id: Id)
    requires Labelled(t) && IsForest(ParentsIn(t)) && id in t
    ensures exists path :: Named(t, path, id) && forall other :: Named(t, other, id) ==> other == path
  {
    assert Within(ParentsIn(t), id, TOP);
    var n: nat :| Up(ParentsIn(t), id, n) == TOP;
    var ids := LineageTo(t, id, n);
    var path := Composed(t, ids);
    assert Named(t, path, id);
    forall other | Named(t, other, id)
      ensures other == path
    {
      var x :| |x| >= 1 && Lineage(t, TOP, x) && x[|x| - 1] == id && Composed(t, x) == other;
      LineageBackwards(t, ids, x);
    }
  }

  // ---- The walk, a segment at a time ----

  ghost predicate Leads(t: Tree, from: Id, segments: seq<string>, ids: seq<Id>) {
    Lineage(t, from, ids) && Labels(t, ids) == segments
  }

  /** The child of parent under the name, if there is one. */
  method Child(t: Tree, parent: Id, name: string) returns (child: Option<Id>)
    ensures child.Some? ==> child.value in t && t[child.value] == Node(parent, name)
    ensures child.None? ==> forall id :: id in t ==> t[id] != Node(parent, name)
  {
    if id :| id in t && t[id] == Node(parent, name) {
      return Some(id);
    }
    return None;
  }

  /** Walks segments down from a node, or finds one that leads nowhere. */
  method Descend(t: Tree, from: Id, segments: seq<string>) returns (found: Option<Id>, ghost ids: seq<Id>)
    requires Labelled(t)
    ensures found.Some? ==> Leads(t, from, segments, ids) && found.value == Above(from, ids, |ids|)
    ensures found.Some? <==> exists way :: Leads(t, from, segments, way)
  {
    var id := from;
    ids := [];
    var i := 0;
    while i < |segments|
      invariant 0 <= i <= |segments|
      invariant Leads(t, from, segments[..i], ids)
      invariant id == Above(from, ids, |ids|)
    {
      var next := Child(t, id, segments[i]);
      if next.None? {
        forall other
          ensures !Leads(t, from, segments, other)
        {
          if Leads(t, from, segments, other) {
            NoOtherWay(t, from, segments, ids, other, i);
          }
        }
        return None, ids;
      }
      LineageNext(t, from, ids, next.value);
      ids := ids + [next.value];
      assert Labels(t, ids) == segments[..i + 1];
      id := next.value;
      i := i + 1;
    }
    assert segments[..i] == segments;
    return Some(id), ids;
  }

  lemma NoOtherWay(t: Tree, from: Id, segments: seq<string>, ids: seq<Id>, other: seq<Id>, i: nat)
    requires Labelled(t) && i < |segments| && Leads(t, from, segments[..i], ids) && Leads(t, from, segments, other)
    ensures |ids| == i && other[..i] == ids && other[i] in t
    ensures t[other[i]] == Node(Above(from, ids, |ids|), segments[i])
  {
    assert Labels(t, other)[..i] == Labels(t, ids)[..i];
    LineageByLabels(t, from, other, ids, i);
    assert ids[..i] == ids;
    assert Above(from, other, i) == Above(from, other[..i], i);
    assert Labels(t, other)[i] == segments[i];
  }

  lemma LeadsIsNamed(t: Tree, path: string, id: Id)
    requires Labelled(t)
    ensures Named(t, "/" + TrimSlash(path), id) <==>
            exists ids :: |ids| >= 1 && Leads(t, TOP, Strings.Split(TrimSlash(path), '/'), ids) && ids[|ids| - 1] == id
  {
    var rest := TrimSlash(path);
    var segments := Strings.Split(rest, '/');
    Strings.JoinSplit(rest, '/');
    if Named(t, "/" + rest, id) {
      var ids :| |ids| >= 1 && Lineage(t, TOP, ids) && ids[|ids| - 1] == id && Composed(t, ids) == "/" + rest;
      LabelsOfPath(t, ids);
      assert ("/" + rest)[1..] == rest;
      assert Leads(t, TOP, segments, ids);
    }
    if ids :| |ids| >= 1 && Leads(t, TOP, segments, ids) && ids[|ids| - 1] == id {
      assert Composed(t, ids) == "/" + rest;
    }
  }

  /** Resolves a path a seed names, one segment at a time from the top. For every string,
      it finds exactly the node the lookup by whole composed path finds, which gives the
      path its leading separator, or finds none when that lookup finds none. */
  method ResolvePath(t: Tree, path: string) returns (found: Option<Id>)
    requires Labelled(t)
    ensures found.Some? ==> Named(t, "/" + TrimSlash(path), found.value)
    ensures forall id: Id :: Named(t, "/" + TrimSlash(path), id) ==> found == Some(id)
  {
    var segments := Strings.Split(TrimSlash(path), '/');
    ghost var ids;
    found, ids := Descend(t, TOP, segments);
    forall id: Id
      ensures Named(t, "/" + TrimSlash(path), id) ==> found == Some(id)
    {
      LeadsIsNamed(t, path, id);
      if Named(t, "/" + TrimSlash(path), id) && found.Some? {
        LeadsIsNamed(t, path, found.value);
        NamedIsUnique(t, "/" + TrimSlash(path), found.value, id);
      }
    }
    if found.Some? {
      LeadsIsNamed(t, path, found.value);
    }
  }

  // ---- A directory's path, from its document root ----

  /** What follows the first separator, or nothing. */
  function AfterSlash(s: string): string {
    if s == [] then [] else if s[0] == '/' then s[1..] else AfterSlash(s[1..])
  }

  lemma {:induction false} AfterFirst(name: string, rest: string)
    requires '/' !in name
    ensures AfterSlash(name + "/" + rest) == rest && AfterSlash(name) == ""
  {
    var s := name + "/" + rest;
    if name == [] {
      assert s[1..] == rest;
    } else {
      assert name[0] in name;
      assert s[0] == name[0] && s[1..] == name[1..] + "/" + rest;
      AfterFirst(name[1..], rest);
    }
  }

  /** The path a directory's read reports: its whole path, whose first segment names the
      document root, without that segment. */
  function Reported(whole: string): string {
    "/" + AfterSlash(TrimSlash(whole))
  }

  lemma ReportedPath(t: Tree, ids: seq<Id>)
    requires Labelled(t) && |ids| >= 1 && forall i :: 0 <= i < |ids| ==> ids[i] in t
    ensures Reported(Composed(t, ids)) == if |ids| == 1 then "/" else "/" + Strings.Join(Labels(t, ids[1..]), '/')
  {
    var labels := Labels(t, ids);
    assert Composed(t, ids)[1..] == Strings.Join(labels, '/');
    if |ids| == 1 {
      assert Strings.Join(labels, '/') == labels[0];
      AfterFirst(labels[0], "");
    } else {
      assert labels[1..] == Labels(t, ids[1..]);
      AfterFirst(labels[0], Strings.Join(labels[1..], '/'));
    }
  }

  /** Below the root, the reported path's segments are the names from the root down. */
  lemma ReportedLeads(t: Tree, ids: seq<Id>)
    requires Labelled(t) && |ids| > 1 && Lineage(t, TOP, ids)
    ensures Reported(Composed(t, ids)) != "/"
    ensures Leads(t, ids[0], Strings.Split(TrimSlash(Reported(Composed(t, ids))), '/'), ids[1..])
  {
    var below := ids[1..];
    ReportedPath(t, ids);
    LabelsOfPath(t, below);
    LineageRest(t, TOP, ids);
    assert Strings.Join(Labels(t, below), '/') != "" by {
      assert Labels(t, below)[0] != "";
    }
  }

  lemma LeadsIsUnique(t: Tree, from: Id, segments: seq<string>, a: seq<Id>, b: seq<Id>)
    requires Labelled(t) && Leads(t, from, segments, a) && Leads(t, from, segments, b)
    ensures a == b
  {
    LineageByLabels(t, from, a, b, |a|);
    assert a[..|a|] == a && b[..|b|] == b;
  }

  /** The reported path is "/" exactly for the root; any other path's segments lead from
      the root, by child name, back to the directory that reported it. */
  method ReportAndResolve(t: Tree, ids: seq<Id>) returns (path: string, back: Option<Id>)
    requires Labelled(t) && |ids| >= 1 && Lineage(t, TOP, ids)
    ensures path == Reported(Composed(t, ids))
    ensures path != "" && path[0] == '/' && (path == "/" <==> |ids| == 1)
    ensures |ids| > 1 ==> back == Some(ids[|ids| - 1])
  {
    hide Labelled, Composed, Labels, AfterSlash, Strings.Split, Strings.Join;
    path := "/" + AfterSlash(TrimSlash(Composed(t, ids)));
    ReportedPath(t, ids);
    back := None;
    if |ids| > 1 {
      ReportedLeads(t, ids);
      ghost var found;
      back, found := Descend(t, ids[0], Strings.Split(TrimSlash(path), '/'));
      LeadsIsUnique(t, ids[0], Strings.Split(TrimSlash(path), '/'), found, ids[1..]);
    }
  }

  lemma LineagePrepend(t: Tree, from: Id, ids: seq<Id>)
    requires from in t && |ids| >= 1 && Lineage(t, from, ids)
    ensures Lineage(t, t[from].parent, [from] + ids)
  {
    var more := [from] + ids;
    forall i | 0 <= i < |more|
      ensures t[more[i]].parent == Above(t[from].parent, more, i)
    {
      if i > 0 {
        assert Above(t[from].parent, more, i) == Above(from, ids, i - 1);
      }
    }
  }

  /** The lineage of a node, walked up from it. */
  method WalkUp(t: Tree, id: Id) returns (ids: seq<Id>)
    requires IsForest(ParentsIn(t)) && id in t
    ensures |ids| >= 1 && Lineage(t, TOP, ids) && ids[|ids| - 1] == id
  {
    var p := ParentsIn(t);
    assert Within(p, id, TOP);
    ghost var left: nat :| Up(p, id, left) == TOP;
    assert TOP !in p;
    ids := [id];
    var at := t[id].parent;
    assert at == Above(at, ids, 0);
    left := left - 1;
    while at != TOP
      invariant |ids| >= 1 && Lineage(t, at, ids) && ids[|ids| - 1] == id
      invariant at == TOP || at in t
      invariant Up(p, at, left) == TOP
      decreases left
    {
      LineagePrepend(t, at, ids);
      assert p[at] == t[at].parent;
      ids, at := [at] + ids, t[at].parent;
      left := left - 1;
    }
  }
}
