/** The documents' seed contribution as it runs: each hierarchy in file order, the root, then
    its entries and their own, the created count added up as they go. */
module DocumentSeeder {
  import opened Forest
  import opened Events
  import opened Documents
  import opened DocumentAnswers
  import opened DocumentStore
  import opened DocumentSeed
  import opened DocumentSeedRuns

  /** One organization's hierarchy as a state file declares it, its organization resolved. */
  datatype Tree = Tree(org: Id, rootId: Id, entries: seq<Entry>)

  function Plus(created: nat, p: Progress): Progress {
    p.(created := created + p.created)
  }

  /** A run with no limit stops at nothing but a defect. */
  lemma {:induction false} NeverStops(org: Id, root: Id, parent: Id, entries: seq<Entry>, s: Snapshot, left: int)
    requires left < 0
    ensures var p := SeedEntries(org, root, parent, entries, s, left); p.left < 0 && (p.halt.Some? ==> p.halt.value.Defect?)
    decreases entries, 0
  {
    if entries != [] {
      NeverStopsEntry(org, root, parent, entries[0], s, left);
      var p := SeedEntry(org, root, parent, entries[0], s, left);
      if p.halt.None? {
        NeverStops(org, root, parent, entries[1..], p.store, p.left);
      }
    }
  }

  lemma {:induction false} NeverStopsEntry(org: Id, root: Id, parent: Id, e: Entry, s: Snapshot, left: int)
    requires left < 0
    ensures var p := SeedEntry(org, root, parent, e, s, left); p.left < 0 && (p.halt.Some? ==> p.halt.value.Defect?)
    decreases e, 1
  {
    hide EnsureDirectory, BeginFile, CompleteFile;
    if KindOf(e).IsDirectory? && ValidName(e.name) {
      var d := EnsureDirectory(org, root, parent, e, s);
      if d.dir.Some? {
        NeverStops(org, root, d.dir.value, e.entries, d.store, left - 1);
      }
    }
  }

  class Seeder {
    var rows: Hierarchy
    var outbox: seq<Event>

    ghost predicate Valid()
      reads this
    {
      Sound(rows)
    }

    ghost function Snap(): Snapshot
      reads this
    {
      Snapshot(rows, outbox)
    }

    constructor (h: Hierarchy, log: seq<Event>)
      requires Sound(h)
      ensures Valid() && Snap() == Snapshot(h, log)
    {
      rows, outbox := h, log;
    }

    /** blobfs's insert-or-find in one transaction, with the event of a directory created. */
    method SeedDirectory(org: Id, root: Id, parent: Id, e: Entry) returns (dir: Option<Id>, created: bool)
      requires Valid() && parent in rows.dirs && ValidName(e.name)
      modifies this
      ensures Valid() && parent in rows.dirs && (dir.Some? ==> dir.value in rows.dirs)
      ensures Ensured(Snap(), dir, created) == EnsureDirectory(org, root, parent, e, old(Snap()))
      ensures EnsuresEntry(old(Snap()), Ensured(Snap(), dir, created), org, root, parent, e)
    {
      EnsureAnswers(org, root, parent, e, Snap());
      hide Sound, FindDir, EnsuresEntry;
      EnsureDirectoryKeeps(org, root, parent, e, Snap());
      UniqueRows(rows);
      if d :| d in rows.dirs && rows.dirs[d].parent == parent && rows.dirs[d].name == Plain(e.name) {
        FindDirIs(rows, parent, e.name, d);
        return if rows.dirs[d].status == Deleting then None else Some(d), false;
      }
      NoneFound(rows, parent, e.name);
      if e.id in rows.dirs || BeingDeletedIn(rows, parent) || e.id == TOP {
        return None, false;
      }
      var row := Directory(parent, Plain(e.name), Active, 1);
      rows := PutDir(rows, e.id, row);
      outbox := outbox + [DirectoryCreated(Shown(org, root, e.id, row))];
      return Some(e.id), true;
    }

    /** blobfs's retry-safe write: the pending row begun or found, the content put, and the
        row completed with its event. */
    method SeedFile(org: Id, parent: Id, e: Entry) returns (stored: bool)
      requires Valid() && parent in rows.dirs && ValidName(e.name)
      modifies this
      ensures Valid() && rows.dirs == old(rows).dirs
      ensures var b := BeginFile(parent, e, old(Snap()));
              && stored == b.pending
              && (stored ==> Fixed(e.id) in b.store.rows.files && Snap() == CompleteFile(org, e, b.store))
              && (!stored ==> Snap() == old(Snap()))
      ensures StoresEntry(old(Snap()), Snap(), stored, org, parent, e)
    {
      StoreAnswers(org, parent, e, Snap());
      hide Sound, BeginFile, CompleteFile, StoresEntry;
      BeginFileKeeps(parent, e, Snap());
      stored := EnsureFile(parent, e);
      if stored {
        Complete(org, parent, e);
      }
    }

    /** The write's first transaction: the pending row begun or found. */
    method EnsureFile(parent: Id, e: Entry) returns (pending: bool)
      requires Valid() && parent in rows.dirs && ValidName(e.name)
      modifies this`rows
      ensures Valid() && rows.dirs == old(rows).dirs && Began(Snap(), pending) == BeginFile(parent, e, old(Snap()))
    {
      hide Sound, FindFile;
      BeginFileKeeps(parent, e, Snap());
      UniqueRows(rows);
      if f :| f in rows.files && rows.files[f].directory == parent && rows.files[f].name == e.name {
        FindFileIs(rows, parent, e.name, f);
        return f == Fixed(e.id) && rows.files[f].status == Pending;
      }
      NoFileFound(rows, parent, e.name);
      if Fixed(e.id) in rows.files || BeingDeletedIn(rows, parent) {
        return false;
      }
      rows := PutFile(rows, Fixed(e.id), File(parent, e.name, e.contentType, Pending, None, 1));
      return true;
    }

    /** The completion, with its event, once the content is put. */
    method Complete(org: Id, parent: Id, e: Entry)
      requires Valid() && Fixed(e.id) in rows.files && FindFile(rows, parent, e.name) == Some(Fixed(e.id))
      modifies this
      ensures Valid() && rows.dirs == old(rows).dirs && Snap() == CompleteFile(org, e, old(Snap()))
    {
      hide Sound, FindFile;
      CompleteFileKeeps(org, parent, e, Snap());
      var row := rows.files[Fixed(e.id)];
      var done := row.(status := Available, stored := Some(ContentOf(e)), version := row.version + 1);
      rows := PutFile(rows, Fixed(e.id), done);
      outbox := outbox + [FileUploaded(DataOf(org, Fixed(e.id), done))];
    }

    method SeedOne(org: Id, root: Id, parent: Id, e: Entry, ghost left: int) returns (n: nat, err: Option<string>)
      requires Valid() && parent in rows.dirs && left < 0
      modifies this
      ensures Valid() && parent in rows.dirs
      ensures var p := SeedEntry(org, root, parent, e, old(Snap()), left);
              Snap() == p.store && n == p.created && p.halt == if err.Some? then Some(Defect(err.value)) else None
      ensures var both, neither := e.listed && (e.contentType != "" || e.content != ""), !e.listed && e.contentType == "";
              both || neither || !ValidName(e.name) ==> Snap() == old(Snap()) && n == 0 && err == Some(e.name)
      ensures !e.listed && e.contentType != "" && ValidName(e.name) ==>
                err.None? && n <= 1 && StoresEntry(old(Snap()), Snap(), n == 1, org, parent, e)
      decreases e, 1
    {
      hide Sound, EnsureDirectory, BeginFile, CompleteFile, SeedEntries, Persists, GrowsAt;
      SeedEntryKeeps(org, root, parent, e, Snap(), left);
      RowStays(rows, SeedEntry(org, root, parent, e, Snap(), left).store.rows, parent);
      if KindOf(e).Both? || KindOf(e).Neither? || !ValidName(e.name) {
        return 0, Some(e.name);
      }
      if KindOf(e).IsDirectory? {
        var dir, created := SeedDirectory(org, root, parent, e);
        if dir.None? {
          return 0, None;
        }
        n, err := SeedAll(org, root, dir.value, e.entries, left - 1);
        if created {
          n := n + 1;
        }
      } else {
        ghost var before := Snap();
        var stored := SeedFile(org, parent, e);
        BeginFileKeeps(parent, e, before);
        return if stored then 1 else 0, None;
      }
    }

    /** Ensures each entry in file order and adds up what it created. */
    method SeedAll(org: Id, root: Id, parent: Id, entries: seq<Entry>, ghost left: int) returns (created: nat,
            err: Option<string>)
      requires Valid() && parent in rows.dirs && left < 0
      modifies this
      ensures Valid() && parent in rows.dirs
      ensures var p := SeedEntries(org, root, parent, entries, old(Snap()), left);
              Snap() == p.store && created == p.created && p.halt == if err.Some? then Some(Defect(err.value)) else None
      decreases entries, 0
    {
      hide Sound, SeedEntry, SeedEntries;
      created, err := 0, None;
      var i := 0;
      ghost var l := left;
      ghost var all := SeedEntries(org, root, parent, entries, Snap(), left);
      assert entries[0..] == entries;
      while i < |entries|
        invariant 0 <= i <= |entries| && Valid() && parent in rows.dirs && l < 0
        invariant err.None? && all == Plus(created, SeedEntries(org, root, parent, entries[i..], Snap(), l))
      {
        ghost var s := Snap();
        OneStep(org, root, parent, entries[i..], s, l);
        assert entries[i..][0] == entries[i] && entries[i..][1..] == entries[i + 1..];
        NeverStopsEntry(org, root, parent, entries[i], s, l);
        var n;
        n, err := SeedOne(org, root, parent, entries[i], l);
        created := created + n;
        if err.Some? {
          return;
        }
        l := SeedEntry(org, root, parent, entries[i], s, l).left;
        i := i + 1;
      }
      NoneLeft(org, root, parent, entries[i..], Snap(), l);
    }

    /** Seeds one organization's hierarchy: its root under the tree's id, not counted, then
        its entries. */
    method SeedHierarchy(t: Tree, stands: bool) returns (created: nat, err: Option<string>)
      requires Valid() && t.rootId != TOP
      modifies this
      ensures Valid()
      ensures var p := SeedTree(t.org, stands, t.rootId, t.entries, old(Snap()), UNLIMITED);
              Snap() == p.store && created == p.created && p.halt == if err.Some? then Some(Defect(err.value)) else None
    {
      hide IsForest, UniqueDirs, UniqueFiles, Housed, SeedEntries;
      if t.org !in rows.roots {
        if !stands || t.rootId in rows.dirs {
          NoRootUnbound(rows, t.org);
          return 0, Some("/");
        }
        NoRootUnbound(rows, t.org);
        EnsureRootKeeps(rows, t.org, true, t.rootId);
        var row := Directory(TOP, OfOrganization(t.org), Active, 1);
        rows := PutDir(rows, t.rootId, row).(roots := rows.roots[t.org := t.rootId]);
        outbox := outbox + [DirectoryCreated(Shown(t.org, t.rootId, t.rootId, row))];
      }
      assert Snap() == Step(old(Snap()), EnsureRoot(t.org, stands, t.rootId));
      created, err := SeedAll(t.org, rows.roots[t.org], rows.roots[t.org], t.entries, UNLIMITED - 1);
    }

    /** Seeds each hierarchy in file order, and stops at the first that fails; every entry
        created is one event, and each root created is one more. */
    method Write(trees: seq<Tree>, organizations: set<Id>) returns (created: nat, err: Option<string>)
      requires Valid() && forall i :: 0 <= i < |trees| ==> trees[i].rootId != TOP
      modifies this
      ensures Valid() && old(outbox) <= outbox
      ensures var p := WriteAll(trees, organizations, old(Snap()));
              Snap() == p.store && created == p.created && p.halt == if err.Some? then Some(Defect(err.value)) else None
    {
      hide Sound, SeedTree;
      created, err := 0, None;
      var i := 0;
      ghost var all := WriteAll(trees, organizations, Snap());
      assert trees[0..] == trees;
      while i < |trees|
        invariant 0 <= i <= |trees| && Valid() && old(outbox) <= outbox
        invariant err.None? && all == Plus(created, WriteAll(trees[i..], organizations, Snap()))
      {
        assert trees[i..][0] == trees[i] && trees[i..][1..] == trees[i + 1..];
        ghost var s := Snap();
        var n;
        n, err := SeedHierarchy(trees[i], trees[i].org in organizations);
        LogGrows(trees[i].org, trees[i].org in organizations, trees[i].rootId, trees[i].entries, s);
        created := created + n;
        if err.Some? {
          return;
        }
        i := i + 1;
      }
    }
  }

  /** The hierarchies of a state, in file order. */
  ghost function WriteAll(trees: seq<Tree>, organizations: set<Id>, s: Snapshot): Progress
    decreases |trees|
  {
    if trees == [] then Progress(s, UNLIMITED, 0, None)
    else
      var t := trees[0];
      var p := SeedTree(t.org, t.org in organizations, t.rootId, t.entries, s, UNLIMITED).(left := UNLIMITED);
      if p.halt.Some? then p else Plus(p.created, WriteAll(trees[1..], organizations, p.store))
  }

  lemma OneStep(org: Id, root: Id, parent: Id, entries: seq<Entry>, s: Snapshot, left: int)
    requires entries != []
    ensures var p := SeedEntry(org, root, parent, entries[0], s, left);
            SeedEntries(org, root, parent, entries, s, left)
            == if p.halt.Some? then p else Plus(p.created, SeedEntries(org, root, parent, entries[1..], p.store, p.left))
  {
  }

  lemma NoneLeft(org: Id, root: Id, parent: Id, entries: seq<Entry>, s: Snapshot, left: int)
    requires entries == []
    ensures SeedEntries(org, root, parent, entries, s, left) == Progress(s, left, 0, None)
  {
  }

  lemma RowStays(h: Hierarchy, h': Hierarchy, d: Id)
    requires Persists(h, h') && d in h.dirs
    ensures d in h'.dirs
  {
  }

  lemma UniqueRows(h: Hierarchy)
    requires Sound(h)
    ensures Unique(h)
  {
  }

  lemma NoneFound(h: Hierarchy, parent: Id, name: string)
    requires forall d :: !(d in h.dirs && h.dirs[d].parent == parent && h.dirs[d].name == Plain(name))
    ensures FindDir(h, parent, name).None?
  {
  }

  lemma NoFileFound(h: Hierarchy, parent: Id, name: string)
    requires forall f :: !(f in h.files && h.files[f].directory == parent && h.files[f].name == name)
    ensures FindFile(h, parent, name).None?
  {
  }

  lemma {:induction false} LogGrowsEntries(org: Id, root: Id, parent: Id, entries: seq<Entry>, s: Snapshot, left: int)
    ensures s.log <= SeedEntries(org, root, parent, entries, s, left).store.log
    decreases entries, 0
  {
    if entries != [] {
      LogGrowsEntry(org, root, parent, entries[0], s, left);
      var p := SeedEntry(org, root, parent, entries[0], s, left);
      if p.halt.None? {
        LogGrowsEntries(org, root, parent, entries[1..], p.store, p.left);
      }
    }
  }

  lemma {:induction false} LogGrowsEntry(org: Id, root: Id, parent: Id, e: Entry, s: Snapshot, left: int)
    ensures s.log <= SeedEntry(org, root, parent, e, s, left).store.log
    decreases e, 1
  {
    if KindOf(e).IsDirectory? && ValidName(e.name) && left != 0 {
      var d := EnsureDirectory(org, root, parent, e, s);
      if d.dir.Some? {
        LogGrowsEntries(org, root, d.dir.value, e.entries, d.store, left - 1);
      }
    }
  }

  lemma LogGrows(org: Id, stands: bool, rootId: Id, entries: seq<Entry>, s: Snapshot)
    ensures s.log <= SeedTree(org, stands, rootId, entries, s, UNLIMITED).store.log
  {
    hide SeedEntries;
    var rooted := Step(s, EnsureRoot(org, stands, rootId));
    if RunEnsureRoot(s.rows, org, stands, rootId).Committed? && org in rooted.rows.roots {
      LogGrowsEntries(org, rooted.rows.roots[org], rooted.rows.roots[org], entries, rooted, UNLIMITED - 1);
    }
  }
}
