/** An organization's whole seeded hierarchy: reruns, what a run counts, and the file an
    abandon leaves deleting. */
module DocumentSeedTree {
  import opened Forest
  import opened Events
  import opened Documents
  import opened DocumentScope
  import opened DocumentAnswers
  import opened DocumentStore
  import opened DocumentSeed
  import opened DocumentSeedRuns
  import opened DocumentSeedResume

  ghost function FullTree(org: Id, stands: bool, rootId: Id, entries: seq<Entry>, s: Snapshot): Progress {
    SeedTree(org, stands, rootId, entries, s, UNLIMITED)
  }

  lemma RootFound(org: Id, stands: bool, rootId: Id, s: Snapshot)
    requires Sound(s.rows) && rootId != TOP
    ensures var r := RunEnsureRoot(s.rows, org, stands, rootId);
            r.Committed? ==> Sound(r.after) && org in r.after.roots && r.after.roots[org] in r.after.dirs
  {
    hide IsForest, Unique, Housed;
    if RunEnsureRoot(s.rows, org, stands, rootId).Committed? {
      EnsureRootKeeps(s.rows, org, stands, rootId);
    }
  }

  lemma RootStaysFound(org: Id, stands: bool, rootId: Id, s: Snapshot)
    requires org in s.rows.roots
    ensures RunEnsureRoot(s.rows, org, stands, rootId) == Committed(s.rows, None)
    ensures Step(s, EnsureRoot(org, stands, rootId)) == s
  {
  }

  /** Interrupted anywhere, the root's transaction and every entry's among the places, a
      hierarchy's seed run again to its end reaches the rows one run would have reached and
      has committed the events one run commits, in the same order. */
  lemma TreeResumes(org: Id, stands: bool, rootId: Id, entries: seq<Entry>, s: Snapshot, left: int)
    requires Sound(s.rows) && rootId != TOP && WellFormed(entries)
    ensures var p := SeedTree(org, stands, rootId, entries, s, left);
            var again, once := FullTree(org, stands, rootId, entries, p.store), FullTree(org, stands, rootId, entries, s);
            again.store == once.store && p.created + again.created == once.created
  {
    hide Sound, Persists, SeedEntries, WellFormed, RunEnsureRoot;
    if left != 0 && RunEnsureRoot(s.rows, org, stands, rootId).Committed? {
      RootFound(org, stands, rootId, s);
      var rooted := Step(s, EnsureRoot(org, stands, rootId));
      var root := rooted.rows.roots[org];
      var p := SeedEntries(org, root, root, entries, rooted, left - 1);
      SeedEntriesKeep(org, root, root, entries, rooted, left - 1);
      RootsPersist(rooted.rows, p.store.rows);
      RootStaysFound(org, stands, rootId, p.store);
      Resumes(org, root, root, entries, rooted, left - 1);
      BelowUnlimited(org, root, root, entries, rooted);
      BelowUnlimited(org, root, root, entries, p.store);
    }
  }

  lemma RootsPersist(h: Hierarchy, h': Hierarchy)
    requires Persists(h, h')
    ensures h'.roots == h.roots
  {
  }

  /** Runs that each stop where they may. */
  ghost function Interrupted(org: Id, stands: bool, rootId: Id, entries: seq<Entry>, s: Snapshot, stops: seq<int>): Snapshot
    decreases |stops|
  {
    if stops == [] then s
    else Interrupted(org, stands, rootId, entries, SeedTree(org, stands, rootId, entries, s, stops[0]).store, stops[1..])
  }

  lemma TreeKeepsSound(org: Id, stands: bool, rootId: Id, entries: seq<Entry>, s: Snapshot, left: int)
    requires Sound(s.rows) && rootId != TOP
    ensures Sound(SeedTree(org, stands, rootId, entries, s, left).store.rows)
  {
    hide Sound, RunEnsureRoot, Persists, SeedEntries;
    RootFound(org, stands, rootId, s);
    if left != 0 && RunEnsureRoot(s.rows, org, stands, rootId).Committed? {
      var rooted := Step(s, EnsureRoot(org, stands, rootId));
      SeedEntriesKeep(org, rooted.rows.roots[org], rooted.rows.roots[org], entries, rooted, left - 1);
    }
  }

  /** However many runs stopped, and wherever, the one that ends reaches the same. */
  lemma {:induction false} AnyStopsResume(org: Id, stands: bool, rootId: Id, entries: seq<Entry>, s: Snapshot,
          stops: seq<int>)
    requires Sound(s.rows) && rootId != TOP && WellFormed(entries)
    ensures FullTree(org, stands, rootId, entries, Interrupted(org, stands, rootId, entries, s, stops)).store
         == FullTree(org, stands, rootId, entries, s).store
    decreases |stops|
  {
    hide SeedTree, FullTree, Sound, WellFormed;
    if stops != [] {
      TreeResumes(org, stands, rootId, entries, s, stops[0]);
      TreeKeepsSound(org, stands, rootId, entries, s, stops[0]);
      AnyStopsResume(org, stands, rootId, entries, SeedTree(org, stands, rootId, entries, s, stops[0]).store, stops[1..]);
    }
  }

  /** A second run creates nothing, changes nothing, and commits nothing. */
  lemma SecondRunIsNothing(org: Id, stands: bool, rootId: Id, entries: seq<Entry>, s: Snapshot)
    requires Sound(s.rows) && rootId != TOP && WellFormed(entries)
    ensures var once := FullTree(org, stands, rootId, entries, s);
            var again := FullTree(org, stands, rootId, entries, once.store);
            again.store == once.store && again.created == 0
  {
    hide SeedTree, Sound, WellFormed;
    TreeResumes(org, stands, rootId, entries, s, UNLIMITED);
  }

  // ---- What a run counts ----

  /** The entries of a hierarchy, directories and files, the root not among them. */
  function Size(entries: seq<Entry>): nat
    decreases entries, 0
  {
    if entries == [] then 0 else SizeOf(entries[0]) + Size(entries[1..])
  }

  function SizeOf(e: Entry): nat
    decreases e, 1
  {
    1 + if e.listed then Size(e.entries) else 0
  }

  function DirIds(entries: seq<Entry>): set<nat>
    decreases entries, 0
  {
    if entries == [] then {} else DirIdsOf(entries[0]) + DirIds(entries[1..])
  }

  function DirIdsOf(e: Entry): set<nat>
    decreases e, 1
  {
    if KindOf(e).IsDirectory? then {e.id} + DirIds(e.entries) else {}
  }

  function FileIds(entries: seq<Entry>): set<FileId>
    decreases entries, 0
  {
    if entries == [] then {} else FileIdsOf(entries[0]) + FileIds(entries[1..])
  }

  function FileIdsOf(e: Entry): set<FileId>
    decreases e, 1
  {
    if KindOf(e).IsDirectory? then FileIds(e.entries) else {Fixed(e.id)}
  }

  /** No id twice among the directories, nor among the files. */
  predicate DistinctIds(entries: seq<Entry>)
    decreases entries, 0
  {
    entries != [] ==>
      && DistinctIdsOf(entries[0]) && DistinctIds(entries[1..])
      && DirIdsOf(entries[0]) !! DirIds(entries[1..]) && FileIdsOf(entries[0]) !! FileIds(entries[1..])
  }

  predicate DistinctIdsOf(e: Entry)
    decreases e, 1
  {
    KindOf(e).IsDirectory? ==> e.id != TOP && e.id !in DirIds(e.entries) && DistinctIds(e.entries)
  }

  /** Nothing of the entries is there yet, by name or by id. */
  ghost predicate Absent(h: Hierarchy, parent: Id, entries: seq<Entry>) {
    && (forall d :: d in DirIds(entries) ==> d !in h.dirs)
    && (forall f :: f in FileIds(entries) ==> f !in h.files)
    && (forall d :: d in h.dirs && h.dirs[d].parent == parent && h.dirs[d].name.Plain? ==> !Listed(entries, h.dirs[d].name.text))
    && (forall f :: f in h.files && h.files[f].directory == parent ==> !Listed(entries, h.files[f].name))
  }

  ghost predicate AbsentEntry(h: Hierarchy, parent: Id, e: Entry) {
    && (forall d :: d in DirIdsOf(e) ==> d !in h.dirs)
    && (forall f :: f in FileIdsOf(e) ==> f !in h.files)
    && FindDir(h, parent, e.name).None? && FindFile(h, parent, e.name).None?
  }

  ghost predicate Gained(h: Hierarchy, h': Hierarchy, dirs: set<nat>, files: set<FileId>) {
    h'.dirs.Keys == h.dirs.Keys + dirs && h'.files.Keys == h.files.Keys + files
  }

  lemma AbsentFirst(h: Hierarchy, parent: Id, entries: seq<Entry>)
    requires entries != [] && Absent(h, parent, entries)
    ensures AbsentEntry(h, parent, entries[0])
  {
    ListedFirst(entries);
  }

  lemma ListedFirst(entries: seq<Entry>)
    requires entries != []
    ensures Listed(entries, entries[0].name)
  {
  }

  lemma ListedOne(e: Entry)
    ensures forall n :: Listed([e], n) <==> n == e.name
  {
    assert [e][0].name == e.name;
  }

  lemma AbsentRest(h: Hierarchy, h': Hierarchy, parent: Id, entries: seq<Entry>)
    requires entries != [] && Absent(h, parent, entries) && Sound(h') && Persists(h, h')
    requires GrowsAt(h, h', parent, [entries[0]]) && !Listed(entries[1..], entries[0].name) && DistinctIds(entries)
    requires Gained(h, h', DirIdsOf(entries[0]), FileIdsOf(entries[0]))
    ensures Absent(h', parent, entries[1..])
  {
    hide Sound, GrowsAt, Within;
    var rest := entries[1..];
    ListedRest(entries);
    forall n | Listed(rest, n)
      ensures QuietAt(h, h', parent, n)
    {
      ListedOne(entries[0]);
      GrowsElsewhere(h, h', parent, [entries[0]], n);
    }
    hide Listed, Quiet;
    forall d | d in h'.dirs && h'.dirs[d].parent == parent && h'.dirs[d].name.Plain?
      ensures !Listed(rest, h'.dirs[d].name.text)
    {
      assert Listed(rest, h'.dirs[d].name.text) ==> QuietAt(h, h', parent, h'.dirs[d].name.text);
    }
    forall f | f in h'.files && h'.files[f].directory == parent
      ensures !Listed(rest, h'.files[f].name)
    {
      assert Listed(rest, h'.files[f].name) ==> QuietAt(h, h', parent, h'.files[f].name);
    }
  }

  /** Where nothing of the entries stands yet, a full run creates them all. */
  lemma {:induction false} CreatesAll(org: Id, root: Id, parent: Id, entries: seq<Entry>, s: Snapshot)
    requires Sound(s.rows) && parent in s.rows.dirs && s.rows.dirs[parent].status == Active
    requires WellFormed(entries) && DistinctIds(entries) && Absent(s.rows, parent, entries)
    ensures var p := Full(org, root, parent, entries, s);
            p.created == Size(entries) && Gained(s.rows, p.store.rows, DirIds(entries), FileIds(entries))
    decreases entries, 0
  {
    hide Sound, Persists, GrowsAt, Listed, Full, FullEntry, AbsentEntry;
    if entries == [] {
      EmptyRun(org, root, parent, s, UNLIMITED);
    } else {
      var e := entries[0];
      var first := FullEntry(org, root, parent, e, s);
      AbsentFirst(s.rows, parent, entries);
      CreatesEntry(org, root, parent, e, s);
      FullEntryKeeps(org, root, parent, e, s);
      RowPersists(s.rows, first.store.rows, parent);
      AbsentRest(s.rows, first.store.rows, parent, entries);
      hide Absent;
      CreatesAll(org, root, parent, entries[1..], first.store);
      FullStep(org, root, parent, entries, s);
    }
  }

  lemma FullEntryKeeps(org: Id, root: Id, parent: Id, e: Entry, s: Snapshot)
    requires Sound(s.rows) && parent in s.rows.dirs
    ensures var p := FullEntry(org, root, parent, e, s);
            Sound(p.store.rows) && Persists(s.rows, p.store.rows) && GrowsAt(s.rows, p.store.rows, parent, [e])
  {
    hide Sound, Persists, GrowsAt, SeedEntry;
    SeedEntryKeeps(org, root, parent, e, s, UNLIMITED);
  }

  lemma {:induction false} CreatesEntry(org: Id, root: Id, parent: Id, e: Entry, s: Snapshot)
    requires Sound(s.rows) && parent in s.rows.dirs && s.rows.dirs[parent].status == Active
    requires WellFormedEntry(e) && DistinctIdsOf(e) && AbsentEntry(s.rows, parent, e)
    ensures var p := FullEntry(org, root, parent, e, s);
            p.created == SizeOf(e) && Gained(s.rows, p.store.rows, DirIdsOf(e), FileIdsOf(e))
    decreases e, 1
  {
    hide Sound, Listed, Full, Absent, FindDir, FindFile;
    if KindOf(e).IsDirectory? {
      var d := EnsureDirectory(org, root, parent, e, s);
      CreatesOne(org, root, parent, e, s);
      hide EnsureDirectory;
      NothingUnder(s.rows, d.store.rows, e);
      CreatesAll(org, root, e.id, e.entries, d.store);
      BelowUnlimited(org, root, e.id, e.entries, d.store);
    } else {
      BeginFileKeeps(parent, e, s);
      CompleteFileKeeps(org, parent, e, BeginFile(parent, e, s).store);
    }
  }

  lemma CreatesOne(org: Id, root: Id, parent: Id, e: Entry, s: Snapshot)
    requires Sound(s.rows) && parent in s.rows.dirs && s.rows.dirs[parent].status == Active
    requires WellFormedEntry(e) && DistinctIdsOf(e) && AbsentEntry(s.rows, parent, e) && KindOf(e).IsDirectory?
    ensures var d := EnsureDirectory(org, root, parent, e, s);
            && d.created && d.dir == Some(e.id) && Sound(d.store.rows)
            && d.store.rows == PutDir(s.rows, e.id, Directory(parent, Plain(e.name), Active, 1))
  {
    hide Sound, Listed, Absent, FindDir, FindFile;
    EnsureDirectoryKeeps(org, root, parent, e, s);
  }

  lemma NothingUnder(h: Hierarchy, h': Hierarchy, e: Entry)
    requires Sound(h) && KindOf(e).IsDirectory? && e.id !in h.dirs && e.id != TOP && e.id !in DirIds(e.entries)
    requires exists row: Directory :: h' == PutDir(h, e.id, row) && row.parent in h.dirs
    requires forall d :: d in DirIds(e.entries) ==> d !in h.dirs
    requires forall f :: f in FileIds(e.entries) ==> f !in h.files
    ensures Absent(h', e.id, e.entries)
  {
    hide Bound, Unique, Listed;
    forall d | d in h.dirs
      ensures h.dirs[d].parent != e.id
    {
      ParentStands(h, d);
    }
    hide IsForest;
  }

  /** On a schema that holds none of it, a hierarchy's seed counts every entry, commits an
      event for each and one more for the root it creates. */
  lemma EmptySchemaCounts(org: Id, rootId: Id, entries: seq<Entry>, s: Snapshot)
    requires Sound(s.rows) && org !in s.rows.roots && rootId != TOP && rootId !in s.rows.dirs
    requires WellFormed(entries) && DistinctIds(entries) && rootId !in DirIds(entries)
    requires forall d :: d in DirIds(entries) ==> d !in s.rows.dirs
    requires forall f :: f in FileIds(entries) ==> f !in s.rows.files
    ensures var p := FullTree(org, true, rootId, entries, s);
            && p.created == Size(entries) && |p.store.log| == |s.log| + Size(entries) + 1
            && p.store.rows.dirs.Keys == s.rows.dirs.Keys + {rootId} + DirIds(entries)
            && p.store.rows.files.Keys == s.rows.files.Keys + FileIds(entries)
  {
    hide Sound, Persists, GrowsAt, SeedEntries, RunEnsureRoot, Absent, Size, DirIds, FileIds, WellFormed, DistinctIds;
    RootCreated(org, rootId, s);
    EnsureRootKeeps(s.rows, org, true, rootId);
    var rooted := Step(s, EnsureRoot(org, true, rootId));
    RootIsEmpty(s.rows, rooted.rows, rootId, entries);
    CreatesAll(org, rootId, rootId, entries, rooted);
    BelowUnlimited(org, rootId, rootId, entries, rooted);
    SeedEntriesKeep(org, rootId, rootId, entries, rooted, UNLIMITED - 1);
  }

  lemma RootCreated(org: Id, rootId: Id, s: Snapshot)
    requires Sound(s.rows) && org !in s.rows.roots && rootId != TOP && rootId !in s.rows.dirs
    ensures var row := Directory(TOP, OfOrganization(org), Active, 1);
            RunEnsureRoot(s.rows, org, true, rootId)
            == Committed(PutDir(s.rows, rootId, row).(roots := s.rows.roots[org := rootId]), Some(DirectoryCreated(Shown(org, rootId, rootId, row))))
  {
    hide IsForest, Unique, Housed;
  }

  lemma RootIsEmpty(h: Hierarchy, h': Hierarchy, rootId: Id, entries: seq<Entry>)
    requires Sound(h) && rootId != TOP && rootId !in h.dirs && rootId !in DirIds(entries)
    requires h'.dirs.Keys == h.dirs.Keys + {rootId} && h'.files == h.files
    requires h'.dirs[rootId].parent == TOP && forall d :: d in h.dirs ==> h'.dirs[d] == h.dirs[d]
    requires forall d :: d in DirIds(entries) ==> d !in h.dirs
    requires forall f :: f in FileIds(entries) ==> f !in h.files
    ensures Absent(h', rootId, entries)
  {
    hide Bound, Unique, Listed;
    forall d | d in h.dirs
      ensures h.dirs[d].parent != rootId
    {
      ParentStands(h, d);
    }
    hide IsForest;
  }

  // ---- The seed's transactions are the commands' own ----

  lemma ParentResolves(h: Hierarchy, org: Id, parent: Id)
    requires Bound(h) && Home(h, org, parent)
    ensures Scope(h, org, At(parent)) == In(h.roots[org], parent)
  {
  }

  /** A seed's directory is its create's transaction under the entry's id, with the event the
      create commits, wherever it changes anything. */
  lemma SeedDirectoryIsCreate(org: Id, parent: Id, e: Entry, s: Snapshot)
    requires Sound(s.rows) && Home(s.rows, org, parent) && ValidName(e.name)
    ensures var r := EnsureDirectory(org, s.rows.roots[org], parent, e, s);
            r.created ==> r.store == Step(s, CreateDirectory(org, At(parent), e.name, e.id, false))
    ensures !EnsureDirectory(org, s.rows.roots[org], parent, e, s).created ==>
              EnsureDirectory(org, s.rows.roots[org], parent, e, s).store == s
  {
    hide IsForest, Unique, Housed, Home;
    ParentResolves(s.rows, org, parent);
    hide Scope, Binds;
  }

  /** And a seed's file is an upload's two transactions. */
  lemma SeedFileIsUpload(org: Id, parent: Id, e: Entry, s: Snapshot)
    requires Sound(s.rows) && Home(s.rows, org, parent) && ValidName(e.name)
    ensures var b := BeginFile(parent, e, s);
            && (b.store != s ==> b.store == Step(s, BeginUpload(org, At(parent), e.name, e.contentType, Fixed(e.id), false)))
            && (b.pending && Fixed(e.id) in b.store.rows.files ==>
                  CompleteFile(org, e, b.store) == Step(b.store, Complete(org, Fixed(e.id), ContentOf(e), true)))
  {
    hide IsForest, Unique, Housed, Home;
    ParentResolves(s.rows, org, parent);
    hide Scope, Binds;
  }

  // ---- A file an abandon leaves deleting ----

  /** The rows an entry's file leaves when its write began, failed, and was abandoned: gone,
      or still deleting where the abandon's own second half failed. */
  ghost function Abandoned(parent: Id, e: Entry, s: Snapshot, removed: bool): Snapshot
    requires Fixed(e.id) in BeginFile(parent, e, s).store.rows.files
  {
    var begun := BeginFile(parent, e, s).store;
    if removed then begun.(rows := DropFile(begun.rows, Fixed(e.id)))
    else begun.(rows := PutFile(begun.rows, Fixed(e.id), begun.rows.files[Fixed(e.id)].(status := Doomed)))
  }

  /** A rerun stores the file exactly when the abandon removed its row; while the row stands
      deleting, a rerun leaves it and reports no failure. */
  lemma AbandonedResumesIfRemoved(org: Id, root: Id, parent: Id, e: Entry, s: Snapshot, removed: bool)
    requires Sound(s.rows) && parent in s.rows.dirs && WellFormedEntry(e) && KindOf(e).IsFile?
    requires FindFile(s.rows, parent, e.name).None? && BeginFile(parent, e, s).pending
    ensures Fixed(e.id) in BeginFile(parent, e, s).store.rows.files
    ensures var again := FullEntry(org, root, parent, e, Abandoned(parent, e, s, removed));
            && again.halt.None?
            && (removed ==> again.store == FullEntry(org, root, parent, e, s).store && again.created == 1)
            && (!removed ==> again.store == Abandoned(parent, e, s, removed) && again.created == 0)
            && (again.store == FullEntry(org, root, parent, e, s).store <==> removed)
  {
    hide IsForest, Bound, Housed, UniqueDirs;
    BeginFileKeeps(parent, e, s);
    var left := Abandoned(parent, e, s, removed);
    if removed {
      assert left.rows.files == s.rows.files;
      assert left == s;
    } else {
      DoomedFound(parent, e, s);
    }
  }

  lemma DoomedFound(parent: Id, e: Entry, s: Snapshot)
    requires Unique(s.rows) && FindFile(s.rows, parent, e.name).None? && BeginFile(parent, e, s).pending
    requires Fixed(e.id) in BeginFile(parent, e, s).store.rows.files
    ensures FindFile(Abandoned(parent, e, s, false).rows, parent, e.name) == Some(Fixed(e.id))
  {
    hide UniqueDirs;
    var h := Abandoned(parent, e, s, false).rows;
    assert UniqueFiles(h.files);
    FindFileIs(h, parent, e.name, Fixed(e.id));
  }
}
