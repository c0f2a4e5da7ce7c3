/** What a run of the documents' seed does to the rows, wherever it stops: it keeps them sound,
    rows only join, and they join under the entries' own places. */
module DocumentSeedRuns {
  import opened Forest
  import opened Events
  import opened Documents
  import opened DocumentAnswers
  import opened DocumentStore
  import opened DocumentSeed

  // ---- Each transaction ----

  lemma FindDirIs(h: Hierarchy, parent: Id, name: string, d: Id)
    requires UniqueDirs(h.dirs) && d in h.dirs && h.dirs[d].parent == parent && h.dirs[d].name == Plain(name)
    ensures FindDir(h, parent, name) == Some(d)
  {
  }

  lemma FindFileIs(h: Hierarchy, parent: Id, name: string, f: FileId)
    requires UniqueFiles(h.files) && f in h.files && h.files[f].directory == parent && h.files[f].name == name
    ensures FindFile(h, parent, name) == Some(f)
  {
  }

  lemma EnsureDirectoryKeeps(org: Id, root: Id, parent: Id, e: Entry, s: Snapshot)
    requires Sound(s.rows) && parent in s.rows.dirs && ValidName(e.name)
    ensures var r := EnsureDirectory(org, root, parent, e, s);
            && Sound(r.store.rows) && Persists(s.rows, r.store.rows)
            && (r.store.rows == s.rows || (r.created && r.dir == Some(e.id) && e.id !in s.rows.dirs
                  && r.store.rows == PutDir(s.rows, e.id, Directory(parent, Plain(e.name), Active, 1))))
            && (r.dir.Some? ==>
                  && FindDir(r.store.rows, parent, e.name) == r.dir && r.dir.value in r.store.rows.dirs
                  && r.store.rows.dirs[r.dir.value] == Directory(parent, Plain(e.name), Active, r.store.rows.dirs[r.dir.value].version))
            && (r.dir.None? ==> r.store == s && !r.created)
            && (if r.created then |r.store.log| == |s.log| + 1 else r.store.log == s.log)
  {
    hide IsForest, Binds, UniqueFiles, Housed;
    var h := s.rows;
    var r := EnsureDirectory(org, root, parent, e, s);
    if r.created {
      var row := Directory(parent, Plain(e.name), Active, 1);
      ParentStands(h, parent);
      assert RunCreate(h, org, root, parent, e.name, e.id, true).Committed?;
      CreateKeeps(h, org, root, parent, e.name, e.id, true);
      FindDirIs(PutDir(h, e.id, row), parent, e.name, e.id);
    }
  }

  lemma BeginFileKeeps(parent: Id, e: Entry, s: Snapshot)
    requires Sound(s.rows) && parent in s.rows.dirs && ValidName(e.name)
    ensures var r := BeginFile(parent, e, s);
            && Sound(r.store.rows) && Persists(s.rows, r.store.rows) && r.store.log == s.log
            && (r.store == s || (Fixed(e.id) !in s.rows.files && r.pending
                  && r.store.rows == PutFile(s.rows, Fixed(e.id), File(parent, e.name, e.contentType, Pending, None, 1))))
            && (r.pending ==>
                  && Fixed(e.id) in r.store.rows.files && FindFile(r.store.rows, parent, e.name) == Some(Fixed(e.id))
                  && r.store.rows.files[Fixed(e.id)].status == Pending)
            && (!r.pending ==> r.store == s)
  {
    hide IsForest, Binds, UniqueDirs;
    var h := s.rows;
    var r := BeginFile(parent, e, s);
    if r.store != s {
      PutFileKeeps(h, Fixed(e.id), File(parent, e.name, e.contentType, Pending, None, 1));
      FindFileIs(r.store.rows, parent, e.name, Fixed(e.id));
    }
  }

  lemma CompleteFileKeeps(org: Id, parent: Id, e: Entry, s: Snapshot)
    requires Sound(s.rows) && Fixed(e.id) in s.rows.files && FindFile(s.rows, parent, e.name) == Some(Fixed(e.id))
    ensures var s' := CompleteFile(org, e, s);
            && Sound(s'.rows) && Persists(s.rows, s'.rows) && |s'.log| == |s.log| + 1
            && s'.rows.dirs == s.rows.dirs && s'.rows.files.Keys == s.rows.files.Keys
            && FindFile(s'.rows, parent, e.name) == Some(Fixed(e.id)) && s'.rows.files[Fixed(e.id)].status == Available
  {
    hide IsForest, Bound, UniqueDirs, UniqueFiles, FindFile, Housed, Persists;
    var row := s.rows.files[Fixed(e.id)];
    FoundThere(s.rows, parent, e.name, Fixed(e.id));
    var done := row.(status := Available, stored := Some(ContentOf(e)), version := row.version + 1);
    FileKeeps(s.rows, Fixed(e.id), done);
    FindFileIs(PutFile(s.rows, Fixed(e.id), done), parent, e.name, Fixed(e.id));
    PutFilePersists(s.rows, Fixed(e.id), done);
  }

  lemma FoundThere(h: Hierarchy, parent: Id, name: string, f: FileId)
    requires FindFile(h, parent, name) == Some(f)
    ensures f in h.files && h.files[f].directory == parent && h.files[f].name == name
  {
  }

  lemma PutFilePersists(h: Hierarchy, f: FileId, row: File)
    requires f in h.files && row.directory == h.files[f].directory && row.name == h.files[f].name && row.status != Pending
    ensures Persists(h, PutFile(h, f, row)) && PutFile(h, f, row).files.Keys == h.files.Keys
  {
  }

  lemma PersistsOn(h: Hierarchy, h1: Hierarchy, h2: Hierarchy)
    requires Persists(h, h1) && Persists(h1, h2)
    ensures Persists(h, h2)
  {
  }

  // ---- What each transaction answers ----

  /** The entry's directory is found by its name, whoever made it, and its own entries go on in it
      unless it is deleting; where none has the name it is created under the entry's id with its
      event; and where the id is another directory's, or the parent is deleting, it is left. */
  ghost predicate EnsuresEntry(s: Snapshot, r: Ensured, org: Id, root: Id, parent: Id, e: Entry) {
    var h := s.rows;
    var closed := e.id in h.dirs || e.id == TOP || (parent in h.dirs && h.dirs[parent].status == Deleting);
    && (forall d :: d in h.dirs && h.dirs[d].parent == parent && h.dirs[d].name == Plain(e.name) ==>
          r == Ensured(s, if h.dirs[d].status == Active then Some(d) else None, false))
    && ((forall d :: d in h.dirs ==> h.dirs[d].parent != parent || h.dirs[d].name != Plain(e.name)) ==>
          if closed then r == Ensured(s, None, false)
          else
            && r.dir == Some(e.id) && r.created
            && r.store.rows == Hierarchy(h.dirs[e.id := Directory(parent, Plain(e.name), Active, 1)], h.files, h.roots)
            && (e.id != root ==> r.store.log == s.log + [DirectoryCreated(DirectoryData(e.id, org, Some(parent), e.name, 1))]))
  }

  lemma EnsureAnswers(org: Id, root: Id, parent: Id, e: Entry, s: Snapshot)
    requires Sound(s.rows) && parent in s.rows.dirs
    ensures EnsuresEntry(s, EnsureDirectory(org, root, parent, e, s), org, root, parent, e)
  {
    ParentStands(s.rows, parent);
    hide IsForest, Binds, UniqueFiles, Housed;
  }

  /** The entry's file under its own id is written, or resumed where it is pending, and completed
      with its content and its event; another's file of the name, one complete already, and one
      whose id or directory is not free are left. */
  ghost predicate StoresEntry(s: Snapshot, t: Snapshot, stored: bool, org: Id, parent: Id, e: Entry) {
    var h, f := s.rows, Fixed(e.id);
    var closed := f in h.files || (parent in h.dirs && h.dirs[parent].status == Deleting);
    var named := exists g :: g in h.files && h.files[g].directory == parent && h.files[g].name == e.name;
    var own := f in h.files && h.files[f].directory == parent && h.files[f].name == e.name;
    && (stored <==> (own && h.files[f].status == Pending) || (!named && !closed))
    && (!stored ==> t == s)
    && (stored ==>
          var v, contentType := if own then h.files[f].version + 1 else 2, if own then h.files[f].contentType else e.contentType;
          var content := Some(Object(|e.content|, e.content));
          && t.rows == Hierarchy(h.dirs, h.files[f := File(parent, e.name, contentType, Available, content, v)], h.roots)
          && t.log == s.log + [FileUploaded(FileData(f, org, parent, e.name, contentType, content, v))])
  }

  lemma StoreAnswers(org: Id, parent: Id, e: Entry, s: Snapshot)
    requires Sound(s.rows)
    ensures var b := BeginFile(parent, e, s);
            && (b.pending ==> Fixed(e.id) in b.store.rows.files && StoresEntry(s, CompleteFile(org, e, b.store), true, org, parent, e))
            && (!b.pending ==> StoresEntry(s, b.store, false, org, parent, e))
  {
    BeginAnswers(parent, e, s);
    hide Sound, BeginFile;
    if BeginFile(parent, e, s).pending && Fixed(e.id) !in s.rows.files {
      var row := File(parent, e.name, e.contentType, Pending, None, 1);
      var done := File(parent, e.name, e.contentType, Available, Some(ContentOf(e)), 2);
      assert s.rows.files[Fixed(e.id) := row][Fixed(e.id) := done] == s.rows.files[Fixed(e.id) := done];
    }
  }

  lemma BeginAnswers(parent: Id, e: Entry, s: Snapshot)
    requires UniqueFiles(s.rows.files)
    ensures var h, f, b := s.rows, Fixed(e.id), BeginFile(parent, e, s);
            var own := f in h.files && h.files[f].directory == parent && h.files[f].name == e.name;
            var named := exists g :: g in h.files && h.files[g].directory == parent && h.files[g].name == e.name;
            && (b.pending <==> (own && h.files[f].status == Pending) || (!named && f !in h.files && !BeingDeletedIn(h, parent)))
            && b.store == if b.pending && !own then s.(rows := PutFile(h, f, File(parent, e.name, e.contentType, Pending, None, 1))) else s
  {
  }

  // ---- Where rows join ----

  /** A place under the parent by a listed name, or beneath a directory that has one. */
  ghost predicate Joined(h: Hierarchy, parent: Id, entries: seq<Entry>, place: Id, name: string) {
    || (place == parent && Listed(entries, name))
    || (exists c :: c in h.dirs && h.dirs[c].parent == parent && h.dirs[c].name.Plain? && Listed(entries, h.dirs[c].name.text)
          && Within(ParentsIn(h), place, c))
  }

  ghost predicate GrowsAt(h: Hierarchy, h': Hierarchy, parent: Id, entries: seq<Entry>) {
    && (forall d :: d in h'.dirs && d !in h.dirs ==>
          h'.dirs[d].parent in h'.dirs && h'.dirs[d].name.Plain? && Joined(h', parent, entries, h'.dirs[d].parent, h'.dirs[d].name.text))
    && (forall f :: f in h'.files && f !in h.files ==>
          h'.files[f].directory in h'.dirs && Joined(h', parent, entries, h'.files[f].directory, h'.files[f].name))
  }

  lemma JoinedOn(h: Hierarchy, h': Hierarchy, parent: Id, entries: seq<Entry>, more: seq<Entry>, place: Id,
          name: string)
    requires Persists(h, h') && IsForest(ParentsIn(h)) && IsForest(ParentsIn(h')) && place in h.dirs
    requires Joined(h, parent, entries, place, name) && (forall n :: Listed(entries, n) ==> Listed(more, n))
    ensures Joined(h', parent, more, place, name)
  {
    hide IsForest, Listed;
    if !(place == parent && Listed(entries, name)) {
      var c :| c in h.dirs && h.dirs[c].parent == parent && h.dirs[c].name.Plain? && Listed(entries, h.dirs[c].name.text)
               && Within(ParentsIn(h), place, c);
      WithinPersists(h, h', place, c);
      assert h'.dirs[c] == h.dirs[c];
    }
  }

  lemma GrowsOn(h: Hierarchy, h1: Hierarchy, h2: Hierarchy, parent: Id, first: seq<Entry>, rest: seq<Entry>,
          all: seq<Entry>)
    requires Persists(h1, h2) && IsForest(ParentsIn(h1)) && IsForest(ParentsIn(h2))
    requires GrowsAt(h, h1, parent, first) && GrowsAt(h1, h2, parent, rest)
    requires forall n :: Listed(first, n) || Listed(rest, n) ==> Listed(all, n)
    ensures GrowsAt(h, h2, parent, all)
  {
    hide IsForest, Listed, Joined;
    forall d | d in h2.dirs && d !in h.dirs
      ensures h2.dirs[d].parent in h2.dirs && h2.dirs[d].name.Plain?
      ensures Joined(h2, parent, all, h2.dirs[d].parent, h2.dirs[d].name.text)
    {
      if d in h1.dirs {
        JoinedOn(h1, h2, parent, first, all, h1.dirs[d].parent, h1.dirs[d].name.text);
      } else {
        JoinedMore(h2, parent, rest, all, h2.dirs[d].parent, h2.dirs[d].name.text);
      }
    }
    forall f | f in h2.files && f !in h.files
      ensures h2.files[f].directory in h2.dirs && Joined(h2, parent, all, h2.files[f].directory, h2.files[f].name)
    {
      if f in h1.files {
        JoinedOn(h1, h2, parent, first, all, h1.files[f].directory, h1.files[f].name);
      } else {
        JoinedMore(h2, parent, rest, all, h2.files[f].directory, h2.files[f].name);
      }
    }
  }

  lemma JoinedMore(h: Hierarchy, parent: Id, entries: seq<Entry>, more: seq<Entry>, place: Id, name: string)
    requires Joined(h, parent, entries, place, name) && (forall n :: Listed(entries, n) ==> Listed(more, n))
    ensures Joined(h, parent, more, place, name)
  {
    hide Listed, Within;
  }

  /** What joined under a directory's entries joined beneath the directory itself. */
  lemma JoinedIsBelow(h: Hierarchy, d: Id, entries: seq<Entry>, place: Id, name: string)
    requires d in h.dirs && Joined(h, d, entries, place, name)
    ensures Within(ParentsIn(h), place, d)
  {
    hide Listed;
    if place == d {
      WithinSelf(ParentsIn(h), d);
    } else {
      var c :| c in h.dirs && h.dirs[c].parent == d && Within(ParentsIn(h), place, c);
      WithinSelf(ParentsIn(h), d);
      WithinStep(ParentsIn(h), c, d);
      WithinTransitive(ParentsIn(h), place, c, d);
    }
  }

  lemma GrowsBelow(h: Hierarchy, h': Hierarchy, parent: Id, e: Entry, d: Id, entries: seq<Entry>)
    requires GrowsAt(h, h', d, entries)
    requires d in h'.dirs && h'.dirs[d].parent == parent && h'.dirs[d].name == Plain(e.name)
    ensures GrowsAt(h, h', parent, [e])
  {
    hide Within, Joined;
    assert Listed([e], e.name) by {
      assert [e][0].name == e.name;
    }
    hide Listed;
    forall x | x in h'.dirs && x !in h.dirs
      ensures Joined(h', parent, [e], h'.dirs[x].parent, h'.dirs[x].name.text)
    {
      BelowIsJoined(h', parent, e, d, entries, h'.dirs[x].parent, h'.dirs[x].name.text);
    }
    forall f | f in h'.files && f !in h.files
      ensures Joined(h', parent, [e], h'.files[f].directory, h'.files[f].name)
    {
      BelowIsJoined(h', parent, e, d, entries, h'.files[f].directory, h'.files[f].name);
    }
  }

  lemma BelowIsJoined(h: Hierarchy, parent: Id, e: Entry, d: Id, entries: seq<Entry>, place: Id, name: string)
    requires d in h.dirs && h.dirs[d].parent == parent && h.dirs[d].name == Plain(e.name) && Listed([e], e.name)
    requires Joined(h, d, entries, place, name)
    ensures Joined(h, parent, [e], place, name)
  {
    hide Listed;
    JoinedIsBelow(h, d, entries, place, name);
  }

  // ---- Every run, wherever it stops ----

  lemma ListedRest(entries: seq<Entry>)
    requires entries != []
    ensures forall n :: Listed([entries[0]], n) || Listed(entries[1..], n) ==> Listed(entries, n)
  {
    forall n | Listed(entries[1..], n)
      ensures Listed(entries, n)
    {
      var i :| 0 <= i < |entries[1..]| && entries[1..][i].name == n;
      assert entries[i + 1].name == n;
    }
    forall n | Listed([entries[0]], n)
      ensures Listed(entries, n)
    {
      assert entries[0].name == n;
    }
  }

  lemma NothingGrows(h: Hierarchy, h': Hierarchy, parent: Id, entries: seq<Entry>)
    requires h'.dirs.Keys == h.dirs.Keys && h'.files.Keys == h.files.Keys
    ensures GrowsAt(h, h', parent, entries)
  {
  }

  lemma PersistsSelf(h: Hierarchy)
    ensures Persists(h, h)
  {
  }

  lemma InsertedGrows(h: Hierarchy, h': Hierarchy, parent: Id, e: Entry)
    requires parent in h.dirs
    requires (exists d, row: Directory :: h' == PutDir(h, d, row) && row.parent == parent && row.name == Plain(e.name))
          || (exists f, row: File :: h' == PutFile(h, f, row) && row.directory == parent && row.name == e.name)
    ensures GrowsAt(h, h', parent, [e])
  {
    assert [e][0].name == e.name;
    hide Within;
  }

  /** A run keeps the rows sound, rows only join, under the entries' places, and each entry
      created or completed is one event. */
  lemma {:induction false} SeedEntriesKeep(org: Id, root: Id, parent: Id, entries: seq<Entry>, s: Snapshot, left: int)
    requires Sound(s.rows) && parent in s.rows.dirs
    ensures var p := SeedEntries(org, root, parent, entries, s, left);
            && Sound(p.store.rows) && Persists(s.rows, p.store.rows) && GrowsAt(s.rows, p.store.rows, parent, entries)
            && |p.store.log| == |s.log| + p.created
    decreases entries, 0
  {
    hide Sound, Persists, GrowsAt, Listed;
    if entries == [] {
      PersistsSelf(s.rows);
      NothingGrows(s.rows, s.rows, parent, entries);
    } else {
      SeedEntryKeeps(org, root, parent, entries[0], s, left);
      ListedRest(entries);
      var p := SeedEntry(org, root, parent, entries[0], s, left);
      if p.halt.Some? {
        ForestOf(p.store.rows);
        PersistsSelf(p.store.rows);
        NothingGrows(p.store.rows, p.store.rows, parent, entries[1..]);
        GrowsOn(s.rows, p.store.rows, p.store.rows, parent, [entries[0]], entries[1..], entries);
      } else {
        RowPersists(s.rows, p.store.rows, parent);
        SeedEntriesKeep(org, root, parent, entries[1..], p.store, p.left);
        var q := SeedEntries(org, root, parent, entries[1..], p.store, p.left);
        PersistsOn(s.rows, p.store.rows, q.store.rows);
        ForestOf(p.store.rows);
        ForestOf(q.store.rows);
        GrowsOn(s.rows, p.store.rows, q.store.rows, parent, [entries[0]], entries[1..], entries);
      }
    }
  }

  lemma RowPersists(h: Hierarchy, h': Hierarchy, d: Id)
    requires Persists(h, h') && d in h.dirs
    ensures d in h'.dirs && h'.dirs[d] == h.dirs[d]
  {
  }

  lemma {:induction false} SeedEntryKeeps(org: Id, root: Id, parent: Id, e: Entry, s: Snapshot, left: int)
    requires Sound(s.rows) && parent in s.rows.dirs
    ensures var p := SeedEntry(org, root, parent, e, s, left);
            && Sound(p.store.rows) && Persists(s.rows, p.store.rows) && GrowsAt(s.rows, p.store.rows, parent, [e])
            && |p.store.log| == |s.log| + p.created
    decreases e, 1
  {
    hide Sound, Persists, GrowsAt, Listed, EnsureDirectory, BeginFile, CompleteFile;
    var p := SeedEntry(org, root, parent, e, s, left);
    PersistsSelf(s.rows);
    NothingGrows(s.rows, s.rows, parent, [e]);
    if !(KindOf(e).Both? || KindOf(e).Neither? || !ValidName(e.name) || left == 0) {
      if KindOf(e).IsDirectory? {
        var d := EnsureDirectory(org, root, parent, e, s);
        EnsureDirectoryKeeps(org, root, parent, e, s);
        if d.store.rows != s.rows {
          InsertedGrows(s.rows, d.store.rows, parent, e);
        }
        if d.dir.Some? {
          SeedEntriesKeep(org, root, d.dir.value, e.entries, d.store, left - 1);
          PersistsOn(s.rows, d.store.rows, p.store.rows);
          RowPersists(d.store.rows, p.store.rows, d.dir.value);
          GrowsBelow(d.store.rows, p.store.rows, parent, e, d.dir.value, e.entries);
          ForestOf(d.store.rows);
          ForestOf(p.store.rows);
          GrowsOn(s.rows, d.store.rows, p.store.rows, parent, [e], [e], [e]);
        }
      } else {
        FileEntryKeeps(org, root, parent, e, s, left);
      }
    }
  }

  lemma FileEntryKeeps(org: Id, root: Id, parent: Id, e: Entry, s: Snapshot, left: int)
    requires Sound(s.rows) && parent in s.rows.dirs && KindOf(e).IsFile? && ValidName(e.name) && left != 0
    ensures var p := SeedEntry(org, root, parent, e, s, left);
            && Sound(p.store.rows) && Persists(s.rows, p.store.rows) && GrowsAt(s.rows, p.store.rows, parent, [e])
            && |p.store.log| == |s.log| + p.created
  {
    hide Sound, Persists, GrowsAt, Listed, BeginFile, CompleteFile, FindFile;
    var b := BeginFile(parent, e, s);
    BeginFileKeeps(parent, e, s);
    NothingGrows(s.rows, s.rows, parent, [e]);
    if b.store != s {
      InsertedGrows(s.rows, b.store.rows, parent, e);
    }
    if b.pending {
      CompleteFileKeeps(org, parent, e, b.store);
      var c := CompleteFile(org, e, b.store);
      PersistsOn(s.rows, b.store.rows, c.rows);
      NothingGrows(b.store.rows, c.rows, parent, [e]);
      ForestOf(b.store.rows);
      ForestOf(c.rows);
      GrowsOn(s.rows, b.store.rows, c.rows, parent, [e], [e], [e]);
    }
  }
}
