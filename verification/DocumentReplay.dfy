/** What a consumer that replays the document events holds, beside the rows. A branch's mark
    raises one event for its top alone, and the sweep, the purges, and the abandons raise
    none, so a copy keeps entries whose rows are gone; what is reachable from a root in the
    copy is what is reachable through active directories in the rows. */
module DocumentReplay {
  import opened Forest
  import opened Events
  import opened Documents
  import opened DocumentScope

  datatype Copy = Copy(dirs: map<Id, DirectoryData>, files: map<FileId, FileData>)

  const NOTHING := Copy(map[], map[])

  /** A created, moved, or uploaded entry is kept as its event carries it, a deleted one is
      dropped alone, and a reset discards everything. */
  function Apply(copy: Copy, e: Event): Copy {
    match e
    case DirectoryCreated(d) => copy.(dirs := copy.dirs[d.id := d])
    case DirectoryMoved(d) => copy.(dirs := copy.dirs[d.id := d])
    case DirectoryDeleted(id, _, _) => copy.(dirs := copy.dirs - {id})
    case FileUploaded(f) => copy.(files := copy.files[f.id := f])
    case FileMoved(f) => copy.(files := copy.files[f.id := f])
    case FileDeleted(id, _, _) => copy.(files := copy.files - {id})
    case StateReset(_) => NOTHING
    case _ => copy
  }

  function ApplyIf(copy: Copy, e: Option<Event>): Copy {
    if e.Some? then Apply(copy, e.value) else copy
  }

  function Replay(log: seq<Event>): Copy {
    if log == [] then NOTHING else Apply(Replay(log[..|log| - 1]), log[|log| - 1])
  }

  lemma ReplayNext(log: seq<Event>, e: Event)
    ensures Replay(log + [e]) == Apply(Replay(log), e)
  {
    assert (log + [e])[..|log|] == log;
  }

  // ---- The two views ----

  predicate Stands(h: Hierarchy, d: Id) {
    d in h.dirs && h.dirs[d].status == Active
  }

  predicate Served(h: Hierarchy, f: FileId) {
    f in h.files && h.files[f].status == Available
  }

  /** Active, and every directory above it active, up to a root n or fewer steps away. */
  ghost predicate Reached(h: Hierarchy, d: Id, n: nat)
    decreases n
  {
    Stands(h, d) && (h.dirs[d].parent == TOP || (n > 0 && Reached(h, h.dirs[d].parent, n - 1)))
  }

  ghost predicate Visible(h: Hierarchy, d: Id) {
    exists n: nat :: Reached(h, d, n)
  }

  ghost predicate FileVisible(h: Hierarchy, f: FileId) {
    Served(h, f) && Visible(h, h.files[f].directory)
  }

  /** In the copy, with every directory above it, up to one without a parent. */
  ghost predicate Linked(copy: Copy, d: Id, n: nat)
    decreases n
  {
    d in copy.dirs && (copy.dirs[d].parent.None? || (n > 0 && Linked(copy, copy.dirs[d].parent.value, n - 1)))
  }

  ghost predicate Kept(copy: Copy, d: Id) {
    exists n: nat :: Linked(copy, d, n)
  }

  /** A file's entry with its size and entity tag, in a directory the copy keeps. */
  ghost predicate FileKept(copy: Copy, f: FileId) {
    f in copy.files && copy.files[f].stored.Some? && Kept(copy, copy.files[f].directory)
  }

  /** A directory's row as the events picture it. */
  function Picture(org: Id, d: Id, row: Directory): DirectoryData {
    DirectoryData(d, org, if row.parent == TOP then None else Some(row.parent),
                  if row.parent == TOP then "/" else if row.name.Plain? then row.name.text else "", row.version)
  }

  // ---- What the copy knows ----

  /** Every active directory is in the copy as it stands. */
  ghost predicate PicturesDirs(h: Hierarchy, copy: Copy) {
    forall d :: Stands(h, d) ==> d in copy.dirs && copy.dirs[d] == Picture(copy.dirs[d].organization, d, h.dirs[d])
  }

  /** Any other entry of the copy lies under a directory that is not active either. */
  ghost predicate BuriesDirs(h: Hierarchy, copy: Copy) {
    forall d :: d in copy.dirs && !Stands(h, d) ==> copy.dirs[d].parent.Some? && !Stands(h, copy.dirs[d].parent.value)
  }

  /** Every available file is in the copy as it stands. */
  ghost predicate PicturesFiles(h: Hierarchy, copy: Copy) {
    forall f :: Served(h, f) ==> f in copy.files && copy.files[f] == DataOf(copy.files[f].organization, f, h.files[f])
  }

  /** Any other complete file of the copy lies in a directory that is not active. */
  ghost predicate BuriesFiles(h: Hierarchy, copy: Copy) {
    forall f :: f in copy.files && copy.files[f].stored.Some? && !Served(h, f) ==> !Stands(h, copy.files[f].directory)
  }

  ghost predicate Agree(h: Hierarchy, copy: Copy) {
    PicturesDirs(h, copy) && BuriesDirs(h, copy) && PicturesFiles(h, copy) && BuriesFiles(h, copy)
  }

  lemma {:induction false} DepthsAgree(h: Hierarchy, copy: Copy, d: Id, n: nat)
    requires PicturesDirs(h, copy) && BuriesDirs(h, copy)
    ensures Reached(h, d, n) <==> Linked(copy, d, n)
    decreases n
  {
    if Stands(h, d) {
      if n > 0 && h.dirs[d].parent != TOP {
        DepthsAgree(h, copy, h.dirs[d].parent, n - 1);
      }
    } else if n > 0 && d in copy.dirs {
      DepthsAgree(h, copy, copy.dirs[d].parent.value, n - 1);
    }
  }

  /** Field by field the data is the directory's row: a root's has no parent and is named "/". */
  predicate ShowsDirectory(data: DirectoryData, d: Id, row: Directory) {
    && data.id == d && data.version == row.version
    && (row.parent == TOP ==> data.parent == None && data.name == "/")
    && (row.parent != TOP ==> data.parent == Some(row.parent) && (row.name.Plain? ==> data.name == row.name.text))
  }

  /** Field by field the data is the file's row. */
  predicate ShowsFile(data: FileData, f: FileId, row: File) {
    && data.id == f && data.directory == row.directory && data.name == row.name && data.contentType == row.contentType
    && data.stored == row.stored && data.version == row.version
  }

  /** A copy that agrees shows the directories the rows show and their available files, and
      nothing else, each as it stands. */
  lemma AgreeShows(h: Hierarchy, copy: Copy)
    requires Agree(h, copy) && Housed(h)
    ensures forall d :: Visible(h, d) <==> Kept(copy, d)
    ensures forall d :: Visible(h, d) ==> d in copy.dirs && ShowsDirectory(copy.dirs[d], d, h.dirs[d])
    ensures forall f :: FileVisible(h, f) <==> FileKept(copy, f)
    ensures forall f :: FileVisible(h, f) ==> f in copy.files && ShowsFile(copy.files[f], f, h.files[f])
  {
    forall d
      ensures Visible(h, d) <==> Kept(copy, d)
    {
      if Visible(h, d) {
        var n: nat :| Reached(h, d, n);
        DepthsAgree(h, copy, d, n);
      }
      if Kept(copy, d) {
        var n: nat :| Linked(copy, d, n);
        DepthsAgree(h, copy, d, n);
      }
    }
    VisibleStands(h);
    hide Visible, Kept;
  }

  lemma VisibleStands(h: Hierarchy)
    ensures forall d :: Visible(h, d) ==> Stands(h, d)
  {
  }

  // ---- The ways a transaction changes both ----

  /** No entry of the copy names the directory as the one above it. A minted id no entry
      names; a seed's fixed id may have been another directory's before. */
  ghost predicate NoOrphans(copy: Copy, d: Id) {
    && (forall x :: x in copy.dirs && x != d ==> copy.dirs[x].parent != Some(d))
    && (forall f :: f in copy.files && copy.files[f].stored.Some? ==> copy.files[f].directory != d)
  }

  /** An active directory's row written, with its event. */
  lemma WriteDirAgrees(h: Hierarchy, copy: Copy, d: Id, row: Directory, org: Id)
    requires Agree(h, copy) && row.status == Active && (Stands(h, d) || NoOrphans(copy, d))
    ensures Agree(PutDir(h, d, row), copy.(dirs := copy.dirs[d := Picture(org, d, row)]))
  {
  }

  lemma RootsAside(h: Hierarchy, copy: Copy, roots: map<Id, Id>)
    requires Agree(h, copy)
    ensures Agree(h.(roots := roots), copy)
  {
  }

  /** Rows no longer active or available, but for the one whose own event drops it from the
      copy: each lay under a directory no longer active. */
  ghost predicate Recedes(h: Hierarchy, h': Hierarchy, dropped: Option<Id>, removed: Option<FileId>) {
    && (forall d :: Stands(h', d) ==> Stands(h, d) && h'.dirs[d] == h.dirs[d])
    && (forall d :: Stands(h, d) && !Stands(h', d) && dropped != Some(d) ==> h.dirs[d].parent != TOP && !Stands(h', h.dirs[d].parent))
    && (forall f :: Served(h', f) ==> Served(h, f) && h'.files[f] == h.files[f])
    && (forall f :: Served(h, f) && !Served(h', f) && removed != Some(f) ==> !Stands(h', h.files[f].directory))
    && (dropped.Some? ==> !Stands(h', dropped.value))
    && (removed.Some? ==> !Served(h', removed.value))
  }

  function Without(copy: Copy, dropped: Option<Id>, removed: Option<FileId>): Copy {
    Copy(if dropped.Some? then copy.dirs - {dropped.value} else copy.dirs,
         if removed.Some? then copy.files - {removed.value} else copy.files)
  }

  lemma RecedesAgrees(h: Hierarchy, h': Hierarchy, copy: Copy, dropped: Option<Id>, removed: Option<FileId>)
    requires Agree(h, copy) && Recedes(h, h', dropped, removed)
    ensures Agree(h', Without(copy, dropped, removed))
  {
  }

  /** A file's row written, with its event. */
  lemma WriteFileAgrees(h: Hierarchy, copy: Copy, f: FileId, row: File, org: Id)
    requires Agree(h, copy) && Stored(row) && row.status != Doomed
    ensures Agree(PutFile(h, f, row), copy.(files := copy.files[f := DataOf(org, f, row)]))
  {
  }

  // ---- Every transaction ----

  /** The directory id a transaction inserts: none where it is refused, and none where a
      root's transaction finds its directory. */
  ghost function Inserted(h: Hierarchy, c: Command): Option<Id> {
    if (c.EnsureRoot? || c.CreateDirectory?) && Run(h, c).Committed? && Run(h, c).event.Some? then Some(c.id) else None
  }

  lemma RowsBefore(h: Hierarchy, c: Command, d: Id)
    requires Run(h, c).Committed? && d in Run(h, c).after.dirs
    ensures d in h.dirs || Inserted(h, c) == Some(d)
  {
    hide Scope, FileScope, WithinRoot, Occupied, DirectoryNamed, FileNamed, Within;
  }

  /** No transaction but an insert makes a directory active. */
  lemma NothingRises(h: Hierarchy, c: Command, d: Id)
    requires Sound(h) && Mintable(c) && Run(h, c).Committed? && Stands(Run(h, c).after, d) && Inserted(h, c) != Some(d)
    ensures Stands(h, d)
  {
    hide Sound, Scope, FileScope, WithinRoot, Occupied, DirectoryNamed, FileNamed, Within;
  }

  /** A creation's event is the inserted directory's. */
  lemma CreationInserts(h: Hierarchy, c: Command, d: Id)
    requires Sound(h) && Run(h, c).Committed? && Run(h, c).event.Some?
    ensures Run(h, c).event.value.DirectoryCreated? && Run(h, c).event.value.dir.id == d <==> Inserted(h, c) == Some(d)
    ensures Inserted(h, c) == Some(d) ==> d !in h.dirs
  {
    hide IsForest, Unique, Housed, Scope, FileScope, WithinRoot, Occupied, DirectoryNamed, FileNamed, Mark;
  }

  ghost predicate Allowed(h: Hierarchy, copy: Copy, c: Command) {
    Inserted(h, c).Some? ==> NoOrphans(copy, Inserted(h, c).value)
  }

  /** What a mark takes out of the active directories had its parent taken out too, or was
      under one that was out before, but for the marked directory itself. */
  lemma MarkTakesParents(h: Hierarchy, d: Id, x: Id)
    requires Sound(h) && d in h.dirs && x != d && Stands(h, x) && !Stands(Mark(h, d), x)
    ensures h.dirs[x].parent != TOP && !Stands(Mark(h, d), h.dirs[x].parent)
  {
    hide Bound, Unique, Housed;
    var p := ParentsIn(h);
    WithinStep(p, x, d);
    ParentStands(h, x);
    ParentStands(h, d);
    WithinOutside(p, TOP, d);
    hide IsForest, Within;
  }

  lemma MarkLeavesRest(h: Hierarchy, d: Id, x: Id)
    ensures Stands(Mark(h, d), x) ==> Stands(h, x) && Mark(h, d).dirs[x] == h.dirs[x]
    ensures d in h.dirs ==> !Stands(Mark(h, d), d)
  {
    WithinSelf(ParentsIn(h), d);
    hide Within;
  }

  lemma MarkTakesFiles(h: Hierarchy, d: Id, f: FileId)
    requires Housed(h)
    ensures Served(Mark(h, d), f) ==> Served(h, f) && Mark(h, d).files[f] == h.files[f]
    ensures Served(h, f) && !Served(Mark(h, d), f) ==> !Stands(Mark(h, d), h.files[f].directory)
  {
    hide Within;
  }

  lemma MarkRecedes(h: Hierarchy, d: Id, dropped: Option<Id>)
    requires Sound(h) && d in h.dirs && (if h.dirs[d].status == Active then dropped == Some(d) else dropped == None)
    ensures Recedes(h, Mark(h, d), dropped, None)
  {
    hide IsForest, Bound, Unique, Mark;
    var h' := Mark(h, d);
    forall x
      ensures Stands(h', x) ==> Stands(h, x) && h'.dirs[x] == h.dirs[x]
      ensures !Stands(h', d)
    {
      MarkLeavesRest(h, d, x);
    }
    forall x | Stands(h, x) && !Stands(h', x) && dropped != Some(x)
      ensures h.dirs[x].parent != TOP && !Stands(h', h.dirs[x].parent)
    {
      MarkTakesParents(h, d, x);
    }
    forall f
      ensures Served(h', f) ==> Served(h, f) && h'.files[f] == h.files[f]
      ensures Served(h, f) && !Served(h', f) ==> !Stands(h', h.files[f].directory)
    {
      MarkTakesFiles(h, d, f);
    }
  }

  lemma DropRecedes(h: Hierarchy, d: Id)
    requires Sound(h) && d in h.dirs && !Occupied(h, d)
    ensures Recedes(h, DropDir(h, d), Some(d), None)
    ensures h.dirs[d].status == Deleting ==> Recedes(h, DropDir(h, d), None, None)
  {
    hide IsForest, Binds, Unique;
  }

  lemma SweepMarkRecedes(h: Hierarchy, d: Id)
    requires Sound(h) && d in h.dirs && h.dirs[d].parent in h.dirs && h.dirs[h.dirs[d].parent].status == Deleting
    ensures Recedes(h, PutDir(h, d, MarkedDir(h.dirs[d])), None, None)
  {
    hide Binds, Unique, Housed;
    ParentStands(h, d);
    hide IsForest;
  }

  /** A file's row changed or gone without an event, or with its deletion's. */
  lemma FileRecedes(h: Hierarchy, h': Hierarchy, f: FileId)
    requires h'.dirs == h.dirs && !Served(h', f)
    requires forall g :: g != f ==> (g in h.files <==> g in h'.files) && (g in h.files ==> h'.files[g] == h.files[g])
    ensures Recedes(h, h', None, Some(f))
    ensures !Served(h, f) || !Stands(h, h.files[f].directory) ==> Recedes(h, h', None, None)
  {
  }

  lemma ShownIsPicture(h: Hierarchy, org: Id, root: Id, d: Id, row: Directory)
    requires d != root && row.parent != TOP
    ensures Shown(org, root, d, row) == Picture(org, d, row)
  {
  }

  lemma EnsureRootAgrees(h: Hierarchy, copy: Copy, org: Id, stands: bool, id: Id)
    requires Sound(h) && Agree(h, copy) && RunEnsureRoot(h, org, stands, id).Committed?
    requires RunEnsureRoot(h, org, stands, id).event.Some? ==> NoOrphans(copy, id)
    ensures Agree(RunEnsureRoot(h, org, stands, id).after, ApplyIf(copy, RunEnsureRoot(h, org, stands, id).event))
  {
    hide IsForest, Unique, Housed, Agree, NoOrphans;
    if org !in h.roots {
      var row := Directory(TOP, OfOrganization(org), Active, 1);
      WriteDirAgrees(h, copy, id, row, org);
      RootsAside(PutDir(h, id, row), copy.(dirs := copy.dirs[id := Picture(org, id, row)]), h.roots[org := id]);
    }
  }

  lemma CreateAgrees(h: Hierarchy, copy: Copy, org: Id, root: Id, p: Id, name: string, id: Id, raced: bool)
    requires Sound(h) && Agree(h, copy) && NoOrphans(copy, id) && root in h.dirs
    requires RunCreate(h, org, root, p, name, id, raced).Committed?
    ensures Agree(RunCreate(h, org, root, p, name, id, raced).after, ApplyIf(copy, RunCreate(h, org, root, p, name, id, raced).event))
  {
    hide IsForest, Bound, Unique, Housed, Agree, NoOrphans, DirectoryNamed;
    var row := Directory(p, Plain(name), Active, 1);
    ParentStands(h, p);
    ShownIsPicture(h, org, root, id, row);
    WriteDirAgrees(h, copy, id, row, org);
  }

  lemma MoveAgrees(h: Hierarchy, copy: Copy, org: Id, root: Id, d: Id, version: nat, p: Id, name: string)
    requires Sound(h) && Agree(h, copy) && d != root && RunMove(h, org, root, d, version, p, name).Committed?
    ensures Agree(RunMove(h, org, root, d, version, p, name).after, ApplyIf(copy, RunMove(h, org, root, d, version, p, name).event))
  {
    hide IsForest, Bound, Unique, Housed, Agree, DirectoryNamed;
    var row := h.dirs[d].(parent := p, name := Plain(name), version := version + 1);
    ParentStands(h, p);
    ShownIsPicture(h, org, root, d, row);
    WriteDirAgrees(h, copy, d, row, org);
  }

  lemma MarkAgrees(h: Hierarchy, copy: Copy, org: Id, d: Id, version: nat)
    requires Sound(h) && Agree(h, copy) && RunMark(h, org, d, version).Committed?
    ensures Agree(RunMark(h, org, d, version).after, ApplyIf(copy, RunMark(h, org, d, version).event))
  {
    hide Sound, Agree, Recedes, Mark;
    var dropped := if h.dirs[d].status == Active then Some(d) else None;
    MarkRecedes(h, d, dropped);
    RecedesAgrees(h, Mark(h, d), copy, dropped, None);
  }

  /** One transaction and its event keep the copy in agreement with the rows. */
  lemma RunAgrees(h: Hierarchy, copy: Copy, c: Command)
    requires Sound(h) && Agree(h, copy) && Allowed(h, copy, c) && Run(h, c).Committed?
    ensures Agree(Run(h, c).after, ApplyIf(copy, Run(h, c).event))
  {
    hide Sound, Agree, NoOrphans, Recedes, Scope, FileScope, WithinRoot, RunEnsureRoot, RunCreate, RunMove, RunMark,
         Occupied, DropDir, FileNamed;
    var h' := Run(h, c).after;
    match c
    case EnsureRoot(org, stands, id) => EnsureRootAgrees(h, copy, org, stands, id);
    case CreateDirectory(org, parent, name, id, raced) =>
      RootStands(h, org, parent);
      CreateInserts(h, c);
      CreateAgrees(h, copy, org, Scope(h, org, parent).root, Scope(h, org, parent).dir, name, id, raced);
    case DeleteDirectory(org, dir, _, _) =>
      var d := Scope(h, org, dir).dir;
      DropRecedes(h, d);
      RecedesAgrees(h, h', copy, Some(d), None);
    case MarkBranch(org, dir, version) => MarkAgrees(h, copy, org, Scope(h, org, dir).dir, version);
    case MoveDirectory(org, dir, version, to, name) =>
      var s := Scope(h, org, dir);
      MoveAgrees(h, copy, org, s.root, s.dir, version, WithinRoot(h, s.root, to).dir, name);
    case SweepMark(id) =>
      SweepMarkRecedes(h, id);
      RecedesAgrees(h, h', copy, None, None);
    case SweepDirectory(id) =>
      DropRecedes(h, id);
      RecedesAgrees(h, h', copy, None, None);
    case _ => FileRunAgrees(h, copy, c);
  }

  lemma CreateInserts(h: Hierarchy, c: Command)
    requires c.CreateDirectory? && Run(h, c).Committed?
    ensures Inserted(h, c) == Some(c.id)
  {
    hide Scope, DirectoryNamed;
  }

  lemma RootStands(h: Hierarchy, org: Id, ref: Ref)
    requires Sound(h) && Scope(h, org, ref).In?
    ensures Scope(h, org, ref).root in h.dirs
  {
    hide IsForest, Unique, Housed;
  }

  predicate OnFiles(c: Command) {
    || c.BeginUpload? || c.Complete? || c.Abandon? || c.DeleteFile? || c.MoveFile? || c.Purge? || c.Reclaim? || c.SweepFile?
  }

  lemma FileRunAgrees(h: Hierarchy, copy: Copy, c: Command)
    requires Sound(h) && Agree(h, copy) && OnFiles(c) && Run(h, c).Committed?
    ensures Agree(Run(h, c).after, ApplyIf(copy, Run(h, c).event))
  {
    hide IsForest, Bound, Unique, Agree, Recedes, Scope, FileScope, WithinRoot, FileNamed, RunBegin, RunComplete,
         RunDeleteFile, RunMoveFile, Housed;
    match c
    case BeginUpload(org, dir, name, contentType, f, raced) =>
      BeginAgrees(h, copy, Scope(h, org, dir).dir, name, contentType, f, raced);
    case Complete(org, f, stored, raced) => CompleteAgrees(h, copy, org, f, stored, raced);
    case MoveFile(org, f, version, to, name) =>
      MoveFileAgrees(h, copy, org, f, version, WithinRoot(h, FileScope(h, org, f).root, to).dir, name);
    case DeleteFile(org, f, version) => DeleteFileAgrees(h, copy, org, f, version);
    case Abandon(f) => FileGoneAgrees(h, Run(h, c).after, copy, f);
    case Purge(f) => FileGoneAgrees(h, Run(h, c).after, copy, f);
    case Reclaim(f) => FileGoneAgrees(h, Run(h, c).after, copy, f);
    case SweepFile(f) => FileGoneAgrees(h, Run(h, c).after, copy, f);
  }

  lemma FileGoneAgrees(h: Hierarchy, h': Hierarchy, copy: Copy, f: FileId)
    requires Agree(h, copy) && h'.dirs == h.dirs && !Served(h', f)
    requires forall g :: g != f ==> (g in h.files <==> g in h'.files) && (g in h.files ==> h'.files[g] == h.files[g])
    requires !Served(h, f) || !Stands(h, h.files[f].directory)
    ensures Agree(h', copy)
  {
    FileRecedes(h, h', f);
    hide Agree, Recedes;
    RecedesAgrees(h, h', copy, None, None);
  }

  lemma BeginAgrees(h: Hierarchy, copy: Copy, d: Id, name: string, contentType: string, f: FileId, raced: bool)
    requires Agree(h, copy) && RunBegin(h, d, name, contentType, f, raced).Committed?
    ensures Agree(RunBegin(h, d, name, contentType, f, raced).after, ApplyIf(copy, RunBegin(h, d, name, contentType, f, raced).event))
  {
    hide Agree, FileNamed;
    FileGoneAgrees(h, RunBegin(h, d, name, contentType, f, raced).after, copy, f);
  }

  lemma CompleteAgrees(h: Hierarchy, copy: Copy, org: Id, f: FileId, stored: Object, raced: bool)
    requires Agree(h, copy) && RunComplete(h, org, f, stored, raced).Committed?
    ensures Agree(RunComplete(h, org, f, stored, raced).after, ApplyIf(copy, RunComplete(h, org, f, stored, raced).event))
  {
    hide Agree;
    WriteFileAgrees(h, copy, f, h.files[f].(status := Available, stored := Some(stored), version := h.files[f].version + 1), org);
  }

  lemma MoveFileAgrees(h: Hierarchy, copy: Copy, org: Id, f: FileId, version: nat, p: Id, name: string)
    requires Housed(h) && Agree(h, copy) && f in h.files && RunMoveFile(h, org, f, version, p, name).Committed?
    ensures Agree(RunMoveFile(h, org, f, version, p, name).after, ApplyIf(copy, RunMoveFile(h, org, f, version, p, name).event))
  {
    hide Agree, FileNamed;
    FileStands(h, f);
    WriteFileAgrees(h, copy, f, h.files[f].(directory := p, name := name, version := version + 1), org);
  }

  lemma DeleteFileAgrees(h: Hierarchy, copy: Copy, org: Id, f: FileId, version: nat)
    requires Agree(h, copy) && f in h.files && RunDeleteFile(h, org, f, version).Committed?
    ensures Agree(RunDeleteFile(h, org, f, version).after, ApplyIf(copy, RunDeleteFile(h, org, f, version).event))
  {
    hide Agree, Recedes;
    var h' := RunDeleteFile(h, org, f, version).after;
    if h.files[f].status != Doomed {
      FileRecedes(h, h', f);
      RecedesAgrees(h, h', copy, None, Some(f));
    }
  }
}
