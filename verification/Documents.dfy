/** The organizations' document hierarchies: the directories and files blobfs holds, each
    organization's root, and every transaction the layer or the sweep runs on them, whole.
    A directory whose parent is TOP stands under blobfs's own root. */
module Documents {
  import opened Forest
  import opened Events

  /** A document root is named with its organization's id. */
  datatype Name = OfOrganization(org: Id) | Plain(text: string)

  datatype Status = Active | Deleting
  datatype Directory = Directory(parent: Id, name: Name, status: Status, version: nat)

  datatype File = File(directory: Id, name: string, contentType: string, status: FileStatus, stored: Option<Object>, version: nat)

  /** The rows: directories, files, and each organization's owner row. */
  datatype Hierarchy = Hierarchy(dirs: map<Id, Directory>, files: map<FileId, File>, roots: map<Id, Id>)

  const EMPTY := Hierarchy(map[], map[], map[])

  /** A directory as a request names it: the root's alias, or an id. */
  datatype Ref = Alias | At(id: Id)

  datatype Refusal =
    | NoRow | NotFound | VersionMismatch | NameTaken | IdTaken | BeingDeleted | NotEmpty | Cycle | RootMove | NotPending | BadName | Unstored

  datatype Scoped = In(root: Id, dir: Id) | Out(refusal: Refusal)
  datatype Outcome = Committed(after: Hierarchy, event: Option<Event>) | Refused(refusal: Refusal)

  function ParentsIn(h: Hierarchy): Parents {
    map d | d in h.dirs :: h.dirs[d].parent
  }

  // ---- Scope ----

  /** The directory ref names under the root: the alias, or an id that lies within it. */
  ghost function WithinRoot(h: Hierarchy, root: Id, ref: Ref): Scoped {
    match ref
    case Alias => In(root, root)
    case At(id) =>
      if id == root then In(root, root)
      else if id in h.dirs && root in h.dirs && Within(ParentsIn(h), id, root) then In(root, id)
      else Out(NotFound)
  }

  ghost function Scope(h: Hierarchy, org: Id, ref: Ref): Scoped {
    if org !in h.roots then Out(NoRow) else WithinRoot(h, h.roots[org], ref)
  }

  /** The file's own scope: the owner row first, then the file, then its directory. */
  ghost function FileScope(h: Hierarchy, org: Id, f: FileId): Scoped {
    if org !in h.roots then Out(NoRow)
    else if f !in h.files then Out(NotFound)
    else WithinRoot(h, h.roots[org], At(h.files[f].directory))
  }

  // ---- Rows ----

  /** As much of blobfs's name rule as a path relies on. */
  predicate ValidName(name: string) {
    name != "" && '/' !in name
  }

  predicate DirectoryNamed(h: Hierarchy, id: Id, parent: Id, name: Name) {
    exists d :: d in h.dirs && d != id && h.dirs[d].parent == parent && h.dirs[d].name == name
  }

  predicate FileNamed(h: Hierarchy, id: FileId, dir: Id, name: string) {
    exists f :: f in h.files && f != id && h.files[f].directory == dir && h.files[f].name == name
  }

  predicate Occupied(h: Hierarchy, d: Id) {
    || (exists c :: c in h.dirs && h.dirs[c].parent == d)
    || (exists f :: f in h.files && h.files[f].directory == d)
  }

  function PutDir(h: Hierarchy, d: Id, row: Directory): Hierarchy {
    h.(dirs := h.dirs[d := row])
  }

  function PutFile(h: Hierarchy, f: FileId, row: File): Hierarchy {
    h.(files := h.files[f := row])
  }

  /** A directory's removal, and its owner row's with it. */
  function DropDir(h: Hierarchy, d: Id): Hierarchy {
    h.(dirs := h.dirs - {d}, roots := map o | o in h.roots && h.roots[o] != d :: h.roots[o])
  }

  function DropFile(h: Hierarchy, f: FileId): Hierarchy {
    h.(files := h.files - {f})
  }

  function MarkedDir(row: Directory): Directory {
    if row.status == Active then row.(status := Deleting, version := row.version + 1) else row
  }

  function MarkedFile(row: File): File {
    if row.status == Doomed then row else row.(status := Doomed, version := row.version + 1)
  }

  /** blobfs's mark: the directory and everything beneath it. */
  ghost function Mark(h: Hierarchy, d: Id): Hierarchy {
    h.(dirs := map x | x in h.dirs :: if Within(ParentsIn(h), x, d) then MarkedDir(h.dirs[x]) else h.dirs[x],
       files := map f | f in h.files :: if Within(ParentsIn(h), h.files[f].directory, d) then MarkedFile(h.files[f]) else h.files[f])
  }

  // ---- What an event carries ----

  /** The directory as an event shows it: the root has no parent and is named "/". */
  function Shown(org: Id, root: Id, d: Id, row: Directory): DirectoryData {
    if d == root then DirectoryData(d, org, None, "/", row.version)
    else DirectoryData(d, org, Some(row.parent), if row.name.Plain? then row.name.text else "", row.version)
  }

  function DataOf(org: Id, f: FileId, row: File): FileData {
    FileData(f, org, row.directory, row.name, row.contentType, row.stored, row.version)
  }

  // ---- Transactions ----

  /** Each transaction, with what only the database knows. raced says a create or a
      completion slipped past a directory's concurrent mark; lenient says blobfs lets a plain
      delete remove an empty directory that is deleting already. */
  datatype Command =
    | EnsureRoot(org: Id, stands: bool, id: Id)
    | CreateDirectory(org: Id, parent: Ref, name: string, id: Id, raced: bool)
    | DeleteDirectory(org: Id, dir: Ref, version: nat, lenient: bool)
    | MarkBranch(org: Id, dir: Ref, version: nat)
    | MoveDirectory(org: Id, dir: Ref, version: nat, to: Ref, name: string)
    | BeginUpload(org: Id, dir: Ref, name: string, contentType: string, file: FileId, raced: bool)
    | Complete(org: Id, file: FileId, stored: Object, raced: bool)
    | Abandon(file: FileId)
    | DeleteFile(org: Id, file: FileId, version: nat)
    | MoveFile(org: Id, file: FileId, version: nat, to: Ref, name: string)
    | Purge(file: FileId)
    | Reclaim(file: FileId)
    | SweepMark(id: Id)
    | SweepFile(file: FileId)
    | SweepDirectory(id: Id)

  ghost function Run(h: Hierarchy, c: Command): Outcome {
    match c
    case EnsureRoot(org, stands, id) => RunEnsureRoot(h, org, stands, id)
    case CreateDirectory(org, parent, name, id, raced) =>
      (match Scope(h, org, parent)
       case Out(r) => Refused(r)
       case In(root, p) => RunCreate(h, org, root, p, name, id, raced))
    case DeleteDirectory(org, dir, version, lenient) =>
      (match Scope(h, org, dir)
       case Out(r) => Refused(r)
       case In(_, d) => RunDelete(h, org, d, version, lenient))
    case MarkBranch(org, dir, version) =>
      (match Scope(h, org, dir)
       case Out(r) => Refused(r)
       case In(_, d) => RunMark(h, org, d, version))
    case MoveDirectory(org, dir, version, to, name) =>
      (match Scope(h, org, dir)
       case Out(r) => Refused(r)
       case In(root, d) =>
         if d == root then Refused(RootMove)
         else
           match WithinRoot(h, root, to)
           case Out(r) => Refused(r)
           case In(_, p) => RunMove(h, org, root, d, version, p, name))
    case BeginUpload(org, dir, name, contentType, file, raced) =>
      (match Scope(h, org, dir)
       case Out(r) => Refused(r)
       case In(_, d) => RunBegin(h, d, name, contentType, file, raced))
    case Complete(org, file, stored, raced) => RunComplete(h, org, file, stored, raced)
    case Abandon(file) =>
      if file !in h.files then Refused(NotFound)
      else if h.files[file].status != Pending then Refused(NotPending)
      else Committed(PutFile(h, file, h.files[file].(status := Doomed)), None)
    case DeleteFile(org, file, version) =>
      (match FileScope(h, org, file)
       case Out(r) => Refused(r)
       case In(_, _) => if file !in h.files then Refused(NotFound) else RunDeleteFile(h, org, file, version))
    case MoveFile(org, file, version, to, name) =>
      (match FileScope(h, org, file)
       case Out(r) => Refused(r)
       case In(root, _) =>
         match WithinRoot(h, root, to)
         case Out(r) => Refused(r)
         case In(_, p) => if file !in h.files then Refused(NotFound) else RunMoveFile(h, org, file, version, p, name))
    case Purge(file) =>
      if file !in h.files then Refused(NotFound)
      else if h.files[file].status != Doomed then Refused(NotPending)
      else Committed(DropFile(h, file), None)
    case Reclaim(file) =>
      if file !in h.files then Refused(NotFound)
      else if h.files[file].status == Available then Refused(NotPending)
      else Committed(DropFile(h, file), None)
    case SweepMark(id) =>
      if id in h.dirs && h.dirs[id].parent in h.dirs && h.dirs[h.dirs[id].parent].status == Deleting
      then Committed(PutDir(h, id, MarkedDir(h.dirs[id])), None)
      else Refused(NotFound)
    case SweepFile(file) =>
      if file in h.files && h.files[file].directory in h.dirs && h.dirs[h.files[file].directory].status == Deleting
      then Committed(DropFile(h, file), None)
      else Refused(NotFound)
    case SweepDirectory(id) =>
      if id in h.dirs && h.dirs[id].status == Deleting && !Occupied(h, id) then Committed(DropDir(h, id), None)
      else Refused(NotFound)
  }

  /** Finds the organization's root, or creates it with its owner row and raises its event;
      a top-level directory found under the name is bound and raises nothing. */
  ghost function RunEnsureRoot(h: Hierarchy, org: Id, stands: bool, id: Id): Outcome {
    if org in h.roots then Committed(h, None)
    else if !stands then Refused(NoRow)
    else if d :| d in h.dirs && h.dirs[d].parent == TOP && h.dirs[d].name == OfOrganization(org) then
      if h.dirs[d].status == Deleting then Refused(BeingDeleted) else Committed(h.(roots := h.roots[org := d]), None)
    else if id in h.dirs then Refused(IdTaken)
    else
      var row := Directory(TOP, OfOrganization(org), Active, 1);
      Committed(PutDir(h, id, row).(roots := h.roots[org := id]), Some(DirectoryCreated(Shown(org, id, id, row))))
  }

  function RunCreate(h: Hierarchy, org: Id, root: Id, p: Id, name: string, id: Id, raced: bool): Outcome {
    if p !in h.dirs then Refused(NotFound)
    else if !ValidName(name) then Refused(BadName)
    else if h.dirs[p].status == Deleting && !raced then Refused(BeingDeleted)
    else if DirectoryNamed(h, id, p, Plain(name)) then Refused(NameTaken)
    else if id in h.dirs then Refused(IdTaken)
    else
      var row := Directory(p, Plain(name), Active, 1);
      Committed(PutDir(h, id, row), Some(DirectoryCreated(Shown(org, root, id, row))))
  }

  function RunDelete(h: Hierarchy, org: Id, d: Id, version: nat, lenient: bool): Outcome {
    if d !in h.dirs then Refused(NotFound)
    else if h.dirs[d].version != version then Refused(VersionMismatch)
    else if h.dirs[d].status == Deleting && !lenient then Refused(BeingDeleted)
    else if Occupied(h, d) then Refused(NotEmpty)
    else Committed(DropDir(h, d), Some(DirectoryDeleted(d, org, version)))
  }

  /** The first mark raises the directory's event at the version it left; a retry converges
      at any version and raises nothing. */
  ghost function RunMark(h: Hierarchy, org: Id, d: Id, version: nat): Outcome {
    if d !in h.dirs then Refused(NotFound)
    else if h.dirs[d].status == Deleting then Committed(Mark(h, d), None)
    else if h.dirs[d].version != version then Refused(VersionMismatch)
    else Committed(Mark(h, d), Some(DirectoryDeleted(d, org, MarkedDir(h.dirs[d]).version)))
  }

  ghost function RunMove(h: Hierarchy, org: Id, root: Id, d: Id, version: nat, p: Id, name: string): Outcome {
    if d !in h.dirs || p !in h.dirs then Refused(NotFound)
    else if !ValidName(name) then Refused(BadName)
    else if h.dirs[d].version != version then Refused(VersionMismatch)
    else if h.dirs[d].status == Deleting || h.dirs[p].status == Deleting then Refused(BeingDeleted)
    else if Within(ParentsIn(h), p, d) then Refused(Cycle)
    else if DirectoryNamed(h, d, p, Plain(name)) then Refused(NameTaken)
    else
      var row := h.dirs[d].(parent := p, name := Plain(name), version := version + 1);
      Committed(PutDir(h, d, row), Some(DirectoryMoved(Shown(org, root, d, row))))
  }

  function RunBegin(h: Hierarchy, d: Id, name: string, contentType: string, f: FileId, raced: bool): Outcome {
    if d !in h.dirs then Refused(NotFound)
    else if !ValidName(name) then Refused(BadName)
    else if h.dirs[d].status == Deleting && !raced then Refused(BeingDeleted)
    else if FileNamed(h, f, d, name) then Refused(NameTaken)
    else if f in h.files then Refused(IdTaken)
    else Committed(PutFile(h, f, File(d, name, contentType, Pending, None, 1)), None)
  }

  function RunComplete(h: Hierarchy, org: Id, f: FileId, stored: Object, raced: bool): Outcome {
    if f !in h.files then Refused(NotFound)
    else if h.files[f].status == Doomed then Refused(BeingDeleted)
    else if h.files[f].status == Available then Refused(NotPending)
    else if h.files[f].directory in h.dirs && h.dirs[h.files[f].directory].status == Deleting && !raced then Refused(BeingDeleted)
    else
      var row := h.files[f].(status := Available, stored := Some(stored), version := h.files[f].version + 1);
      Committed(PutFile(h, f, row), Some(FileUploaded(DataOf(org, f, row))))
  }

  function RunDeleteFile(h: Hierarchy, org: Id, f: FileId, version: nat): Outcome
    requires f in h.files
  {
    if h.files[f].status == Doomed then Committed(h, None)
    else if h.files[f].version != version then Refused(VersionMismatch)
    else
      var row := MarkedFile(h.files[f]);
      Committed(PutFile(h, f, row), Some(FileDeleted(f, org, row.version)))
  }

  function RunMoveFile(h: Hierarchy, org: Id, f: FileId, version: nat, p: Id, name: string): Outcome
    requires f in h.files
  {
    if p !in h.dirs then Refused(NotFound)
    else if !ValidName(name) then Refused(BadName)
    else if h.files[f].version != version then Refused(VersionMismatch)
    else if h.files[f].status == Doomed || h.dirs[p].status == Deleting then Refused(BeingDeleted)
    else if FileNamed(h, f, p, name) then Refused(NameTaken)
    else
      var row := h.files[f].(directory := p, name := name, version := version + 1);
      Committed(PutFile(h, f, row), Some(FileMoved(DataOf(org, f, row))))
  }

  // ---- What every transaction keeps ----

  /** Each owner row binds a top-level directory named with its organization, and each
      top-level directory is so bound. */
  ghost predicate Bound(h: Hierarchy) {
    Binds(h.dirs, h.roots)
  }

  ghost predicate Binds(dirs: map<Id, Directory>, roots: map<Id, Id>) {
    && (forall o :: o in roots ==>
          roots[o] in dirs && dirs[roots[o]].parent == TOP && dirs[roots[o]].name == OfOrganization(o))
    && (forall d :: d in dirs && dirs[d].parent == TOP ==>
          dirs[d].name.OfOrganization? && dirs[d].name.org in roots && roots[dirs[d].name.org] == d)
    && (forall d :: d in dirs && dirs[d].parent != TOP ==> dirs[d].name.Plain? && ValidName(dirs[d].name.text))
  }

  /** Sibling names are unique. */
  ghost predicate Unique(h: Hierarchy) {
    UniqueDirs(h.dirs) && UniqueFiles(h.files)
  }

  ghost predicate UniqueDirs(dirs: map<Id, Directory>) {
    forall a, b :: a in dirs && b in dirs && a != b ==> dirs[a].parent != dirs[b].parent || dirs[a].name != dirs[b].name
  }

  ghost predicate UniqueFiles(files: map<FileId, File>) {
    forall f, g :: f in files && g in files && f != g ==> files[f].directory != files[g].directory || files[f].name != files[g].name
  }

  /** An available file's row describes its object, and a pending one's has none yet. */
  predicate Stored(row: File) {
    (row.status == Available ==> row.stored.Some?) && (row.status == Pending ==> row.stored.None?)
  }

  /** A file stands in a directory. */
  ghost predicate Housed(h: Hierarchy) {
    forall f :: f in h.files ==> h.files[f].directory in h.dirs && Stored(h.files[f])
  }

  ghost predicate Sound(h: Hierarchy) {
    IsForest(ParentsIn(h)) && Bound(h) && Unique(h) && Housed(h)
  }

  /** The ids a create writes are no row's already and not the top's. */
  predicate Mintable(c: Command) {
    (c.EnsureRoot? || c.CreateDirectory?) ==> c.id != TOP
  }

  lemma ScopeIsRow(h: Hierarchy, org: Id, ref: Ref)
    requires Bound(h) && Scope(h, org, ref).In?
    ensures org in h.roots && Scope(h, org, ref).root == h.roots[org] && h.roots[org] in h.dirs
    ensures Scope(h, org, ref).dir in h.dirs && Within(ParentsIn(h), Scope(h, org, ref).dir, h.roots[org])
  {
    WithinSelf(ParentsIn(h), h.roots[org]);
  }

  lemma ParentStands(h: Hierarchy, d: Id)
    requires IsForest(ParentsIn(h)) && d in h.dirs
    ensures h.dirs[d].parent == TOP || h.dirs[d].parent in h.dirs
    ensures TOP !in h.dirs
  {
    assert ParentsIn(h)[d] == h.dirs[d].parent;
    assert TOP !in ParentsIn(h);
  }

  lemma InsertKeepsForest(h: Hierarchy, d: Id, row: Directory)
    requires IsForest(ParentsIn(h)) && d !in h.dirs && d != TOP && (row.parent == TOP || row.parent in h.dirs)
    ensures ParentsIn(PutDir(h, d, row)) == ParentsIn(h)[d := row.parent]
    ensures IsForest(ParentsIn(PutDir(h, d, row)))
  {
    assert ParentsIn(PutDir(h, d, row)) == ParentsIn(h)[d := row.parent];
    Insert(ParentsIn(h), d, row.parent);
  }

  lemma MoveKeepsForest(h: Hierarchy, d: Id, row: Directory)
    requires IsForest(ParentsIn(h)) && d in h.dirs && row.parent in h.dirs && !Within(ParentsIn(h), row.parent, d)
    ensures ParentsIn(PutDir(h, d, row)) == ParentsIn(h)[d := row.parent]
    ensures IsForest(ParentsIn(PutDir(h, d, row)))
  {
    assert ParentsIn(PutDir(h, d, row)) == ParentsIn(h)[d := row.parent];
    Reparent(ParentsIn(h), d, row.parent);
  }

  lemma DropKeepsForest(h: Hierarchy, d: Id)
    requires IsForest(ParentsIn(h)) && d in h.dirs && !Occupied(h, d)
    ensures ParentsIn(DropDir(h, d)) == ParentsIn(h) - {d}
    ensures IsForest(ParentsIn(DropDir(h, d)))
  {
    assert ParentsIn(DropDir(h, d)) == ParentsIn(h) - {d};
    Remove(ParentsIn(h), d);
  }

  lemma MarkKeepsParents(h: Hierarchy, d: Id)
    ensures ParentsIn(Mark(h, d)) == ParentsIn(h)
  {
  }

  /** A directory row written in place, or inserted, below the top. */
  lemma PutKeepsRest(h: Hierarchy, d: Id, row: Directory)
    requires Bound(h) && Unique(h) && Housed(h) && TOP !in h.dirs
    requires d in h.dirs ==> h.dirs[d].parent != TOP
    requires row.parent != TOP && row.name.Plain? && ValidName(row.name.text)
    requires !DirectoryNamed(h, d, row.parent, row.name)
    ensures Bound(PutDir(h, d, row)) && Unique(PutDir(h, d, row)) && Housed(PutDir(h, d, row))
  {
  }

  lemma RootKeepsRest(h: Hierarchy, org: Id, id: Id, row: Directory)
    requires Bound(h) && Unique(h) && Housed(h) && id !in h.dirs && org !in h.roots
    requires row.parent == TOP && row.name == OfOrganization(org)
    requires forall d :: d in h.dirs && h.dirs[d].parent == TOP ==> h.dirs[d].name != row.name
    ensures var h' := PutDir(h, id, row).(roots := h.roots[org := id]); Bound(h') && Unique(h') && Housed(h')
  {
  }

  /** A mark changes statuses and versions alone. */
  ghost predicate SamePlaces(h: Hierarchy, h': Hierarchy) {
    && h'.roots == h.roots && h'.dirs.Keys == h.dirs.Keys && h'.files.Keys == h.files.Keys
    && (forall d :: d in h.dirs ==> h'.dirs[d].parent == h.dirs[d].parent && h'.dirs[d].name == h.dirs[d].name)
    && (forall f :: f in h.files ==> h'.files[f].directory == h.files[f].directory && h'.files[f].name == h.files[f].name)
    && (forall f :: f in h.files ==> h'.files[f] == h.files[f] || h'.files[f].status == Doomed)
  }

  lemma MarkKeepsPlaces(h: Hierarchy, d: Id)
    ensures SamePlaces(h, Mark(h, d))
  {
    hide Within;
  }

  lemma SamePlacesKeepBound(h: Hierarchy, h': Hierarchy)
    requires Bound(h) && SamePlaces(h, h')
    ensures Bound(h')
  {
  }

  lemma SamePlacesKeepUnique(h: Hierarchy, h': Hierarchy)
    requires Unique(h) && SamePlaces(h, h')
    ensures Unique(h')
  {
  }

  lemma MarkKeepsRest(h: Hierarchy, d: Id)
    requires Bound(h) && Unique(h) && Housed(h)
    ensures Bound(Mark(h, d)) && Unique(Mark(h, d)) && Housed(Mark(h, d))
  {
    MarkKeepsPlaces(h, d);
    hide Mark;
    SamePlacesKeepBound(h, Mark(h, d));
    SamePlacesKeepUnique(h, Mark(h, d));
    hide Bound, Unique;
  }

  lemma MarkOneKeepsRest(h: Hierarchy, d: Id)
    requires Bound(h) && Unique(h) && Housed(h) && d in h.dirs
    ensures var h' := PutDir(h, d, MarkedDir(h.dirs[d])); Bound(h') && Unique(h') && Housed(h') && ParentsIn(h') == ParentsIn(h)
  {
    hide UniqueFiles;
    var h' := PutDir(h, d, MarkedDir(h.dirs[d]));
    assert SamePlaces(h, h');
    SamePlacesKeepBound(h, h');
    SamePlacesKeepUnique(h, h');
    hide Bound, Unique, SamePlaces;
  }

  lemma DropKeepsRest(h: Hierarchy, d: Id)
    requires Bound(h) && Unique(h) && Housed(h) && d in h.dirs && !Occupied(h, d)
    ensures Bound(DropDir(h, d)) && Unique(DropDir(h, d)) && Housed(DropDir(h, d))
  {
  }

  lemma PutFileKeeps(h: Hierarchy, f: FileId, row: File)
    requires Sound(h) && row.directory in h.dirs && Stored(row)
    requires !FileNamed(h, f, row.directory, row.name)
    ensures Sound(PutFile(h, f, row))
  {
    assert ParentsIn(PutFile(h, f, row)) == ParentsIn(h);
    hide IsForest, Binds, UniqueDirs;
  }

  lemma DropFileKeeps(h: Hierarchy, f: FileId)
    requires Sound(h)
    ensures Sound(DropFile(h, f))
  {
    assert ParentsIn(DropFile(h, f)) == ParentsIn(h);
    hide IsForest, Binds, UniqueDirs;
  }

  lemma StandsUnderItsName(h: Hierarchy, f: FileId)
    requires Unique(h) && f in h.files
    ensures !FileNamed(h, f, h.files[f].directory, h.files[f].name)
  {
  }

  lemma EnsureRootKeeps(h: Hierarchy, org: Id, stands: bool, id: Id)
    requires Sound(h) && id != TOP && RunEnsureRoot(h, org, stands, id).Committed?
    ensures Sound(RunEnsureRoot(h, org, stands, id).after)
  {
    hide IsForest, Unique, Housed;
    if org !in h.roots {
      var row := Directory(TOP, OfOrganization(org), Active, 1);
      var h' := PutDir(h, id, row).(roots := h.roots[org := id]);
      InsertKeepsForest(h, id, row);
      assert ParentsIn(h') == ParentsIn(PutDir(h, id, row));
      RootKeepsRest(h, org, id, row);
    }
  }

  /** A root found under the name is one already bound: the first write that finds no owner
      row finds no such directory either, and creates it. */
  lemma UnboundMeansAbsent(h: Hierarchy, org: Id, d: Id)
    requires Bound(h) && org !in h.roots && d in h.dirs && h.dirs[d].parent == TOP
    ensures h.dirs[d].name != OfOrganization(org)
  {
  }

  lemma CreateKeeps(h: Hierarchy, org: Id, root: Id, p: Id, name: string, id: Id, raced: bool)
    requires Sound(h) && id != TOP && RunCreate(h, org, root, p, name, id, raced).Committed?
    ensures Sound(RunCreate(h, org, root, p, name, id, raced).after)
  {
    hide IsForest, Bound, Unique, Housed, DirectoryNamed;
    var row := Directory(p, Plain(name), Active, 1);
    ParentStands(h, p);
    InsertKeepsForest(h, id, row);
    PutKeepsRest(h, id, row);
  }

  lemma MoveKeeps(h: Hierarchy, org: Id, root: Id, d: Id, version: nat, p: Id, name: string)
    requires Sound(h) && d in h.dirs && h.dirs[d].parent != TOP && RunMove(h, org, root, d, version, p, name).Committed?
    ensures Sound(RunMove(h, org, root, d, version, p, name).after)
  {
    hide IsForest, Bound, Unique, Housed, DirectoryNamed;
    var row := h.dirs[d].(parent := p, name := Plain(name), version := version + 1);
    ParentStands(h, p);
    MoveKeepsForest(h, d, row);
    PutKeepsRest(h, d, row);
  }

  lemma MarkKeeps(h: Hierarchy, d: Id)
    requires Sound(h)
    ensures Sound(Mark(h, d))
  {
    hide IsForest, Bound, Unique, Housed, Mark;
    MarkKeepsParents(h, d);
    MarkKeepsRest(h, d);
  }

  lemma DropKeeps(h: Hierarchy, d: Id)
    requires Sound(h) && d in h.dirs && !Occupied(h, d)
    ensures Sound(DropDir(h, d))
  {
    hide IsForest, Bound, Unique, Housed, Occupied;
    DropKeepsForest(h, d);
    DropKeepsRest(h, d);
  }

  lemma OnlyRootsAtTop(h: Hierarchy, org: Id, d: Id)
    requires Bound(h) && IsForest(ParentsIn(h)) && org in h.roots && d in h.dirs
    requires Within(ParentsIn(h), d, h.roots[org]) && d != h.roots[org]
    ensures h.dirs[d].parent != TOP
  {
    if h.dirs[d].parent == TOP {
      WithinStep(ParentsIn(h), d, h.roots[org]);
      ParentStands(h, d);
      WithinOutside(ParentsIn(h), TOP, h.roots[org]);
    }
  }

  /** Every committed transaction, a client's, a seed's, or the sweep's, keeps the rows
      sound. */
  lemma RunKeepsSound(h: Hierarchy, c: Command)
    requires Sound(h) && Mintable(c) && Run(h, c).Committed?
    ensures Sound(Run(h, c).after)
  {
    hide IsForest, Unique, Housed, Scope, FileScope, WithinRoot, RunEnsureRoot, RunCreate, RunMove, Mark, DropDir,
         Occupied, Bound;
    match c
    case EnsureRoot(org, stands, id) => EnsureRootKeeps(h, org, stands, id);
    case CreateDirectory(org, parent, name, id, raced) =>
      var s := Scope(h, org, parent);
      CreateKeeps(h, org, s.root, s.dir, name, id, raced);
    case DeleteDirectory(org, dir, _, _) => DropKeeps(h, Scope(h, org, dir).dir);
    case MarkBranch(org, dir, _) => MarkKeeps(h, Scope(h, org, dir).dir);
    case MoveDirectory(org, dir, version, to, name) =>
      var s := Scope(h, org, dir);
      ScopeIsRow(h, org, dir);
      OnlyRootsAtTop(h, org, s.dir);
      MoveKeeps(h, org, s.root, s.dir, version, WithinRoot(h, s.root, to).dir, name);
    case BeginUpload(org, dir, name, contentType, f, raced) =>
      PutFileKeeps(h, f, File(Scope(h, org, dir).dir, name, contentType, Pending, None, 1));
    case Complete(_, f, stored, _) => FileKeeps(h, f, h.files[f].(status := Available, stored := Some(stored), version := h.files[f].version + 1));
    case Abandon(f) => FileKeeps(h, f, h.files[f].(status := Doomed));
    case DeleteFile(_, f, _) => FileKeeps(h, f, MarkedFile(h.files[f]));
    case MoveFile(org, f, version, to, name) =>
      var s := FileScope(h, org, f);
      var p := WithinRoot(h, s.root, to).dir;
      FileStands(h, f);
      PutFileKeeps(h, f, h.files[f].(directory := p, name := name, version := version + 1));
    case Purge(f) => DropFileKeeps(h, f);
    case Reclaim(f) => DropFileKeeps(h, f);
    case SweepMark(id) => MarkOneKeepsRest(h, id);
    case SweepFile(f) => DropFileKeeps(h, f);
    case SweepDirectory(id) => DropKeeps(h, id);
  }

  lemma FileStandsIn(h: Hierarchy, f: FileId)
    requires Sound(h) && f in h.files
    ensures h.files[f].directory in h.dirs
  {
    hide IsForest, Bound, Unique;
  }

  lemma RowIsBelowTop(h: Hierarchy, d: Id)
    requires Sound(h) && d in h.dirs
    ensures d != TOP
  {
    ParentStands(h, d);
  }

  lemma MarkedRow(h: Hierarchy, d: Id)
    requires d in h.dirs
    ensures d in Mark(h, d).dirs && Mark(h, d).dirs[d] == MarkedDir(h.dirs[d])
  {
    WithinSelf(ParentsIn(h), d);
  }

  lemma FileStands(h: Hierarchy, f: FileId)
    requires Housed(h) && f in h.files
    ensures h.files[f].directory in h.dirs && Stored(h.files[f])
  {
  }

  /** A file's row written where it stands. */
  lemma FileKeeps(h: Hierarchy, f: FileId, row: File)
    requires Sound(h) && f in h.files && row.directory == h.files[f].directory && row.name == h.files[f].name
    requires Stored(row)
    ensures Sound(PutFile(h, f, row))
  {
    hide IsForest, Bound;
    StandsUnderItsName(h, f);
    PutFileKeeps(h, f, row);
  }
}
