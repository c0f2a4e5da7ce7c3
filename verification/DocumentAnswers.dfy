/** What each document transaction answers, read from the request's own arguments and the rows it
    finds: when it commits, the row it then leaves and the event it carries, field by field, and
    why it is refused when it is. */
module DocumentAnswers {
  import opened Forest
  import opened Events
  import opened Documents
  import opened DocumentScope

  /** The rows and the events committed. */
  datatype Snapshot = Snapshot(rows: Hierarchy, log: seq<Event>)

  /** What a transaction leaves: its rows and its event, or nothing changed. */
  function After(s: Snapshot, r: Outcome): Snapshot {
    match r
    case Refused(_) => s
    case Committed(h, e) => Snapshot(h, if e.Some? then s.log + [e.value] else s.log)
  }

  function Why(r: Outcome): Option<Refusal> {
    if r.Refused? then Some(r.refusal) else None
  }

  /** One transaction and its event, or nothing. */
  ghost function Step(s: Snapshot, c: Command): Snapshot {
    After(s, Run(s.rows, c))
  }

  /** Why the transaction is refused, if it is. */
  ghost function Refusing(s: Snapshot, c: Command): Option<Refusal> {
    Why(Run(s.rows, c))
  }

  /** The directory a request's reference names: the organization's root under the alias, or an
      id within the root. */
  ghost predicate Refers(h: Hierarchy, org: Id, ref: Ref, d: Id) {
    Home(h, org, d) && if ref.Alias? then d == h.roots[org] else ref.id == d
  }

  /** A reference names one directory or none, and the scope check finds exactly that one. */
  lemma ScopeIsExact(h: Hierarchy, org: Id, ref: Ref)
    requires Sound(h)
    ensures forall root, d :: Scope(h, org, ref) == In(root, d) <==> Refers(h, org, ref, d) && root == h.roots[org]
    ensures Scope(h, org, ref) == Out(NoRow) <==> org !in h.roots
    ensures Scope(h, org, ref) == Out(NotFound) <==> org in h.roots && forall d :: !Refers(h, org, ref, d)
  {
    if org in h.roots {
      WithinSelf(ParentsIn(h), h.roots[org]);
      BoundRoot(h, org);
      if ref.Alias? {
        assert Refers(h, org, ref, h.roots[org]);
      } else if Scope(h, org, ref).In? {
        assert Refers(h, org, ref, ref.id);
      }
    }
    hide Sound, Within;
  }

  lemma BoundRoot(h: Hierarchy, org: Id)
    requires Sound(h) && org in h.roots
    ensures h.roots[org] in h.dirs && h.dirs[h.roots[org]].parent == TOP
  {
    hide IsForest, Unique, Housed;
  }

  lemma InScope(h: Hierarchy, org: Id, ref: Ref, d: Id)
    requires Sound(h) && Refers(h, org, ref, d)
    ensures Scope(h, org, ref) == In(h.roots[org], d) && WithinRoot(h, h.roots[org], ref) == In(h.roots[org], d)
    ensures d in h.dirs && (d == h.roots[org] <==> h.dirs[d].parent == TOP)
  {
    ScopeIsExact(h, org, ref);
    BoundRoot(h, org);
    if d != h.roots[org] {
      OnlyRootsAtTop(h, org, d);
    }
  }

  /** A file is in scope where its directory is. */
  lemma FileInScope(h: Hierarchy, org: Id, f: FileId)
    requires Sound(h)
    ensures FileScope(h, org, f).In? <==> f in h.files && Home(h, org, h.files[f].directory)
    ensures FileScope(h, org, f).In? ==> FileScope(h, org, f).root == h.roots[org]
    ensures FileScope(h, org, f) == Out(NoRow) <==> org !in h.roots
    ensures FileScope(h, org, f).Out? ==> FileScope(h, org, f).refusal == if org in h.roots then NotFound else NoRow
  {
    if f in h.files {
      ScopeIsExact(h, org, At(h.files[f].directory));
      assert Home(h, org, h.files[f].directory) <==> Refers(h, org, At(h.files[f].directory), h.files[f].directory);
    }
    hide Sound, Home;
  }

  // ---- Directories ----

  /** From s to t an organization's root is found where it is bound, and otherwise created where
      the organization stands, with the event that shows it without a parent and named "/". */
  ghost predicate EnsuresRoot(s: Snapshot, t: Snapshot, refusal: Option<Refusal>, org: Id, stands: bool, id: Id) {
    var h := s.rows;
    && (refusal.None? <==> org in h.roots || (stands && id !in h.dirs))
    && (refusal == Some(NoRow) <==> org !in h.roots && !stands)
    && (refusal == Some(IdTaken) <==> org !in h.roots && stands && id in h.dirs)
    && t == if refusal.Some? || org in h.roots then s
            else Snapshot(Hierarchy(h.dirs[id := Directory(TOP, OfOrganization(org), Active, 1)], h.files, h.roots[org := id]),
                          s.log + [DirectoryCreated(DirectoryData(id, org, None, "/", 1))])
  }

  lemma EnsureRootAnswers(s: Snapshot, org: Id, stands: bool, id: Id)
    requires Sound(s.rows)
    ensures var c := EnsureRoot(org, stands, id); EnsuresRoot(s, Step(s, c), Refusing(s, c), org, stands, id)
  {
    var h := s.rows;
    if org !in h.roots {
      forall d | d in h.dirs && h.dirs[d].parent == TOP
        ensures h.dirs[d].name != OfOrganization(org)
      {
        UnboundMeansAbsent(h, org, d);
      }
    }
    hide Sound;
  }

  /** A directory is created in p under the name and the id. */
  ghost predicate CreatesDirectory(s: Snapshot, t: Snapshot, refusal: Option<Refusal>, org: Id, p: Id, name: string, id: Id,
                                   raced: bool)
    requires p in s.rows.dirs
  {
    var h := s.rows;
    var open := h.dirs[p].status == Active || raced;
    var taken := exists x :: x in h.dirs && x != id && h.dirs[x].parent == p && h.dirs[x].name == Plain(name);
    && (refusal.None? <==> ValidName(name) && open && !taken && id !in h.dirs)
    && (refusal == Some(BadName) <==> !ValidName(name))
    && (refusal == Some(BeingDeleted) <==> ValidName(name) && !open)
    && (refusal == Some(NameTaken) <==> ValidName(name) && open && taken)
    && (refusal == Some(IdTaken) <==> ValidName(name) && open && !taken && id in h.dirs)
    && t == if refusal.Some? then s
            else Snapshot(Hierarchy(h.dirs[id := Directory(p, Plain(name), Active, 1)], h.files, h.roots),
                          s.log + [DirectoryCreated(DirectoryData(id, org, Some(p), name, 1))])
  }

  /** A request on a directory in scope runs on that directory. */
  lemma RunsThere(h: Hierarchy, c: Command, d: Id)
    requires Sound(h) && OnDirectory(c) && !c.MoveDirectory? && Refers(h, c.org, DirectoryOf(c), d)
    ensures h.roots[c.org] in h.dirs
    ensures Run(h, c) == match c
                         case CreateDirectory(org, _, name, id, raced) => RunCreate(h, org, h.roots[org], d, name, id, raced)
                         case DeleteDirectory(org, _, version, lenient) => RunDelete(h, org, d, version, lenient)
                         case MarkBranch(org, _, version) => RunMark(h, org, d, version)
                         case BeginUpload(_, _, name, contentType, f, raced) => RunBegin(h, d, name, contentType, f, raced)
  {
    InScope(h, c.org, DirectoryOf(c), d);
    BoundRoot(h, c.org);
    hide Sound, Scope, Refers, RunCreate, RunDelete, RunMark, RunBegin, RunMove;
  }

  lemma CreateAnswers(s: Snapshot, org: Id, parent: Ref, name: string, id: Id, raced: bool, p: Id)
    requires Sound(s.rows) && Refers(s.rows, org, parent, p)
    ensures var c := CreateDirectory(org, parent, name, id, raced); CreatesDirectory(s, Step(s, c), Refusing(s, c), org, p, name, id, raced)
  {
    RunsThere(s.rows, CreateDirectory(org, parent, name, id, raced), p);
    hide Run, Sound, Refers, ValidName, Within, ParentsIn;
  }

  /** An empty directory's row is removed at the version, and its owner row with it if it is the
      organization's root. */
  ghost predicate DeletesDirectory(s: Snapshot, t: Snapshot, refusal: Option<Refusal>, org: Id, d: Id, version: nat, lenient: bool)
    requires d in s.rows.dirs && org in s.rows.roots
  {
    var h := s.rows;
    var row := h.dirs[d];
    var free := row.status == Active || lenient;
    var empty := (forall x :: x in h.dirs ==> h.dirs[x].parent != d) && (forall f :: f in h.files ==> h.files[f].directory != d);
    && (refusal.None? <==> row.version == version && free && empty)
    && (refusal == Some(VersionMismatch) <==> row.version != version)
    && (refusal == Some(BeingDeleted) <==> row.version == version && !free)
    && (refusal == Some(NotEmpty) <==> row.version == version && free && !empty)
    && t == if refusal.Some? then s
            else Snapshot(Hierarchy(h.dirs - {d}, h.files, if d == h.roots[org] then h.roots - {org} else h.roots),
                          s.log + [DirectoryDeleted(d, org, version)])
  }

  lemma DeleteAnswers(s: Snapshot, org: Id, dir: Ref, version: nat, lenient: bool, d: Id)
    requires Sound(s.rows) && Refers(s.rows, org, dir, d)
    ensures var c := DeleteDirectory(org, dir, version, lenient); DeletesDirectory(s, Step(s, c), Refusing(s, c), org, d, version, lenient)
  {
    hide Run, Sound, RunDelete, DeletesDirectory, After, Why, Within, ParentsIn;
    RunsThere(s.rows, DeleteDirectory(org, dir, version, lenient), d);
    OwnersLeft(s.rows, org, d);
    DeletedWhole(s, org, d, version, lenient);
  }

  lemma DeletedWhole(s: Snapshot, org: Id, d: Id, version: nat, lenient: bool)
    requires d in s.rows.dirs && org in s.rows.roots
    requires DropDir(s.rows, d) == Hierarchy(s.rows.dirs - {d}, s.rows.files, if d == s.rows.roots[org] then s.rows.roots - {org} else s.rows.roots)
    ensures var r := RunDelete(s.rows, org, d, version, lenient); DeletesDirectory(s, After(s, r), Why(r), org, d, version, lenient)
  {
    hide DropDir;
  }

  /** A directory's owner row is its root's organization's, and no other's. */
  lemma OwnersLeft(h: Hierarchy, org: Id, d: Id)
    requires Sound(h) && Home(h, org, d)
    ensures DropDir(h, d) == Hierarchy(h.dirs - {d}, h.files, if d == h.roots[org] then h.roots - {org} else h.roots)
  {
    hide IsForest, Unique, Housed, Within;
    forall o | o in h.roots && h.roots[o] == d
      ensures o == org && d == h.roots[org]
    {
      RootsApart(h, o, org, d) by {
        WithinSelf(ParentsIn(h), d);
      }
    }
  }

  /** The directory and everything beneath it is marked, with the directory's event alone, or none
      where it is deleting already. */
  ghost predicate MarksBranch(s: Snapshot, t: Snapshot, refusal: Option<Refusal>, org: Id, d: Id, version: nat)
    requires d in s.rows.dirs
  {
    var row := s.rows.dirs[d];
    && (refusal.None? <==> row.status == Deleting || row.version == version)
    && (refusal.Some? ==> refusal == Some(VersionMismatch) && t == s)
    && (refusal.None? ==>
          Branched(s.rows, t.rows, d) && t.log == if row.status == Deleting then s.log else s.log + [DirectoryDeleted(d, org, version + 1)])
  }

  /** Each active directory and each file not deleting beneath d is deleting at its next version,
      and nothing else has changed. */
  ghost predicate Branched(h: Hierarchy, h': Hierarchy, d: Id) {
    && h'.dirs.Keys == h.dirs.Keys && h'.files.Keys == h.files.Keys && h'.roots == h.roots
    && (forall x :: x in h.dirs ==>
          var row := h.dirs[x];
          h'.dirs[x] == if Within(ParentsIn(h), x, d) && row.status == Active
                        then Directory(row.parent, row.name, Deleting, row.version + 1) else row)
    && (forall f :: f in h.files ==>
          var row := h.files[f];
          h'.files[f] == if Within(ParentsIn(h), row.directory, d) && row.status != Doomed
                         then File(row.directory, row.name, row.contentType, Doomed, row.stored, row.version + 1) else row)
  }

  lemma MarkAnswers(s: Snapshot, org: Id, dir: Ref, version: nat, d: Id)
    requires Sound(s.rows) && Refers(s.rows, org, dir, d)
    ensures var c := MarkBranch(org, dir, version); MarksBranch(s, Step(s, c), Refusing(s, c), org, d, version)
  {
    RunsThere(s.rows, MarkBranch(org, dir, version), d);
    MarkedWhole(s, org, d, version);
    hide Run, Sound, Refers, RunMark, MarksBranch, After, Why;
  }

  lemma MarkedWhole(s: Snapshot, org: Id, d: Id, version: nat)
    requires d in s.rows.dirs
    ensures var r := RunMark(s.rows, org, d, version); MarksBranch(s, After(s, r), Why(r), org, d, version)
  {
    MarkBranches(s.rows, d);
    hide Mark, Branched;
  }

  lemma MarkBranches(h: Hierarchy, d: Id)
    ensures Branched(h, Mark(h, d), d)
  {
    hide Within;
  }

  /** The directory moves under p and takes the name. */
  ghost predicate MovesDirectory(s: Snapshot, t: Snapshot, refusal: Option<Refusal>, org: Id, d: Id, version: nat, p: Id, name: string)
    requires d in s.rows.dirs && p in s.rows.dirs
  {
    var h := s.rows;
    var free := h.dirs[d].status == Active && h.dirs[p].status == Active;
    var inside := Within(ParentsIn(h), p, d);
    var taken := exists x :: x in h.dirs && x != d && h.dirs[x].parent == p && h.dirs[x].name == Plain(name);
    var current := ValidName(name) && h.dirs[d].version == version;
    && (refusal.None? <==> current && free && !inside && !taken)
    && (refusal == Some(BadName) <==> !ValidName(name))
    && (refusal == Some(VersionMismatch) <==> ValidName(name) && h.dirs[d].version != version)
    && (refusal == Some(BeingDeleted) <==> current && !free)
    && (refusal == Some(Cycle) <==> current && free && inside)
    && (refusal == Some(NameTaken) <==> current && free && !inside && taken)
    && t == if refusal.Some? then s
            else Snapshot(Hierarchy(h.dirs[d := Directory(p, Plain(name), Active, version + 1)], h.files, h.roots),
                          s.log + [DirectoryMoved(DirectoryData(d, org, Some(p), name, version + 1))])
  }

  lemma MovesThere(h: Hierarchy, org: Id, dir: Ref, version: nat, to: Ref, name: string, d: Id, p: Id)
    requires Sound(h) && Refers(h, org, dir, d) && Refers(h, org, to, p) && d != h.roots[org]
    ensures Run(h, MoveDirectory(org, dir, version, to, name)) == RunMove(h, org, h.roots[org], d, version, p, name)
  {
    InScope(h, org, dir, d);
    InScope(h, org, to, p);
    hide Sound, Scope, WithinRoot, RunMove;
  }

  lemma MoveAnswers(s: Snapshot, org: Id, dir: Ref, version: nat, to: Ref, name: string, d: Id, p: Id)
    requires Sound(s.rows) && Refers(s.rows, org, dir, d) && Refers(s.rows, org, to, p) && d != s.rows.roots[org]
    ensures var c := MoveDirectory(org, dir, version, to, name); MovesDirectory(s, Step(s, c), Refusing(s, c), org, d, version, p, name)
  {
    MovesThere(s.rows, org, dir, version, to, name, d, p);
    hide Run, Sound, Refers, ValidName, Within, ParentsIn;
  }

  // ---- Files ----

  /** A file's pending row is written in d. */
  ghost predicate BeginsUpload(s: Snapshot, t: Snapshot, refusal: Option<Refusal>, d: Id, name: string, contentType: string, f: FileId,
                               raced: bool)
    requires d in s.rows.dirs
  {
    var h := s.rows;
    var open := h.dirs[d].status == Active || raced;
    var taken := exists g :: g in h.files && g != f && h.files[g].directory == d && h.files[g].name == name;
    && (refusal.None? <==> ValidName(name) && open && !taken && f !in h.files)
    && (refusal == Some(BadName) <==> !ValidName(name))
    && (refusal == Some(BeingDeleted) <==> ValidName(name) && !open)
    && (refusal == Some(NameTaken) <==> ValidName(name) && open && taken)
    && (refusal == Some(IdTaken) <==> ValidName(name) && open && !taken && f in h.files)
    && t == if refusal.Some? then s
            else Snapshot(Hierarchy(h.dirs, h.files[f := File(d, name, contentType, Pending, None, 1)], h.roots), s.log)
  }

  lemma BeginAnswers(s: Snapshot, org: Id, dir: Ref, name: string, contentType: string, f: FileId, raced: bool, d: Id)
    requires Sound(s.rows) && Refers(s.rows, org, dir, d)
    ensures var c := BeginUpload(org, dir, name, contentType, f, raced); BeginsUpload(s, Step(s, c), Refusing(s, c), d, name, contentType, f, raced)
  {
    RunsThere(s.rows, BeginUpload(org, dir, name, contentType, f, raced), d);
    BegunWhole(s, d, name, contentType, f, raced);
    hide Run, Sound, Refers, RunBegin, BeginsUpload, After, Why;
  }

  lemma BegunWhole(s: Snapshot, d: Id, name: string, contentType: string, f: FileId, raced: bool)
    requires d in s.rows.dirs
    ensures var r := RunBegin(s.rows, d, name, contentType, f, raced); BeginsUpload(s, After(s, r), Why(r), d, name, contentType, f, raced)
  {
    hide ValidName;
  }

  /** The pending row becomes available with its object's size and tag, and the event carries it. */
  ghost predicate CompletesUpload(s: Snapshot, t: Snapshot, refusal: Option<Refusal>, org: Id, f: FileId, stored: Object, raced: bool) {
    var h := s.rows;
    if f !in h.files then refusal == Some(NotFound) && t == s
    else
      var row := h.files[f];
      var closed := row.directory in h.dirs && h.dirs[row.directory].status == Deleting && !raced;
      && (refusal.None? <==> row.status == Pending && !closed)
      && (refusal == Some(NotPending) <==> row.status == Available)
      && (refusal == Some(BeingDeleted) <==> row.status == Doomed || (row.status == Pending && closed))
      && t == if refusal.Some? then s
              else Snapshot(
                Hierarchy(h.dirs, h.files[f := File(row.directory, row.name, row.contentType, Available, Some(stored), row.version + 1)], h.roots),
                s.log + [FileUploaded(FileData(f, org, row.directory, row.name, row.contentType, Some(stored), row.version + 1))])
  }

  lemma CompleteAnswers(s: Snapshot, org: Id, f: FileId, stored: Object, raced: bool)
    ensures var c := Complete(org, f, stored, raced); CompletesUpload(s, Step(s, c), Refusing(s, c), org, f, stored, raced)
  {
  }

  /** The file's delete begins, or has begun. */
  ghost predicate DeletesFile(s: Snapshot, t: Snapshot, refusal: Option<Refusal>, org: Id, f: FileId, version: nat)
    requires f in s.rows.files
  {
    var h := s.rows;
    var row := h.files[f];
    && (refusal.None? <==> row.status == Doomed || row.version == version)
    && (refusal.Some? ==> refusal == Some(VersionMismatch))
    && t == if refusal.Some? || row.status == Doomed then s
            else Snapshot(
              Hierarchy(h.dirs, h.files[f := File(row.directory, row.name, row.contentType, Doomed, row.stored, version + 1)], h.roots),
              s.log + [FileDeleted(f, org, version + 1)])
  }

  /** A request on a file in scope runs on its row. */
  lemma DeletesThere(h: Hierarchy, org: Id, f: FileId, version: nat)
    requires Sound(h) && f in h.files && Home(h, org, h.files[f].directory)
    ensures Run(h, DeleteFile(org, f, version)) == RunDeleteFile(h, org, f, version)
  {
    FileInScope(h, org, f);
    hide Sound, FileScope, Home, RunDeleteFile;
  }

  lemma DeleteFileAnswers(s: Snapshot, org: Id, f: FileId, version: nat)
    requires Sound(s.rows) && f in s.rows.files && Home(s.rows, org, s.rows.files[f].directory)
    ensures var c := DeleteFile(org, f, version); DeletesFile(s, Step(s, c), Refusing(s, c), org, f, version)
  {
    DeletesThere(s.rows, org, f, version);
    hide Run, Sound, Home;
  }

  /** The file moves into p and takes the name. */
  ghost predicate MovesFile(s: Snapshot, t: Snapshot, refusal: Option<Refusal>, org: Id, f: FileId, version: nat, p: Id, name: string)
    requires f in s.rows.files && p in s.rows.dirs
  {
    var h := s.rows;
    var row := h.files[f];
    var free := row.status != Doomed && h.dirs[p].status == Active;
    var taken := exists g :: g in h.files && g != f && h.files[g].directory == p && h.files[g].name == name;
    var current := ValidName(name) && row.version == version;
    && (refusal.None? <==> current && free && !taken)
    && (refusal == Some(BadName) <==> !ValidName(name))
    && (refusal == Some(VersionMismatch) <==> ValidName(name) && row.version != version)
    && (refusal == Some(BeingDeleted) <==> current && !free)
    && (refusal == Some(NameTaken) <==> current && free && taken)
    && t == if refusal.Some? then s
            else Snapshot(Hierarchy(h.dirs, h.files[f := File(p, name, row.contentType, row.status, row.stored, version + 1)], h.roots),
                          s.log + [FileMoved(FileData(f, org, p, name, row.contentType, row.stored, version + 1))])
  }

  lemma MovesFileThere(h: Hierarchy, org: Id, f: FileId, version: nat, to: Ref, name: string, p: Id)
    requires Sound(h) && f in h.files && Home(h, org, h.files[f].directory) && Refers(h, org, to, p)
    ensures Run(h, MoveFile(org, f, version, to, name)) == RunMoveFile(h, org, f, version, p, name)
  {
    FileInScope(h, org, f);
    InScope(h, org, to, p);
    hide Sound, FileScope, WithinRoot, Home, Refers, RunMoveFile;
  }

  lemma MoveFileAnswers(s: Snapshot, org: Id, f: FileId, version: nat, to: Ref, name: string, p: Id)
    requires Sound(s.rows) && f in s.rows.files && Home(s.rows, org, s.rows.files[f].directory) && Refers(s.rows, org, to, p)
    ensures var c := MoveFile(org, f, version, to, name); MovesFile(s, Step(s, c), Refusing(s, c), org, f, version, p, name)
  {
    MovesFileThere(s.rows, org, f, version, to, name, p);
    hide Run, Sound, Home, Refers, ValidName, ParentsIn;
  }

  // ---- What names nothing ----

  /** Why a request that names nothing in the organization's root is refused. */
  function Missing(h: Hierarchy, org: Id): Refusal {
    if org in h.roots then NotFound else NoRow
  }

  predicate OnDirectory(c: Command) {
    c.CreateDirectory? || c.DeleteDirectory? || c.MarkBranch? || c.MoveDirectory? || c.BeginUpload?
  }

  function DirectoryOf(c: Command): Ref
    requires OnDirectory(c)
  {
    if c.CreateDirectory? then c.parent else c.dir
  }

  /** A request whose directory, file, or destination names nothing in the organization's root
      is refused, and so is a move of the root itself. */
  lemma NamesNothing(h: Hierarchy, c: Command)
    requires Sound(h)
    ensures OnDirectory(c) && (forall d :: !Refers(h, c.org, DirectoryOf(c), d)) ==>
              Run(h, c) == Refused(Missing(h, c.org))
    ensures (c.DeleteFile? || c.MoveFile?) && !(c.file in h.files && Home(h, c.org, h.files[c.file].directory)) ==>
              Run(h, c) == Refused(Missing(h, c.org))
    ensures c.MoveFile? && c.file in h.files && Home(h, c.org, h.files[c.file].directory) && (forall p :: !Refers(h, c.org, c.to, p)) ==>
              Run(h, c) == Refused(NotFound)
    ensures c.MoveDirectory? && c.org in h.roots && Refers(h, c.org, c.dir, h.roots[c.org]) ==> Run(h, c) == Refused(RootMove)
    ensures c.MoveDirectory? && c.org in h.roots && (exists d :: Refers(h, c.org, c.dir, d) && d != h.roots[c.org])
            && (forall p :: !Refers(h, c.org, c.to, p)) ==>
              Run(h, c) == Refused(NotFound)
  {
    if OnDirectory(c) {
      ScopeIsExact(h, c.org, DirectoryOf(c));
    }
    if c.DeleteFile? || c.MoveFile? {
      FileInScope(h, c.org, c.file);
    }
    if c.MoveDirectory? || c.MoveFile? {
      ScopeIsExact(h, c.org, c.to);
    }
    hide Sound, Refers, Home, RunCreate, RunDelete, RunMark, RunMove, RunBegin, RunDeleteFile, RunMoveFile;
  }

  // ---- A whole request, whatever its references name ----

  lemma CreateWhole(s: Snapshot, org: Id, parent: Ref, name: string, id: Id)
    requires Sound(s.rows)
    ensures var c := CreateDirectory(org, parent, name, id, false);
            && (forall p :: Refers(s.rows, org, parent, p) ==> CreatesDirectory(s, Step(s, c), Refusing(s, c), org, p, name, id, false))
            && ((forall p :: !Refers(s.rows, org, parent, p)) ==> Step(s, c) == s && Refusing(s, c) == Some(Missing(s.rows, org)))
  {
    var c := CreateDirectory(org, parent, name, id, false);
    NamesNothing(s.rows, c);
    hide Sound, Run, Refers, CreatesDirectory;
    forall p | Refers(s.rows, org, parent, p)
      ensures CreatesDirectory(s, Step(s, c), Refusing(s, c), org, p, name, id, false)
    {
      CreateAnswers(s, org, parent, name, id, false, p);
    }
  }

  lemma DeleteWhole(s: Snapshot, org: Id, ref: Ref, version: nat, lenient: bool)
    requires Sound(s.rows)
    ensures var c := DeleteDirectory(org, ref, version, lenient);
            && (forall d :: Refers(s.rows, org, ref, d) ==> DeletesDirectory(s, Step(s, c), Refusing(s, c), org, d, version, lenient))
            && ((forall d :: !Refers(s.rows, org, ref, d)) ==> Step(s, c) == s && Refusing(s, c) == Some(Missing(s.rows, org)))
  {
    var c := DeleteDirectory(org, ref, version, lenient);
    NamesNothing(s.rows, c);
    hide Sound, Run, Refers, DeletesDirectory;
    forall d | Refers(s.rows, org, ref, d)
      ensures DeletesDirectory(s, Step(s, c), Refusing(s, c), org, d, version, lenient)
    {
      DeleteAnswers(s, org, ref, version, lenient, d);
    }
  }

  lemma MarkWhole(s: Snapshot, org: Id, ref: Ref, version: nat)
    requires Sound(s.rows)
    ensures var c := MarkBranch(org, ref, version);
            && (forall d :: Refers(s.rows, org, ref, d) ==> MarksBranch(s, Step(s, c), Refusing(s, c), org, d, version))
            && ((forall d :: !Refers(s.rows, org, ref, d)) ==> Step(s, c) == s && Refusing(s, c) == Some(Missing(s.rows, org)))
  {
    var c := MarkBranch(org, ref, version);
    NamesNothing(s.rows, c);
    hide Sound, Run, Refers, MarksBranch;
    forall d | Refers(s.rows, org, ref, d)
      ensures MarksBranch(s, Step(s, c), Refusing(s, c), org, d, version)
    {
      MarkAnswers(s, org, ref, version, d);
    }
  }

  /** A directory other than the root, and where it is to go. */
  ghost predicate Moving(h: Hierarchy, org: Id, ref: Ref, to: Ref, d: Id, p: Id) {
    Refers(h, org, ref, d) && Refers(h, org, to, p) && d != h.roots[org]
  }

  lemma MovesNothing(h: Hierarchy, org: Id, ref: Ref, version: nat, to: Ref, name: string)
    requires Sound(h) && forall d, p :: !Moving(h, org, ref, to, d, p)
    ensures Run(h, MoveDirectory(org, ref, version, to, name))
         == Refused(if org in h.roots && Refers(h, org, ref, h.roots[org]) then RootMove else Missing(h, org))
  {
    var c := MoveDirectory(org, ref, version, to, name);
    NamesNothing(h, c);
    OwnDirectory(h, org, ref);
    hide Sound, Run, Refers;
    if d :| Refers(h, org, ref, d) {
      if d != h.roots[org] {
        assert forall p :: Refers(h, org, to, p) ==> Moving(h, org, ref, to, d, p);
      }
    }
  }

  lemma OwnDirectory(h: Hierarchy, org: Id, ref: Ref)
    ensures forall a :: Refers(h, org, ref, a) ==> org in h.roots
    ensures forall a, b :: Refers(h, org, ref, a) && Refers(h, org, ref, b) ==> a == b
  {
  }

  lemma MoveWhole(s: Snapshot, org: Id, ref: Ref, version: nat, to: Ref, name: string)
    requires Sound(s.rows)
    ensures var c := MoveDirectory(org, ref, version, to, name);
            && (forall d, p :: Moving(s.rows, org, ref, to, d, p) ==> MovesDirectory(s, Step(s, c), Refusing(s, c), org, d, version, p, name))
            && ((forall d, p :: !Moving(s.rows, org, ref, to, d, p)) ==>
                  && Step(s, c) == s
                  && Refusing(s, c) == Some(if org in s.rows.roots && Refers(s.rows, org, ref, s.rows.roots[org]) then RootMove
                                            else Missing(s.rows, org)))
  {
    var c := MoveDirectory(org, ref, version, to, name);
    hide Sound, Run, Within, ParentsIn, MovesDirectory;
    if forall d, p :: !Moving(s.rows, org, ref, to, d, p) {
      MovesNothing(s.rows, org, ref, version, to, name);
    }
    forall d, p | Moving(s.rows, org, ref, to, d, p)
      ensures MovesDirectory(s, Step(s, c), Refusing(s, c), org, d, version, p, name)
    {
      MoveAnswers(s, org, ref, version, to, name, d, p);
    }
  }

  lemma BeginWhole(s: Snapshot, org: Id, dir: Ref, name: string, contentType: string, f: FileId)
    requires Sound(s.rows)
    ensures var c := BeginUpload(org, dir, name, contentType, f, false);
            && (forall d :: Refers(s.rows, org, dir, d) ==> BeginsUpload(s, Step(s, c), Refusing(s, c), d, name, contentType, f, false))
            && ((forall d :: !Refers(s.rows, org, dir, d)) ==> Step(s, c) == s && Refusing(s, c) == Some(Missing(s.rows, org)))
  {
    var c := BeginUpload(org, dir, name, contentType, f, false);
    NamesNothing(s.rows, c);
    hide Sound, Run, Refers, BeginsUpload;
    forall d | Refers(s.rows, org, dir, d)
      ensures BeginsUpload(s, Step(s, c), Refusing(s, c), d, name, contentType, f, false)
    {
      BeginAnswers(s, org, dir, name, contentType, f, false, d);
    }
  }

  /** The file lies in the organization's root. */
  ghost predicate OwnFile(h: Hierarchy, org: Id, f: FileId) {
    f in h.files && Home(h, org, h.files[f].directory)
  }

  lemma DeleteFileWhole(s: Snapshot, org: Id, f: FileId, version: nat)
    requires Sound(s.rows)
    ensures var c := DeleteFile(org, f, version);
            if OwnFile(s.rows, org, f) then DeletesFile(s, Step(s, c), Refusing(s, c), org, f, version)
            else Step(s, c) == s && Refusing(s, c) == Some(Missing(s.rows, org))
  {
    NamesNothing(s.rows, DeleteFile(org, f, version));
    hide Sound, Run, Home, DeletesFile;
    if OwnFile(s.rows, org, f) {
      DeleteFileAnswers(s, org, f, version);
    }
  }

  /** The file's delete begins, and its row goes too where its object's purge succeeds. */
  ghost predicate RemovesFile(s: Snapshot, t: Snapshot, refusal: Option<Refusal>, org: Id, f: FileId, version: nat, purged: bool)
    requires f in s.rows.files
  {
    var h := s.rows;
    var row := h.files[f];
    && refusal == (if row.status == Doomed || row.version == version then None else Some(VersionMismatch))
    && t.log == (if refusal.None? && row.status != Doomed then s.log + [FileDeleted(f, org, version + 1)] else s.log)
    && t.rows.dirs == h.dirs && t.rows.roots == h.roots
    && t.rows.files == if refusal.Some? then h.files
                       else if purged then h.files - {f}
                       else h.files[f := if row.status == Doomed then row
                                         else File(row.directory, row.name, row.contentType, Doomed, row.stored, version + 1)]
  }

  /** What a file's delete leaves once its purge has succeeded, or has not. */
  ghost function Retired(s: Snapshot, org: Id, f: FileId, version: nat, purged: bool): Snapshot {
    var begun := Step(s, DeleteFile(org, f, version));
    if Refusing(s, DeleteFile(org, f, version)).None? && purged then Step(begun, Purge(f)) else begun
  }

  lemma RemoveWhole(s: Snapshot, org: Id, f: FileId, version: nat, purged: bool)
    requires Sound(s.rows)
    ensures var t, refusal := Retired(s, org, f, version, purged), Refusing(s, DeleteFile(org, f, version));
            if OwnFile(s.rows, org, f) then RemovesFile(s, t, refusal, org, f, version, purged)
            else t == s && refusal == Some(Missing(s.rows, org))
  {
    var begun := Step(s, DeleteFile(org, f, version));
    DeleteFileWhole(s, org, f, version);
    PurgeWhole(begun, f);
    hide Sound, Run, Home, Step, Refusing;
    if OwnFile(s.rows, org, f) {
      BegunThenGone(s, begun, Step(begun, Purge(f)), Refusing(s, DeleteFile(org, f, version)), org, f, version, purged);
    }
  }

  lemma BegunThenGone(s: Snapshot, begun: Snapshot, gone: Snapshot, refusal: Option<Refusal>, org: Id, f: FileId, version: nat, purged: bool)
    requires f in s.rows.files && DeletesFile(s, begun, refusal, org, f, version)
    requires refusal.None? ==> gone == Snapshot(Hierarchy(begun.rows.dirs, begun.rows.files - {f}, begun.rows.roots), begun.log)
    ensures RemovesFile(s, if refusal.None? && purged then gone else begun, refusal, org, f, version, purged)
  {
    var row := s.rows.files[f];
    assert s.rows.files[f := row] == s.rows.files;
    assert s.rows.files[f := File(row.directory, row.name, row.contentType, Doomed, row.stored, version + 1)] - {f} == s.rows.files - {f};
  }

  /** A file's row goes where its delete has begun. */
  lemma PurgeWhole(s: Snapshot, f: FileId)
    ensures f in s.rows.files && s.rows.files[f].status == Doomed ==>
              Step(s, Purge(f)) == Snapshot(Hierarchy(s.rows.dirs, s.rows.files - {f}, s.rows.roots), s.log)
  {
  }

  lemma MoveFileWhole(s: Snapshot, org: Id, f: FileId, version: nat, to: Ref, name: string)
    requires Sound(s.rows)
    ensures var c := MoveFile(org, f, version, to, name);
            && (forall p :: OwnFile(s.rows, org, f) && Refers(s.rows, org, to, p) ==> MovesFile(s, Step(s, c), Refusing(s, c), org, f, version, p, name))
            && (!OwnFile(s.rows, org, f) || (forall p :: !Refers(s.rows, org, to, p)) ==>
                  Step(s, c) == s && Refusing(s, c) == Some(Missing(s.rows, org)))
  {
    var c := MoveFile(org, f, version, to, name);
    NamesNothing(s.rows, c);
    OwnersRoot(s.rows, org, f);
    hide Sound, Run, Home, Refers, MovesFile;
    forall p | OwnFile(s.rows, org, f) && Refers(s.rows, org, to, p)
      ensures MovesFile(s, Step(s, c), Refusing(s, c), org, f, version, p, name)
    {
      MoveFileAnswers(s, org, f, version, to, name, p);
    }
  }

  lemma OwnersRoot(h: Hierarchy, org: Id, f: FileId)
    ensures OwnFile(h, org, f) ==> org in h.roots
  {
  }

  // ---- The version a guarded command names ----

  predicate IsGuarded(c: Command) {
    c.DeleteDirectory? || c.MarkBranch? || c.MoveDirectory? || c.DeleteFile? || c.MoveFile?
  }

  /** The row the command is to change, not a delete's retry, stands in scope at the version. */
  ghost predicate TargetAt(h: Hierarchy, c: Command, version: nat) {
    match c
    case DeleteDirectory(org, dir, _, _) => exists d :: Refers(h, org, dir, d) && h.dirs[d].version == version
    case MarkBranch(org, dir, _) => exists d :: Refers(h, org, dir, d) && h.dirs[d].version == version && h.dirs[d].status == Active
    case MoveDirectory(org, dir, _, _, _) => exists d :: Refers(h, org, dir, d) && h.dirs[d].version == version
    case DeleteFile(org, f, _) =>
      f in h.files && Home(h, org, h.files[f].directory) && h.files[f].version == version && h.files[f].status != Doomed
    case MoveFile(org, f, _, _, _) => f in h.files && Home(h, org, h.files[f].directory) && h.files[f].version == version
    case _ => false
  }

  /** The row's delete has begun already, and the command begins it again. */
  ghost predicate Retries(h: Hierarchy, c: Command) {
    match c
    case MarkBranch(org, dir, _) => exists d :: Refers(h, org, dir, d) && h.dirs[d].status == Deleting
    case DeleteFile(org, f, _) => f in h.files && Home(h, org, h.files[f].directory) && h.files[f].status == Doomed
    case _ => false
  }

  /** Where a move is to go, it may: another directory than the root, to a directory in scope and
      under a valid name. */
  ghost predicate Lands(h: Hierarchy, c: Command) {
    match c
    case MoveDirectory(org, dir, _, to, name) =>
      ValidName(name) && (exists p :: Refers(h, org, to, p)) && exists d :: Refers(h, org, dir, d) && d != h.roots[org]
    case MoveFile(org, _, _, to, name) => ValidName(name) && exists p :: Refers(h, org, to, p)
    case _ => true
  }

  /** A plain delete, a first mark, a move, a file's delete, and a file's move each commit at the
      version they name alone, only a retry at any; every other version is refused as stale. */
  lemma OnlyAtItsVersion(h: Hierarchy, c: Command, version: nat)
    requires Sound(h) && IsGuarded(c)
    ensures Run(h, c).Committed? ==> TargetAt(h, c, c.version) || Retries(h, c)
    ensures TargetAt(h, c, version) && version != c.version ==> Run(h, c).Refused?
    ensures TargetAt(h, c, version) && version != c.version && Lands(h, c) ==> Run(h, c) == Refused(VersionMismatch)
  {
    NamesNothing(h, c);
    hide Run, Sound;
    match c
    case DeleteDirectory(org, dir, v, lenient) =>
      if d :| Refers(h, org, dir, d) {
        DeletesAtItsVersion(h, c, d);
      }
    case MarkBranch(org, dir, v) =>
      if d :| Refers(h, org, dir, d) {
        MarksAtItsVersion(h, c, d);
      }
    case MoveDirectory(org, dir, v, to, name) =>
      if d, p :| Refers(h, org, dir, d) && Refers(h, org, to, p) && d != h.roots[org] {
        MovesAtItsVersion(h, c, d, p);
      }
    case DeleteFile(org, f, v) =>
      if f in h.files && Home(h, org, h.files[f].directory) {
        DeleteFileAnswers(Snapshot(h, []), org, f, v);
      }
    case MoveFile(org, f, v, to, name) =>
      if p :| f in h.files && Home(h, org, h.files[f].directory) && Refers(h, org, to, p) {
        MoveFileAnswers(Snapshot(h, []), org, f, v, to, name, p);
      }
  }

  lemma DeletesAtItsVersion(h: Hierarchy, c: Command, d: Id)
    requires Sound(h) && c.DeleteDirectory? && Refers(h, c.org, c.dir, d)
    ensures Run(h, c).Committed? ==> TargetAt(h, c, c.version)
    ensures h.dirs[d].version != c.version ==> Run(h, c) == Refused(VersionMismatch)
  {
    DeleteAnswers(Snapshot(h, []), c.org, c.dir, c.version, c.lenient, d);
    hide Run, Sound, Refers;
  }

  lemma MarksAtItsVersion(h: Hierarchy, c: Command, d: Id)
    requires Sound(h) && c.MarkBranch? && Refers(h, c.org, c.dir, d)
    ensures Run(h, c).Committed? ==> TargetAt(h, c, c.version) || Retries(h, c)
    ensures h.dirs[d].version != c.version && h.dirs[d].status == Active ==> Run(h, c) == Refused(VersionMismatch)
  {
    MarkAnswers(Snapshot(h, []), c.org, c.dir, c.version, d);
    hide Run, Sound, Refers, Branched;
  }

  lemma MovesAtItsVersion(h: Hierarchy, c: Command, d: Id, p: Id)
    requires Sound(h) && c.MoveDirectory? && Refers(h, c.org, c.dir, d) && Refers(h, c.org, c.to, p) && d != h.roots[c.org]
    ensures Run(h, c).Committed? ==> TargetAt(h, c, c.version)
    ensures h.dirs[d].version != c.version && ValidName(c.name) ==> Run(h, c) == Refused(VersionMismatch)
  {
    MoveAnswers(Snapshot(h, []), c.org, c.dir, c.version, c.to, c.name, d, p);
    hide Run, Sound, Refers, ValidName, Within;
  }

  // ---- The sweep and the purges ----

  predicate OnSweptFile(c: Command) {
    c.Abandon? || c.Purge? || c.Reclaim? || c.SweepFile?
  }

  /** The transactions no request runs raise nothing and touch only what a delete has reached. Of
      files: an abandon leaves a pending row deleting at its version, and a row goes where it is
      deleting, or pending, or in a directory that is deleting. */
  lemma SweptFiles(h: Hierarchy, c: Command)
    requires Sound(h) && OnSweptFile(c)
    ensures var r := Run(h, c);
            && (r.Committed? <==>
                  && c.file in h.files
                  && var row := h.files[c.file];
                     if c.Abandon? then row.status == Pending
                     else if c.Purge? then row.status == Doomed
                     else if c.Reclaim? then row.status != Available
                     else h.dirs[row.directory].status == Deleting)
            && (r.Committed? ==>
                  && r.event.None?
                  && var row := h.files[c.file];
                     r.after == h.(files := if c.Abandon?
                                            then h.files[c.file := File(row.directory, row.name, row.contentType, Doomed, None, row.version)]
                                            else h.files - {c.file}))
  {
    if c.file in h.files {
      FileStands(h, c.file);
    }
    hide Sound;
  }

  /** Of directories: a row is marked where the one above it is deleting. */
  lemma SweptMark(h: Hierarchy, d: Id)
    requires Sound(h)
    ensures var r := Run(h, SweepMark(d));
            && (r.Committed? <==> d in h.dirs && h.dirs[d].parent in h.dirs && h.dirs[h.dirs[d].parent].status == Deleting)
            && (r.Committed? ==>
                  && r.event.None?
                  && var row := h.dirs[d];
                     r.after == if row.status == Deleting then h
                                else h.(dirs := h.dirs[d := Directory(row.parent, row.name, Deleting, row.version + 1)]))
  {
    hide Sound;
    if d in h.dirs {
      assert PutDir(h, d, h.dirs[d]) == h;
    }
  }

  /** And it goes, with its organization's owner row if it is a root, where it is deleting and
      empty. */
  lemma SweptDirectory(h: Hierarchy, d: Id)
    requires Sound(h)
    ensures var r := Run(h, SweepDirectory(d));
            && (r.Committed? <==>
                  && d in h.dirs && h.dirs[d].status == Deleting
                  && (forall x :: x in h.dirs ==> h.dirs[x].parent != d) && (forall f :: f in h.files ==> h.files[f].directory != d))
            && (r.Committed? ==>
                  && r.event.None? && r.after.dirs == h.dirs - {d} && r.after.files == h.files
                  && r.after.roots == if h.dirs[d].name.OfOrganization? then h.roots - {h.dirs[d].name.org} else h.roots)
  {
    if d in h.dirs {
      OwnerRowGoes(h, d);
    }
    hide Sound;
  }

  lemma OwnerRowGoes(h: Hierarchy, d: Id)
    requires Sound(h) && d in h.dirs
    ensures DropDir(h, d).roots == if h.dirs[d].name.OfOrganization? then h.roots - {h.dirs[d].name.org} else h.roots
  {
    hide IsForest, Unique, Housed;
  }
}
