/** The document store's protocols, on the rows, the ids, and the outbox they change. Each
    transaction reads and writes its own rows and commits its event with them, or changes
    nothing; a write under the root's alias is two transactions, the root's first. */
module DocumentStore {
  import opened Forest
  import opened Events
  import opened Documents
  import opened DocumentScope
  import opened DocumentAnswers
  import opened DocumentReplay
  import DocumentPaths

  datatype Identity = Identity(id: Id, version: nat)
  datatype Result<T> = Success(value: T) | Failure(refusal: Refusal)

  ghost function Answered<T>(r: Result<T>): Option<Refusal> {
    if r.Failure? then Some(r.refusal) else None
  }

  /** The rows a write finds: under the root's alias, those the root's transaction leaves. */
  ghost function Rooted(s: Snapshot, org: Id, ref: Ref, stands: bool, rootId: Id): Snapshot {
    if ref.Alias? then Step(s, EnsureRoot(org, stands, rootId)) else s
  }

  /** How far a failed write's abandon got: its first half failed, its second half did, or
      neither. */
  datatype Cleanup = LeftPending | LeftDeleting | Removed

  /** The rows after the abandon: the pending row as it was, deleting, or gone. */
  ghost function Cleaned(s: Snapshot, f: FileId, cleanup: Cleanup): Snapshot {
    match cleanup
    case LeftPending => s
    case LeftDeleting => Step(s, Abandon(f))
    case Removed => Step(Step(s, Abandon(f)), Purge(f))
  }

  /** An upload of f into d stores and completes one available file with its one event; a write
      that fails after its pending row commits no event, its row gone, or left as the abandon left
      it; and one refused leaves everything as it was. */
  ghost predicate Uploads(s: Snapshot, t: Snapshot, r: Result<nat>, org: Id, d: Id, name: string, contentType: string, f: FileId,
                          put: Option<Object>, hooked: bool, cleanup: Cleanup)
    requires d in s.rows.dirs
  {
    var h := s.rows;
    var begins := && ValidName(name) && h.dirs[d].status == Active
                  && forall g :: g in h.files && g != f ==> h.files[g].directory != d || h.files[g].name != name;
    if begins && put.Some? && hooked then
      && r == Success(2)
      && t == Snapshot(Hierarchy(h.dirs, h.files[f := File(d, name, contentType, Available, put, 2)], h.roots),
                       s.log + [FileUploaded(FileData(f, org, d, name, contentType, put, 2))])
    else
      && r.Failure? && (begins ==> r.refusal == Unstored)
      && t == Snapshot(Hierarchy(h.dirs,
                                 if !begins || cleanup.Removed? then h.files
                                 else h.files[f := File(d, name, contentType, if cleanup.LeftPending? then Pending else Doomed, None, 1)],
                                 h.roots),
                       s.log)
  }

  /** The write as its transactions, and as what it leaves where its directory is in scope. */
  ghost predicate Writes(s: Snapshot, t: Snapshot, r: Result<nat>, org: Id, dir: Ref, name: string, contentType: string, f: FileId,
                         put: Option<Object>, hooked: bool, cleanup: Cleanup) {
    var c := BeginUpload(org, dir, name, contentType, f, false);
    && (if Refusing(s, c).Some? then t == s && r == Failure(Refusing(s, c).value)
        else if put.Some? && hooked then t == Step(Step(s, c), Complete(org, f, put.value, false)) && r == Success(2)
        else t == Cleaned(Step(s, c), f, cleanup) && r == Failure(Unstored))
    && (forall d :: Refers(s.rows, org, dir, d) ==> Uploads(s, t, r, org, d, name, contentType, f, put, hooked, cleanup))
    && ((forall d :: !Refers(s.rows, org, dir, d)) ==> t == s && r == Failure(Missing(s.rows, org)))
  }

  class DocumentStore {
    var rows: Hierarchy
    var organizations: set<Id>
    var minted: set<Id>
    var filesMinted: set<nat>
    var outbox: seq<Event>

    ghost predicate Valid()
      reads this
    {
      && Sound(rows) && rows.dirs.Keys <= minted && TOP in minted
      && forall n :: Minted(n) in rows.files ==> n in filesMinted
    }

    ghost function Snap(): Snapshot
      reads this
    {
      Snapshot(rows, outbox)
    }

    constructor (orgs: set<Id>)
      ensures Valid() && Snap() == Snapshot(EMPTY, []) && organizations == orgs
    {
      rows, organizations, minted, filesMinted, outbox := EMPTY, orgs, {TOP}, {}, [];
      new;
      assert ParentsIn(EMPTY) == map[];
    }

    method Mint() returns (id: Id)
      requires Valid()
      modifies this`minted
      ensures Valid() && id !in old(minted) && minted == old(minted) + {id}
    {
      BeyondMax(minted);
      id :| id !in minted;
      minted := minted + {id};
    }

    method MintFile() returns (f: FileId)
      requires Valid()
      modifies this`filesMinted
      ensures Valid() && f.Minted? && f.n in filesMinted && f !in rows.files
    {
      BeyondMax(filesMinted);
      var n: nat :| n !in filesMinted;
      filesMinted := filesMinted + {n};
      f := Minted(n);
    }

    // ---- Scope ----

    method Inside(root: Id, ref: Ref) returns (r: Result<Id>)
      requires Valid() && root in rows.dirs
      ensures r == match WithinRoot(rows, root, ref) case In(_, d) => Success(d) case Out(e) => Failure(e)
    {
      hide Sound, Within;
      ForestOf(rows);
      if ref == Alias || ref.id == root {
        return Success(root);
      }
      var inside := InSubtree(ParentsIn(rows), root, ref.id);
      if !inside {
        return Failure(NotFound);
      }
      return Success(ref.id);
    }

    /** Resolves the directory a request names within the organization's root. */
    method Resolve(org: Id, ref: Ref) returns (root: Id, r: Result<Id>)
      requires Valid()
      ensures r == match Scope(rows, org, ref) case In(_, d) => Success(d) case Out(e) => Failure(e)
      ensures r.Success? ==> Scope(rows, org, ref) == In(root, r.value) && root == rows.roots[org] && root in rows.dirs && Home(rows, org, r.value)
    {
      root := TOP;
      if org !in rows.roots {
        return root, Failure(NoRow);
      }
      root := rows.roots[org];
      RootIsRow(rows, org);
      r := Inside(root, ref);
      if r.Success? {
        ScopeIsHome(rows, org, ref);
      }
    }

    /** Reads the file when its directory lies within the organization's root. */
    method ResolveFile(org: Id, f: FileId) returns (root: Id, r: Result<File>)
      requires Valid()
      ensures r.Success? <==> FileScope(rows, org, f).In?
      ensures r.Failure? ==> FileScope(rows, org, f) == Out(r.refusal)
      ensures r.Success? ==> f in rows.files && r.value == rows.files[f] && root == FileScope(rows, org, f).root && root in rows.dirs
    {
      root := TOP;
      if org !in rows.roots {
        return root, Failure(NoRow);
      }
      root := rows.roots[org];
      RootIsRow(rows, org);
      if f !in rows.files {
        return root, Failure(NotFound);
      }
      var dir := Inside(root, At(rows.files[f].directory));
      if dir.Failure? {
        return root, Failure(NotFound);
      }
      return root, Success(rows.files[f]);
    }

    // ---- Directories ----

    /** The organization's root, created with its owner row on its first write; a seed gives
        the id. */
    method EnsureDocumentRoot(org: Id, fixed: Option<Id>) returns (id: Id, r: Result<Id>)
      requires Valid() && (fixed.Some? ==> fixed.value != TOP)
      modifies this
      ensures Valid() && organizations == old(organizations) && id != TOP
      ensures fixed.Some? ==> id == fixed.value
      ensures fixed.None? ==> id !in old(rows).dirs
      ensures rows.dirs.Keys <= old(rows).dirs.Keys + {id} && old(minted) + {id} <= minted
      ensures rows.files == old(rows).files && filesMinted == old(filesMinted)
      ensures Snap() == Step(old(Snap()), EnsureRoot(org, org in organizations, id))
      ensures Answered(r) == Refusing(old(Snap()), EnsureRoot(org, org in organizations, id))
      ensures EnsuresRoot(old(Snap()), Snap(), Answered(r), org, org in organizations, id)
      ensures r.Success? ==> org in rows.roots && r.value == rows.roots[org]
    {
      hide IsForest, Unique, Housed, Binds, EnsuresRoot;
      if fixed.Some? {
        id := fixed.value;
      } else {
        id := Mint();
      }
      minted := minted + {id};
      EnsureRootAnswers(Snap(), org, org in organizations, id);
      if org in rows.roots {
        return id, Success(rows.roots[org]);
      }
      if org !in organizations {
        return id, Failure(NoRow);
      }
      NoRootUnbound(rows, org);
      if id in rows.dirs {
        return id, Failure(IdTaken);
      }
      var row := Directory(TOP, OfOrganization(org), Active, 1);
      EnsureRootKeeps(rows, org, true, id);
      rows := rows.(dirs := rows.dirs[id := row], roots := rows.roots[org := id]);
      outbox := outbox + [DirectoryCreated(Shown(org, id, id, row))];
      r := Success(id);
    }

    method CreateDirectory(org: Id, parent: Ref, name: string) returns (rootId: Id, id: Id, r: Result<Identity>)
      requires Valid()
      modifies this
      ensures Valid() && organizations == old(organizations) && rootId != id && old(minted) <= minted
      ensures rootId !in old(rows).dirs && id !in old(rows).dirs
      ensures var before := Rooted(old(Snap()), org, parent, org in organizations, rootId);
              var c := Command.CreateDirectory(org, parent, name, id, false);
              Snap() == Step(before, c) && Answered(r) == Refusing(before, c)
      ensures var before := Rooted(old(Snap()), org, parent, org in organizations, rootId);
              && (forall p :: Refers(before.rows, org, parent, p) ==> CreatesDirectory(before, Snap(), Answered(r), org, p, name, id, false))
              && ((forall p :: !Refers(before.rows, org, parent, p)) ==> Snap() == before && r == Failure(Missing(before.rows, org)))
      ensures r.Success? ==> r.value == Identity(id, 1)
    {
      hide Sound, Home, DirectoryNamed, WithinRoot, RunEnsureRoot, CreatesDirectory, Refers;
      id := Mint();
      rootId := Mint();
      RootedSound(Snap(), org, parent, org in organizations, rootId);
      CreateWhole(Rooted(Snap(), org, parent, org in organizations, rootId), org, parent, name, id);
      if parent.Alias? {
        var ensured;
        rootId, ensured := EnsureDocumentRoot(org, Some(rootId));
        if ensured.Failure? {
          RefusedRoot(old(rows), org, org in organizations, rootId);
          return rootId, id, Failure(ensured.refusal);
        }
      }
      var root, scoped := Resolve(org, parent);
      if scoped.Failure? {
        return rootId, id, Failure(scoped.refusal);
      }
      var p := scoped.value;
      HomeIsRow(rows, org, p);
      if !ValidName(name) {
        return rootId, id, Failure(BadName);
      }
      if rows.dirs[p].status == Deleting {
        return rootId, id, Failure(BeingDeleted);
      }
      if DirectoryNamed(rows, id, p, Plain(name)) {
        return rootId, id, Failure(NameTaken);
      }
      var row := Directory(p, Plain(name), Active, 1);
      CreateKeeps(rows, org, root, p, name, id, false);
      rows := rows.(dirs := rows.dirs[id := row]);
      outbox := outbox + [DirectoryCreated(Shown(org, root, id, row))];
      r := Success(Identity(id, row.version));
    }

    /** The directory's path from the root, with its row. */
    method ReadDirectory(org: Id, ref: Ref) returns (r: Result<(Directory, string)>)
      requires Valid()
      ensures r.Failure? ==> Scope(rows, org, ref) == Out(r.refusal)
      ensures r.Success? ==>
                && Scope(rows, org, ref).In?
                && var d := Scope(rows, org, ref).dir;
                && Home(rows, org, d)
                && r.value.0 == rows.dirs[d]
                && r.value.1 != "" && r.value.1[0] == '/' && (r.value.1 == "/" <==> d == rows.roots[org])
                && (d != rows.roots[org] ==> DocumentPaths.LeadsTo(rows, rows.roots[org], r.value.1, d))
    {
      var root, scoped := Resolve(org, ref);
      if scoped.Failure? {
        return Failure(scoped.refusal);
      }
      var path := DocumentPaths.ReportPath(rows, org, scoped.value);
      r := Success((rows.dirs[scoped.value], path));
    }

    method DeleteDirectory(org: Id, ref: Ref, version: nat, lenient: bool) returns (r: Result<()>)
      requires Valid()
      modifies this
      ensures Valid() && organizations == old(organizations)
      ensures Snap() == Step(old(Snap()), Command.DeleteDirectory(org, ref, version, lenient))
      ensures Answered(r) == Refusing(old(Snap()), Command.DeleteDirectory(org, ref, version, lenient))
      ensures forall d :: Refers(old(rows), org, ref, d) ==> DeletesDirectory(old(Snap()), Snap(), Answered(r), org, d, version, lenient)
      ensures (forall d :: !Refers(old(rows), org, ref, d)) ==> Snap() == old(Snap()) && r == Failure(Missing(old(rows), org))
    {
      ghost var c := Command.DeleteDirectory(org, ref, version, lenient);
      DeleteWhole(Snap(), org, ref, version, lenient);
      hide Sound, Run, Scope, Home, DeletesDirectory, Refers, RunDelete;
      var root, scoped := Resolve(org, ref);
      if scoped.Failure? {
        OutOfScope(rows, c);
        return Failure(scoped.refusal);
      }
      HomeIsRow(rows, org, scoped.value);
      RunsInScope(rows, c);
      r := Remove(org, scoped.value, version, lenient);
    }

    /** The guarded removal of an empty directory's row, with its event. */
    method Remove(org: Id, d: Id, version: nat, lenient: bool) returns (r: Result<()>)
      requires Valid() && d in rows.dirs
      modifies this
      ensures Valid() && organizations == old(organizations)
      ensures Snap() == After(old(Snap()), RunDelete(old(rows), org, d, version, lenient))
      ensures Answered(r) == Why(RunDelete(old(rows), org, d, version, lenient))
    {
      hide Sound, Occupied;
      if rows.dirs[d].version != version {
        return Failure(VersionMismatch);
      }
      if rows.dirs[d].status == Deleting && !lenient {
        return Failure(BeingDeleted);
      }
      if Occupied(rows, d) {
        return Failure(NotEmpty);
      }
      DropKeeps(rows, d);
      rows := DropDir(rows, d);
      outbox := outbox + [DirectoryDeleted(d, org, version)];
      r := Success(());
    }

    /** blobfs's mark: every row beneath the directory, one at a time, and how many
        directories it took from active. */
    method MarkDeleting(d: Id) returns (marked: nat)
      requires Valid() && d in rows.dirs
      modifies this`rows
      ensures Valid() && rows == Mark(old(rows), d)
      ensures marked == |ActiveBeneath(old(rows), d)| && (old(rows).dirs[d].status == Active ==> marked > 0)
    {
      hide Sound, Mark, DirsMarked, FilesMarked, ActiveBeneath;
      TakenAtEnds(rows, d);
      MarkKeeps(rows, d);
      MarkKeepsKeys(rows, d);
      var dirs, n := MarkDirectories(d);
      var files := MarkFiles(d);
      MarkIsBoth(rows, d, dirs, files);
      rows := rows.(dirs := dirs, files := files);
      marked := n;
    }

    /** The directories' rows, each one beneath d marked. */
    method MarkDirectories(d: Id) returns (dirs: map<Id, Directory>, marked: nat)
      requires Valid() && d in rows.dirs
      ensures DirsMarked(rows, d, dirs, {}) && marked == |ActiveBeneath(rows, d)|
    {
      hide Sound, DirsMarked, IsForest, ActiveBeneath;
      var p := ParentsIn(rows);
      ForestOf(rows);
      var left := rows.dirs.Keys;
      dirs, marked := rows.dirs, 0;
      DirsUnmarked(rows, d);
      TakenAtEnds(rows, d);
      while left != {}
        invariant left <= rows.dirs.Keys && DirsMarked(rows, d, dirs, left)
        invariant marked == |ActiveBeneath(rows, d) - left|
        decreases |left|
      {
        var x :| x in left;
        var inside := InSubtree(p, d, x);
        OneMoreTaken(rows, d, left, x);
        DirMarked(rows, d, dirs, left, x, inside);
        if inside && rows.dirs[x].status == Active {
          dirs := dirs[x := MarkedDir(rows.dirs[x])];
          marked := marked + 1;
        }
        left := left - {x};
      }
    }

    /** The files' rows, each one beneath d marked. */
    method MarkFiles(d: Id) returns (files: map<FileId, File>)
      requires Valid() && d in rows.dirs
      ensures FilesMarked(rows, d, files, {})
    {
      hide Sound, FilesMarked, IsForest;
      var p := ParentsIn(rows);
      ForestOf(rows);
      var left := rows.files.Keys;
      files := rows.files;
      FilesUnmarked(rows, d);
      while left != {}
        invariant left <= rows.files.Keys && FilesMarked(rows, d, files, left)
        decreases |left|
      {
        var f :| f in left;
        FileStandsIn(rows, f);
        var inside := InSubtree(p, d, rows.files[f].directory);
        FileMarked(rows, d, files, left, f, inside);
        if inside {
          files := files[f := MarkedFile(rows.files[f])];
        }
        left := left - {f};
      }
    }

    /** Begins the delete of a branch: the first mark raises the directory's event, at the
        version it left; a retry converges and raises nothing. */
    method MarkBranch(org: Id, ref: Ref, version: nat) returns (r: Result<Id>)
      requires Valid()
      modifies this
      ensures Valid() && organizations == old(organizations)
      ensures Snap() == Step(old(Snap()), Command.MarkBranch(org, ref, version))
      ensures Answered(r) == Refusing(old(Snap()), Command.MarkBranch(org, ref, version))
      ensures forall d :: Refers(old(rows), org, ref, d) ==> MarksBranch(old(Snap()), Snap(), Answered(r), org, d, version)
      ensures (forall d :: !Refers(old(rows), org, ref, d)) ==> Snap() == old(Snap()) && r == Failure(Missing(old(rows), org))
    {
      ghost var c := Command.MarkBranch(org, ref, version);
      MarkWhole(Snap(), org, ref, version);
      hide Sound, Run, Scope, Home, MarksBranch, Refers, RunMark;
      var root, scoped := Resolve(org, ref);
      if scoped.Failure? {
        OutOfScope(rows, c);
        return Failure(scoped.refusal);
      }
      HomeIsRow(rows, org, scoped.value);
      RunsInScope(rows, c);
      r := MarkAnchor(org, scoped.value, version);
    }

    /** The mark at the directory's version, with its event where it is the first. */
    method MarkAnchor(org: Id, d: Id, version: nat) returns (r: Result<Id>)
      requires Valid() && d in rows.dirs
      modifies this
      ensures Valid() && organizations == old(organizations)
      ensures Snap() == After(old(Snap()), RunMark(old(rows), org, d, version))
      ensures Answered(r) == Why(RunMark(old(rows), org, d, version)) && (r.Success? ==> r.value == d)
    {
      hide Sound, Mark;
      var anchor := rows.dirs[d];
      if anchor.status == Active && anchor.version != version {
        return Failure(VersionMismatch);
      }
      MarkedRow(rows, d);
      var marked := MarkDeleting(d);
      if anchor.status == Active && marked != 0 {
        outbox := outbox + [DirectoryDeleted(d, org, rows.dirs[d].version)];
      }
      r := Success(d);
    }

    method MoveDirectory(org: Id, ref: Ref, version: nat, to: Ref, name: string) returns (r: Result<Identity>)
      requires Valid()
      modifies this
      ensures Valid() && organizations == old(organizations)
      ensures Snap() == Step(old(Snap()), Command.MoveDirectory(org, ref, version, to, name))
      ensures Answered(r) == Refusing(old(Snap()), Command.MoveDirectory(org, ref, version, to, name))
      ensures forall d, p :: Moving(old(rows), org, ref, to, d, p) ==>
                && MovesDirectory(old(Snap()), Snap(), Answered(r), org, d, version, p, name)
                && (r.Success? ==> r.value == Identity(d, version + 1))
      ensures (forall d, p :: !Moving(old(rows), org, ref, to, d, p)) ==>
                && Snap() == old(Snap())
                && r == Failure(if org in old(rows).roots && Refers(old(rows), org, ref, old(rows).roots[org]) then RootMove
                                else Missing(old(rows), org))
    {
      ghost var c := Command.MoveDirectory(org, ref, version, to, name);
      MoveWhole(Snap(), org, ref, version, to, name);
      MovedIsNamed(rows, org, ref, to);
      hide Sound, Run, Home, Scope, WithinRoot, MovesDirectory, Moving, Refers, RunMove, Missing;
      var root, scoped := Resolve(org, ref);
      if scoped.Failure? {
        OutOfScope(rows, c);
        return Failure(scoped.refusal);
      }
      var d := scoped.value;
      if d == root {
        RootStays(rows, c);
        return Failure(RootMove);
      }
      var dest := Inside(root, to);
      if dest.Failure? {
        NowhereToGo(rows, c);
        return Failure(dest.refusal);
      }
      HomeIsRow(rows, org, d);
      DestinationIsRow(rows, org, to);
      BelowRoot(rows, org, d);
      MovesInScope(rows, c);
      r := Relocate(org, root, d, version, dest.value, name);
    }

    /** The guarded move of a directory's row under p, with its event. */
    method Relocate(org: Id, root: Id, d: Id, version: nat, p: Id, name: string) returns (r: Result<Identity>)
      requires Valid() && d in rows.dirs && p in rows.dirs && rows.dirs[d].parent != TOP
      modifies this
      ensures Valid() && organizations == old(organizations)
      ensures Snap() == After(old(Snap()), RunMove(old(rows), org, root, d, version, p, name))
      ensures Answered(r) == Why(RunMove(old(rows), org, root, d, version, p, name))
      ensures r.Success? ==> r.value == Identity(d, version + 1)
    {
      hide Sound, DirectoryNamed;
      if !ValidName(name) {
        return Failure(BadName);
      }
      if rows.dirs[d].version != version {
        return Failure(VersionMismatch);
      }
      if rows.dirs[d].status == Deleting || rows.dirs[p].status == Deleting {
        return Failure(BeingDeleted);
      }
      ForestOf(rows);
      var cycle := InSubtree(ParentsIn(rows), d, p);
      if cycle {
        return Failure(Cycle);
      }
      if DirectoryNamed(rows, d, p, Plain(name)) {
        return Failure(NameTaken);
      }
      var row := rows.dirs[d].(parent := p, name := Plain(name), version := version + 1);
      MoveKeeps(rows, org, root, d, version, p, name);
      rows := rows.(dirs := rows.dirs[d := row]);
      outbox := outbox + [DirectoryMoved(Shown(org, root, d, row))];
      r := Success(Identity(d, row.version));
    }

    // ---- Files ----

    /** Stores an upload by the two-phase write: the pending row with its scope check, the
        object's put, and the completion with its event. put is the object stored, or none
        when the put fails, and hooked says the completion's event is written. A write that
        fails after its first transaction is abandoned, and commits no event; where the abandon
        fails too it leaves its row, served to nobody, to the sweep. */
    method UploadFile(org: Id, dir: Ref, name: string, contentType: string, put: Option<Object>, hooked: bool, cleanup: Cleanup)
      returns (rootId: Id, f: FileId, r: Result<nat>)
      requires Valid()
      modifies this
      ensures Valid() && organizations == old(organizations)
      ensures rootId !in old(rows).dirs && f !in old(rows).files
      ensures var before := Rooted(old(Snap()), org, dir, org in organizations, rootId);
              Writes(before, Snap(), r, org, dir, name, contentType, f, put, hooked, cleanup)
    {
      hide Sound, Home, WithinRoot, RunEnsureRoot, DirectoryNamed, Scope, Writes;
      rootId := Mint();
      f := MintFile();
      if dir.Alias? {
        var ensured;
        rootId, ensured := EnsureDocumentRoot(org, Some(rootId));
        if ensured.Failure? {
          RefusedRoot(old(rows), org, org in organizations, rootId);
          WritesNothing(Snap(), org, dir, name, contentType, f, put, hooked, cleanup);
          return rootId, f, Failure(ensured.refusal);
        }
      }
      hide Rooted;
      r := WriteFile(org, dir, name, contentType, f, put, hooked, cleanup);
    }

    /** The two-phase write of a new file's row. */
    method WriteFile(org: Id, dir: Ref, name: string, contentType: string, f: FileId, put: Option<Object>, hooked: bool, cleanup: Cleanup)
      returns (r: Result<nat>)
      requires Valid() && f !in rows.files && (f.Minted? ==> f.n in filesMinted)
      modifies this`rows, this`outbox
      ensures Valid() && Writes(old(Snap()), Snap(), r, org, dir, name, contentType, f, put, hooked, cleanup)
    {
      hide Sound, Within, ParentsIn, Step, Refusing, Cleaned, BeginsUpload, CompletesUpload, Uploads, Missing;
      ghost var s := Snap();
      var refusal := Begin(org, dir, name, contentType, f);
      ghost var begun := Snap();
      if refusal.Some? {
        r := Failure(refusal.value);
      } else {
        r := EndUpload(org, f, put, hooked, cleanup);
      }
      forall d | Refers(s.rows, org, dir, d)
        ensures Uploads(s, Snap(), r, org, d, name, contentType, f, put, hooked, cleanup)
      {
        WrittenWhole(s, begun, Snap(), refusal, r, org, d, name, contentType, f, put, hooked, cleanup);
      }
    }

    /** The write from its pending row on: its completion, or its abandon. */
    method EndUpload(org: Id, f: FileId, put: Option<Object>, hooked: bool, cleanup: Cleanup) returns (r: Result<nat>)
      requires Valid() && f in rows.files && rows.files[f].status == Pending && rows.files[f].version == 1
      requires rows.files[f].directory in rows.dirs && rows.dirs[rows.files[f].directory].status == Active
      modifies this`rows, this`outbox
      ensures Valid()
      ensures if put.Some? && hooked then
                && Snap() == Step(old(Snap()), Complete(org, f, put.value, false)) && r == Success(2)
                && CompletesUpload(old(Snap()), Snap(), None, org, f, put.value, false)
              else
                && Snap() == Cleaned(old(Snap()), f, cleanup) && r == Failure(Unstored)
                && outbox == old(outbox)
                && rows == if cleanup.Removed? then DropFile(old(rows), f)
                           else PutFile(old(rows), f, old(rows).files[f].(status := if cleanup.LeftPending? then Pending else Doomed))
    {
      hide Sound, RunComplete, Step, Cleaned, CompletesUpload;
      if put.None? || !hooked {
        AbandonWrite(f, cleanup);
        return Failure(Unstored);
      }
      PendingCompletes(rows, org, f, put.value);
      CompletesWhole(Snap(), org, f, put.value);
      r := CompleteUpload(org, f, put.value);
    }

    /** The write's completion, with its event: refused where a delete, or the mark of its
        directory's branch, came first. */
    method CompleteUpload(org: Id, f: FileId, stored: Object) returns (r: Result<nat>)
      requires Valid()
      modifies this`rows, this`outbox
      ensures Valid() && Snap() == Step(old(Snap()), Complete(org, f, stored, false))
      ensures Answered(r) == Refusing(old(Snap()), Complete(org, f, stored, false))
      ensures r.Success? ==> Served(rows, f) && r.value == rows.files[f].version && |outbox| == |old(outbox)| + 1
      ensures CompletesUpload(old(Snap()), Snap(), Answered(r), org, f, stored, false)
      ensures r.Failure? ==> rows == old(rows) && outbox == old(outbox)
    {
      CompleteAnswers(Snap(), org, f, stored, false);
      hide Sound, CompletesUpload;
      if f !in rows.files {
        return Failure(NotFound);
      }
      if rows.files[f].status == Doomed {
        return Failure(BeingDeleted);
      }
      if rows.files[f].status == Available {
        return Failure(NotPending);
      }
      FileStandsIn(rows, f);
      if rows.dirs[rows.files[f].directory].status == Deleting {
        return Failure(BeingDeleted);
      }
      var row := rows.files[f].(status := Available, stored := Some(stored), version := rows.files[f].version + 1);
      FileKeeps(rows, f, row);
      rows := PutFile(rows, f, row);
      outbox := outbox + [FileUploaded(DataOf(org, f, row))];
      r := Success(row.version);
    }

    /** The write's first transaction. */
    method Begin(org: Id, dir: Ref, name: string, contentType: string, f: FileId) returns (refusal: Option<Refusal>)
      requires Valid() && f !in rows.files && (f.Minted? ==> f.n in filesMinted)
      modifies this`rows
      ensures Valid()
      ensures Snap() == Step(old(Snap()), BeginUpload(org, dir, name, contentType, f, false))
      ensures refusal == Refusing(old(Snap()), BeginUpload(org, dir, name, contentType, f, false)) && (refusal.Some? ==> rows == old(rows))
      ensures forall d :: Refers(old(rows), org, dir, d) ==> BeginsUpload(old(Snap()), Snap(), refusal, d, name, contentType, f, false)
      ensures (forall d :: !Refers(old(rows), org, dir, d)) ==> Snap() == old(Snap()) && refusal == Some(Missing(old(rows), org))
      ensures refusal.None? ==>
                && f in rows.files && rows == PutFile(old(rows), f, rows.files[f])
                && rows.files[f].status == Pending && rows.files[f].version == 1
                && rows.files[f].directory in rows.dirs && rows.dirs[rows.files[f].directory].status == Active
    {
      ghost var c := BeginUpload(org, dir, name, contentType, f, false);
      BeginWhole(Snap(), org, dir, name, contentType, f);
      hide Sound, Run, Scope, Home, BeginsUpload, Refers, RunBegin;
      var root, scoped := Resolve(org, dir);
      if scoped.Failure? {
        OutOfScope(rows, c);
        return Some(scoped.refusal);
      }
      HomeIsRow(rows, org, scoped.value);
      RunsInScope(rows, c);
      refusal := Insert(scoped.value, name, contentType, f);
    }

    /** The pending row's insert. */
    method Insert(d: Id, name: string, contentType: string, f: FileId) returns (refusal: Option<Refusal>)
      requires Valid() && d in rows.dirs && f !in rows.files && (f.Minted? ==> f.n in filesMinted)
      modifies this`rows
      ensures Valid()
      ensures Snap() == After(old(Snap()), RunBegin(old(rows), d, name, contentType, f, false))
      ensures refusal == Why(RunBegin(old(rows), d, name, contentType, f, false))
      ensures refusal.None? ==>
                && f in rows.files && rows == PutFile(old(rows), f, rows.files[f])
                && rows.files[f].status == Pending && rows.files[f].version == 1
                && rows.files[f].directory in rows.dirs && rows.dirs[rows.files[f].directory].status == Active
    {
      hide Sound, FileNamed;
      if !ValidName(name) {
        return Some(BadName);
      }
      if rows.dirs[d].status == Deleting {
        return Some(BeingDeleted);
      }
      if FileNamed(rows, f, d, name) {
        return Some(NameTaken);
      }
      var row := File(d, name, contentType, Pending, None, 1);
      PutFileKeeps(rows, f, row);
      rows := PutFile(rows, f, row);
      refusal := None;
    }

    /** A write's abandon: its row is left deleting, and once its object is removed, the row
        goes too. Either half may fail. */
    method AbandonWrite(f: FileId, cleanup: Cleanup)
      requires Valid() && f in rows.files && rows.files[f].status == Pending
      modifies this`rows
      ensures Valid() && Snap() == Cleaned(old(Snap()), f, cleanup)
      ensures rows == if cleanup.Removed? then DropFile(old(rows), f)
                      else PutFile(old(rows), f, old(rows).files[f].(status := if cleanup.LeftPending? then Pending else Doomed))
    {
      hide Sound;
      ghost var h := rows;
      if cleanup.LeftPending? {
        assert PutFile(h, f, h.files[f]) == h;
        return;
      }
      FileKeeps(rows, f, rows.files[f].(status := Doomed));
      rows := PutFile(rows, f, rows.files[f].(status := Doomed));
      if cleanup.Removed? {
        DropFileKeeps(rows, f);
        rows := DropFile(rows, f);
        assert DropFile(h, f) == rows;
      }
    }

    /** Removes a file by the two-phase delete: the event at the version that left it
        deleting, none for a retry, and then the purge, which may fail and leave the row to
        the sweep. */
    method DeleteFile(org: Id, f: FileId, version: nat, purged: bool) returns (r: Result<()>)
      requires Valid()
      modifies this
      ensures Valid() && organizations == old(organizations)
      ensures Answered(r) == Refusing(old(Snap()), Command.DeleteFile(org, f, version))
      ensures Snap() == Retired(old(Snap()), org, f, version, purged)
      ensures r.Success? ==> !Served(rows, f) && (purged ==> f !in rows.files)
      ensures !OwnFile(old(rows), org, f) ==> Snap() == old(Snap()) && r == Failure(Missing(old(rows), org))
      ensures OwnFile(old(rows), org, f) ==> RemovesFile(old(Snap()), Snap(), Answered(r), org, f, version, purged)
    {
      RemoveWhole(Snap(), org, f, version, purged);
      hide Sound, Run, RemovesFile, OwnFile, Step, Refusing, Missing;
      r := BeginDelete(org, f, version);
      if r.Success? && purged {
        Purge(f);
      }
    }

    /** The delete's second phase: the row, once its object is gone. */
    method Purge(f: FileId)
      requires Valid() && f in rows.files && rows.files[f].status == Doomed
      modifies this`rows
      ensures Valid() && f !in rows.files && Snap() == Step(old(Snap()), Command.Purge(f))
    {
      hide Sound;
      DropFileKeeps(rows, f);
      rows := DropFile(rows, f);
    }

    /** The delete's first transaction. */
    method BeginDelete(org: Id, f: FileId, version: nat) returns (r: Result<()>)
      requires Valid()
      modifies this
      ensures Valid() && organizations == old(organizations)
      ensures Snap() == Step(old(Snap()), Command.DeleteFile(org, f, version))
      ensures Answered(r) == Refusing(old(Snap()), Command.DeleteFile(org, f, version))
      ensures r.Success? ==> f in rows.files && rows.files[f].status == Doomed
    {
      ghost var c := Command.DeleteFile(org, f, version);
      hide Sound, Run, FileScope, RunDeleteFile;
      var root, scoped := ResolveFile(org, f);
      if scoped.Failure? {
        FileOutOfScope(rows, c);
        return Failure(scoped.refusal);
      }
      RunsOnFile(rows, c);
      r := Retire(org, f, version);
    }

    /** The file's row left deleting, with the event, unless its delete has begun already. */
    method Retire(org: Id, f: FileId, version: nat) returns (r: Result<()>)
      requires Valid() && f in rows.files
      modifies this
      ensures Valid() && organizations == old(organizations)
      ensures Snap() == After(old(Snap()), RunDeleteFile(old(rows), org, f, version))
      ensures Answered(r) == Why(RunDeleteFile(old(rows), org, f, version))
      ensures f in rows.files && (r.Success? ==> rows.files[f].status == Doomed)
    {
      hide Sound;
      if rows.files[f].status != Doomed {
        if rows.files[f].version != version {
          return Failure(VersionMismatch);
        }
        var row := MarkedFile(rows.files[f]);
        FileKeeps(rows, f, row);
        rows := PutFile(rows, f, row);
        outbox := outbox + [FileDeleted(f, org, row.version)];
      }
      r := Success(());
    }

    method MoveFile(org: Id, f: FileId, version: nat, to: Ref, name: string) returns (r: Result<nat>)
      requires Valid()
      modifies this
      ensures Valid() && organizations == old(organizations)
      ensures Snap() == Step(old(Snap()), Command.MoveFile(org, f, version, to, name))
      ensures Answered(r) == Refusing(old(Snap()), Command.MoveFile(org, f, version, to, name))
      ensures forall p :: OwnFile(old(rows), org, f) && Refers(old(rows), org, to, p) ==>
                MovesFile(old(Snap()), Snap(), Answered(r), org, f, version, p, name)
      ensures !OwnFile(old(rows), org, f) || (forall p :: !Refers(old(rows), org, to, p)) ==>
                Snap() == old(Snap()) && r == Failure(Missing(old(rows), org))
      ensures r.Success? ==> r.value == version + 1
    {
      ghost var c := Command.MoveFile(org, f, version, to, name);
      MoveFileWhole(Snap(), org, f, version, to, name);
      hide Sound, Run, Home, FileScope, WithinRoot, MovesFile, Refers, OwnFile, RunMoveFile;
      var root, scoped := ResolveFile(org, f);
      if scoped.Failure? {
        FileOutOfScope(rows, c);
        return Failure(scoped.refusal);
      }
      var dest := Inside(root, to);
      if dest.Failure? {
        NowhereToGo(rows, c);
        return Failure(dest.refusal);
      }
      FileRoot(rows, org, f);
      DestinationIsRow(rows, org, to);
      MovesFileInScope(rows, c);
      r := RelocateFile(org, f, version, dest.value, name);
    }

    /** The guarded move of a file's row into p, with its event. */
    method RelocateFile(org: Id, f: FileId, version: nat, p: Id, name: string) returns (r: Result<nat>)
      requires Valid() && f in rows.files && p in rows.dirs
      modifies this
      ensures Valid() && organizations == old(organizations)
      ensures Snap() == After(old(Snap()), RunMoveFile(old(rows), org, f, version, p, name))
      ensures Answered(r) == Why(RunMoveFile(old(rows), org, f, version, p, name))
      ensures r.Success? ==> r.value == version + 1
    {
      hide Sound, FileNamed;
      if !ValidName(name) {
        return Failure(BadName);
      }
      if rows.files[f].version != version {
        return Failure(VersionMismatch);
      }
      if rows.files[f].status == Doomed || rows.dirs[p].status == Deleting {
        return Failure(BeingDeleted);
      }
      if FileNamed(rows, f, p, name) {
        return Failure(NameTaken);
      }
      var row := rows.files[f].(directory := p, name := name, version := version + 1);
      StoredIn(rows, f);
      PutFileKeeps(rows, f, row);
      rows := PutFile(rows, f, row);
      outbox := outbox + [FileMoved(DataOf(org, f, row))];
      r := Success(row.version);
    }
  }

  // ---- Proofs the methods call on ----

  lemma RootedSound(s: Snapshot, org: Id, ref: Ref, stands: bool, rootId: Id)
    requires Sound(s.rows) && rootId != TOP
    ensures Sound(Rooted(s, org, ref, stands, rootId).rows)
  {
    hide Sound, RunEnsureRoot;
    if ref.Alias? && RunEnsureRoot(s.rows, org, stands, rootId).Committed? {
      EnsureRootKeeps(s.rows, org, stands, rootId);
    }
  }

  /** The write's two transactions, or its first and its abandon, are the upload. */
  lemma WrittenWhole(s: Snapshot, begun: Snapshot, t: Snapshot, refusal: Option<Refusal>, r: Result<nat>, org: Id, d: Id, name: string,
          contentType: string, f: FileId, put: Option<Object>, hooked: bool, cleanup: Cleanup)
    requires d in s.rows.dirs && f !in s.rows.files && BeginsUpload(s, begun, refusal, d, name, contentType, f, false)
    requires refusal.Some? ==> t == begun && r.Failure?
    requires refusal.None? ==>
               && f in begun.rows.files
               && if put.Some? && hooked then r == Success(2) && CompletesUpload(begun, t, None, org, f, put.value, false)
                  else
                    && r == Failure(Unstored) && t.log == begun.log
                    && t.rows == if cleanup.Removed? then DropFile(begun.rows, f)
                                 else PutFile(begun.rows, f, begun.rows.files[f].(status := if cleanup.LeftPending? then Pending else Doomed))
    ensures Uploads(s, t, r, org, d, name, contentType, f, put, hooked, cleanup)
  {
    hide ValidName;
    if refusal.None? {
      var row := File(d, name, contentType, Pending, None, 1);
      assert begun.rows.files == s.rows.files[f := row];
      assert s.rows.files[f := row] - {f} == s.rows.files;
      var last := if put.Some? && hooked then File(d, name, contentType, Available, put, 2)
                  else File(d, name, contentType, if cleanup.LeftPending? then Pending else Doomed, None, 1);
      assert s.rows.files[f := row][f := last] == s.rows.files[f := last];
    }
  }

  /** A write under a root that is refused is refused, and changes nothing. */
  lemma WritesNothing(s: Snapshot, org: Id, dir: Ref, name: string, contentType: string, f: FileId, put: Option<Object>, hooked: bool,
          cleanup: Cleanup)
    requires org !in s.rows.roots
    ensures Writes(s, s, Failure(NoRow), org, dir, name, contentType, f, put, hooked, cleanup)
  {
    hide RunBegin;
  }

  /** A request's scope decides whether it runs, and on what. */
  lemma OutOfScope(h: Hierarchy, c: Command)
    requires OnDirectory(c) && Scope(h, c.org, DirectoryOf(c)).Out?
    ensures Run(h, c) == Refused(Scope(h, c.org, DirectoryOf(c)).refusal)
  {
    hide Scope;
  }

  lemma RunsInScope(h: Hierarchy, c: Command)
    requires OnDirectory(c) && !c.MoveDirectory? && Scope(h, c.org, DirectoryOf(c)).In?
    ensures var s := Scope(h, c.org, DirectoryOf(c));
            Run(h, c) == match c
                         case CreateDirectory(org, _, name, id, raced) => RunCreate(h, org, s.root, s.dir, name, id, raced)
                         case DeleteDirectory(org, _, version, lenient) => RunDelete(h, org, s.dir, version, lenient)
                         case MarkBranch(org, _, version) => RunMark(h, org, s.dir, version)
                         case BeginUpload(_, _, name, contentType, f, raced) => RunBegin(h, s.dir, name, contentType, f, raced)
  {
    hide Scope, RunCreate, RunDelete, RunMark, RunBegin;
  }

  lemma RootStays(h: Hierarchy, c: Command)
    requires c.MoveDirectory? && Scope(h, c.org, c.dir).In? && Scope(h, c.org, c.dir).dir == Scope(h, c.org, c.dir).root
    ensures Run(h, c) == Refused(RootMove)
  {
    hide Scope, WithinRoot, RunMove;
  }

  lemma NowhereToGo(h: Hierarchy, c: Command)
    requires c.MoveDirectory? || c.MoveFile?
    requires var s := if c.MoveDirectory? then Scope(h, c.org, c.dir) else FileScope(h, c.org, c.file);
             s.In? && (c.MoveDirectory? ==> s.dir != s.root) && WithinRoot(h, s.root, c.to).Out?
    ensures var s := if c.MoveDirectory? then Scope(h, c.org, c.dir) else FileScope(h, c.org, c.file);
            Run(h, c) == Refused(WithinRoot(h, s.root, c.to).refusal)
  {
    hide Scope, FileScope, WithinRoot, RunMove, RunMoveFile;
  }

  lemma MovesInScope(h: Hierarchy, c: Command)
    requires c.MoveDirectory? && Scope(h, c.org, c.dir).In? && Scope(h, c.org, c.dir).dir != Scope(h, c.org, c.dir).root
    requires WithinRoot(h, Scope(h, c.org, c.dir).root, c.to).In?
    ensures var s := Scope(h, c.org, c.dir);
            Run(h, c) == RunMove(h, c.org, s.root, s.dir, c.version, WithinRoot(h, s.root, c.to).dir, c.name)
  {
    hide Scope, WithinRoot, RunMove;
  }

  lemma FileOutOfScope(h: Hierarchy, c: Command)
    requires (c.DeleteFile? || c.MoveFile?) && FileScope(h, c.org, c.file).Out?
    ensures Run(h, c) == Refused(FileScope(h, c.org, c.file).refusal)
  {
    hide FileScope, WithinRoot, RunDeleteFile, RunMoveFile;
  }

  lemma RunsOnFile(h: Hierarchy, c: Command)
    requires c.DeleteFile? && FileScope(h, c.org, c.file).In? && c.file in h.files
    ensures Run(h, c) == RunDeleteFile(h, c.org, c.file, c.version)
  {
    hide FileScope, RunDeleteFile;
  }

  lemma MovesFileInScope(h: Hierarchy, c: Command)
    requires c.MoveFile? && FileScope(h, c.org, c.file).In? && WithinRoot(h, FileScope(h, c.org, c.file).root, c.to).In? && c.file in h.files
    ensures Run(h, c) == RunMoveFile(h, c.org, c.file, c.version, WithinRoot(h, FileScope(h, c.org, c.file).root, c.to).dir, c.name)
  {
    hide FileScope, WithinRoot, RunMoveFile;
  }

  /** The directory a move moves is the one its reference names. */
  lemma MovedIsNamed(h: Hierarchy, org: Id, ref: Ref, to: Ref)
    requires Sound(h)
    ensures forall d, p :: Moving(h, org, ref, to, d, p) ==> Scope(h, org, ref) == In(h.roots[org], d)
  {
    ScopeIsExact(h, org, ref);
    hide Sound, Scope, Refers;
  }

  lemma RootIsRow(h: Hierarchy, org: Id)
    requires Sound(h) && org in h.roots
    ensures h.roots[org] in h.dirs
  {
  }

  lemma ForestOf(h: Hierarchy)
    requires Sound(h)
    ensures IsForest(ParentsIn(h))
  {
  }

  lemma HomeIsRow(h: Hierarchy, org: Id, d: Id)
    requires Home(h, org, d)
    ensures d in h.dirs
  {
  }

  lemma DestinationIsRow(h: Hierarchy, org: Id, to: Ref)
    requires Sound(h) && org in h.roots && WithinRoot(h, h.roots[org], to).In?
    ensures WithinRoot(h, h.roots[org], to).dir in h.dirs
  {
  }

  lemma BelowRoot(h: Hierarchy, org: Id, d: Id)
    requires Sound(h) && Home(h, org, d) && d != h.roots[org]
    ensures h.dirs[d].parent != TOP
  {
    OnlyRootsAtTop(h, org, d);
  }

  lemma CompletesWhole(s: Snapshot, org: Id, f: FileId, stored: Object)
    requires RunComplete(s.rows, org, f, stored, false).Committed?
    ensures Step(s, Complete(org, f, stored, false)).rows == RunComplete(s.rows, org, f, stored, false).after
    ensures Refusing(s, Complete(org, f, stored, false)).None?
  {
    hide RunComplete;
  }

  /** A new pending row in an active directory completes. */
  lemma PendingCompletes(h: Hierarchy, org: Id, f: FileId, stored: Object)
    requires f in h.files && h.files[f].status == Pending && h.files[f].version == 1
    requires h.files[f].directory in h.dirs && h.dirs[h.files[f].directory].status == Active
    ensures var r := RunComplete(h, org, f, stored, false);
            r.Committed? && f in r.after.files && r.after.files[f].version == 2
  {
  }

  lemma StoredIn(h: Hierarchy, f: FileId)
    requires Sound(h) && f in h.files
    ensures Stored(h.files[f])
  {
  }

  lemma FileRoot(h: Hierarchy, org: Id, f: FileId)
    requires Sound(h) && FileScope(h, org, f).In?
    ensures org in h.roots && FileScope(h, org, f).root == h.roots[org]
  {
  }

  lemma NoRootUnbound(h: Hierarchy, org: Id)
    requires Sound(h) && org !in h.roots
    ensures forall d :: d in h.dirs && h.dirs[d].parent == TOP ==> h.dirs[d].name != OfOrganization(org)
  {
  }

  /** A write whose root is refused is refused itself, the same way. */
  lemma RefusedRoot(h: Hierarchy, org: Id, stands: bool, rootId: Id)
    requires Sound(h) && rootId !in h.dirs && RunEnsureRoot(h, org, stands, rootId).Refused?
    ensures RunEnsureRoot(h, org, stands, rootId) == Refused(NoRow) && Scope(h, org, Alias) == Out(NoRow)
  {
    if org !in h.roots {
      NoRootUnbound(h, org);
    }
  }

  ghost predicate DirsMarked(h: Hierarchy, d: Id, dirs: map<Id, Directory>, left: set<Id>) {
    dirs.Keys == h.dirs.Keys
    && forall x :: x in h.dirs ==>
         dirs[x] == if x !in left && Within(ParentsIn(h), x, d) then MarkedDir(h.dirs[x]) else h.dirs[x]
  }

  ghost predicate FilesMarked(h: Hierarchy, d: Id, files: map<FileId, File>, left: set<FileId>) {
    files.Keys == h.files.Keys
    && forall f :: f in h.files ==>
         files[f] == if f !in left && Within(ParentsIn(h), h.files[f].directory, d) then MarkedFile(h.files[f]) else h.files[f]
  }

  /** The directories the mark takes from active. */
  ghost function ActiveBeneath(h: Hierarchy, d: Id): set<Id> {
    set x | x in h.dirs && h.dirs[x].status == Active && Within(ParentsIn(h), x, d)
  }

  lemma OneMoreTaken(h: Hierarchy, d: Id, left: set<Id>, x: Id)
    requires x in left && x in h.dirs
    ensures var taken := h.dirs[x].status == Active && Within(ParentsIn(h), x, d);
            |ActiveBeneath(h, d) - (left - {x})| == |ActiveBeneath(h, d) - left| + if taken then 1 else 0
  {
    hide Within;
    var all := ActiveBeneath(h, d);
    assert all - (left - {x}) == if x in all then (all - left) + {x} else all - left;
  }

  lemma TakenAtEnds(h: Hierarchy, d: Id)
    requires d in h.dirs
    ensures ActiveBeneath(h, d) - h.dirs.Keys == {} && ActiveBeneath(h, d) - {} == ActiveBeneath(h, d)
    ensures h.dirs[d].status == Active ==> |ActiveBeneath(h, d)| > 0
  {
    WithinSelf(ParentsIn(h), d);
    hide Within;
    if h.dirs[d].status == Active {
      assert d in ActiveBeneath(h, d);
    }
  }

  lemma DirsUnmarked(h: Hierarchy, d: Id)
    ensures DirsMarked(h, d, h.dirs, h.dirs.Keys)
  {
  }

  lemma FilesUnmarked(h: Hierarchy, d: Id)
    ensures FilesMarked(h, d, h.files, h.files.Keys)
  {
  }

  lemma DirMarked(h: Hierarchy, d: Id, dirs: map<Id, Directory>, left: set<Id>, x: Id, inside: bool)
    requires DirsMarked(h, d, dirs, left) && x in left && x in h.dirs && d in h.dirs
    requires (inside <==> Within(ParentsIn(h), x, d))
    ensures DirsMarked(h, d, if inside && h.dirs[x].status == Active then dirs[x := MarkedDir(h.dirs[x])] else dirs, left - {x})
  {
  }

  lemma FileMarked(h: Hierarchy, d: Id, files: map<FileId, File>, left: set<FileId>, f: FileId, inside: bool)
    requires FilesMarked(h, d, files, left) && f in left && f in h.files
    requires (inside <==> Within(ParentsIn(h), h.files[f].directory, d))
    ensures FilesMarked(h, d, if inside then files[f := MarkedFile(h.files[f])] else files, left - {f})
  {
  }

  lemma MarkIsBoth(h: Hierarchy, d: Id, dirs: map<Id, Directory>, files: map<FileId, File>)
    requires DirsMarked(h, d, dirs, {}) && FilesMarked(h, d, files, {})
    ensures h.(dirs := dirs, files := files) == Mark(h, d)
  {
    assert dirs == Mark(h, d).dirs;
    assert files == Mark(h, d).files;
  }

  lemma MarkKeepsKeys(h: Hierarchy, d: Id)
    ensures Mark(h, d).dirs.Keys == h.dirs.Keys && Mark(h, d).files.Keys == h.files.Keys
  {
  }
}
