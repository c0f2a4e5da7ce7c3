/** Whole runs of the document transactions and the events they commit: after any of them,
    replaying the events gives the directories and files the rows show, each under the
    organization that holds it. */
module DocumentRuns {
  import opened Forest
  import opened Events
  import opened Documents
  import opened DocumentScope
  import opened DocumentAnswers
  import opened DocumentReplay

  /** The rows, the organization each file's write was begun for, every directory id ever
      written, and the events committed. */
  datatype State = State(rows: Hierarchy, begun: map<FileId, Id>, used: set<Id>, log: seq<Event>)

  const INITIAL := State(EMPTY, map[], {}, [])

  /** A completion runs for the organization its write was begun for, and nothing inserts the
      top. */
  predicate Enabled(s: State, c: Command) {
    && (c.Complete? ==> c.file in s.begun && s.begun[c.file] == c.org)
    && Mintable(c)
  }

  function Begins(begun: map<FileId, Id>, c: Command): map<FileId, Id> {
    if c.BeginUpload? then begun[c.file := c.org] else begun
  }

  ghost function Writes(h: Hierarchy, c: Command): set<Id> {
    if Inserted(h, c).Some? then {Inserted(h, c).value} else {}
  }

  /** One transaction; a refused one changes nothing. */
  ghost function Next(s: State, c: Command): State {
    if !Enabled(s, c) then s
    else
      match Run(s.rows, c)
      case Refused(_) => s
      case Committed(h, e) =>
        State(h, Begins(s.begun, c), s.used + Writes(s.rows, c),
              if e.Some? then s.log + [e.value] else s.log)
  }

  ghost function Exec(s: State, commands: seq<Command>): State
    decreases |commands|
  {
    if commands == [] then s else Exec(Next(s, commands[0]), commands[1..])
  }

  // ---- Whose each row is ----

  /** Every file's write was begun for the organization whose root still holds it. */
  ghost predicate BegunAtHome(h: Hierarchy, begun: map<FileId, Id>) {
    forall f :: f in h.files ==> f in begun && Home(h, begun[f], h.files[f].directory)
  }

  /** Each visible entry's event named the organization that holds it. */
  ghost predicate Owned(h: Hierarchy, begun: map<FileId, Id>, copy: Copy) {
    && (forall d :: Stands(h, d) ==> d in copy.dirs && Home(h, copy.dirs[d].organization, d))
    && (forall f :: Served(h, f) ==> f in copy.files && f in begun && copy.files[f].organization == begun[f])
  }

  /** A created or moved directory's event is the acting organization's, and so is the
      directory. */
  lemma DirectoryEventIsOwn(h: Hierarchy, c: Command)
    requires Sound(h) && Mintable(c) && Run(h, c).Committed? && Run(h, c).event.Some?
    requires Run(h, c).event.value.DirectoryCreated? || Run(h, c).event.value.DirectoryMoved?
    ensures Actor(c) == Some(Run(h, c).event.value.dir.organization)
    ensures Home(Run(h, c).after, Run(h, c).event.value.dir.organization, Run(h, c).event.value.dir.id)
  {
    hide IsForest, Unique, Housed, Bound, Scope, FileScope, WithinRoot, RunEnsureRoot, Home, DirectoryNamed, Occupied,
         Mark, HomesKept, FileNamed;
    match c
    case EnsureRoot(org, stands, id) => RootEventIsOwn(h, org, stands, id);
    case CreateDirectory(org, parent, name, id, raced) =>
      ScopeIsHome(h, org, parent);
      InsertKeepsHomes(h, id, Directory(Scope(h, org, parent).dir, Plain(name), Active, 1));
    case MoveDirectory(org, dir, version, to, name) =>
      ScopeIsHome(h, org, dir);
      MoveStaysHome(h, org, dir, version, to, name);
      HomeMoves(h, Run(h, c).after, org, Scope(h, org, dir).dir);
  }

  /** An event of a transaction from h to h' says what it did: a creation's, a move's, or an
      upload's data is its entry's row as it then stands, and a deletion names the version its row
      was removed at, or was left deleting at. */
  ghost predicate Tells(h: Hierarchy, h': Hierarchy, e: Event) {
    match e
    case DirectoryCreated(d) => d.id !in h.dirs && Stands(h', d.id) && ShowsDirectory(d, d.id, h'.dirs[d.id])
    case DirectoryMoved(d) => Stands(h, d.id) && Stands(h', d.id) && ShowsDirectory(d, d.id, h'.dirs[d.id])
    case DirectoryDeleted(id, _, v) =>
      && id in h.dirs
      && if id in h'.dirs then Stands(h, id) && h'.dirs[id].status == Deleting && h'.dirs[id].version == v else h.dirs[id].version == v
    case FileUploaded(f) => f.id in h.files && !Served(h, f.id) && Served(h', f.id) && ShowsFile(f, f.id, h'.files[f.id])
    case FileMoved(f) => f.id in h.files && f.id in h'.files && h'.files[f.id].status == h.files[f.id].status && ShowsFile(f, f.id, h'.files[f.id])
    case FileDeleted(id, _, v) =>
      && id in h.files && h.files[id].status != Doomed
      && id in h'.files && h'.files[id].status == Doomed && h'.files[id].version == v
    case _ => false
  }

  lemma EventTells(h: Hierarchy, c: Command)
    requires Sound(h) && Run(h, c).Committed? && Run(h, c).event.Some?
    ensures Tells(h, Run(h, c).after, Run(h, c).event.value)
  {
    hide Sound, Scope, FileScope, WithinRoot, RunEnsureRoot, Occupied, DirectoryNamed, FileNamed, Mark, Within;
    match c
    case EnsureRoot(org, stands, id) => EnsureTells(h, org, stands, id);
    case CreateDirectory(org, parent, name, id, raced) => CreateTells(h, org, parent, name, id, raced);
    case MarkBranch(org, dir, version) => MarkTells(h, org, dir, version);
    case MoveDirectory(org, dir, version, to, name) => MoveTells(h, org, dir, version, to, name);
    case _ =>
  }

  lemma EnsureTells(h: Hierarchy, org: Id, stands: bool, id: Id)
    requires Sound(h) && RunEnsureRoot(h, org, stands, id).Committed? && RunEnsureRoot(h, org, stands, id).event.Some?
    ensures Tells(h, RunEnsureRoot(h, org, stands, id).after, RunEnsureRoot(h, org, stands, id).event.value)
  {
    hide Sound;
  }

  lemma CreateTells(h: Hierarchy, org: Id, parent: Ref, name: string, id: Id, raced: bool)
    requires var r := Run(h, CreateDirectory(org, parent, name, id, raced)); Sound(h) && r.Committed? && r.event.Some?
    ensures var r := Run(h, CreateDirectory(org, parent, name, id, raced)); Tells(h, r.after, r.event.value)
  {
    var s := Scope(h, org, parent);
    RootStands(h, org, parent);
    ScopeIsRow(h, org, parent);
    ParentStands(h, s.dir);
    ShownIsPicture(h, org, s.root, id, Directory(s.dir, Plain(name), Active, 1));
    hide Sound, Scope, DirectoryNamed, Within, Shown;
  }

  lemma MoveTells(h: Hierarchy, org: Id, dir: Ref, version: nat, to: Ref, name: string)
    requires var r := Run(h, MoveDirectory(org, dir, version, to, name)); Sound(h) && r.Committed? && r.event.Some?
    ensures var r := Run(h, MoveDirectory(org, dir, version, to, name)); Tells(h, r.after, r.event.value)
  {
    hide Sound, Scope, WithinRoot, RunMove, Tells;
    var s := Scope(h, org, dir);
    MovedTells(h, org, s.root, s.dir, version, WithinRoot(h, s.root, to).dir, name);
  }

  lemma MovedTells(h: Hierarchy, org: Id, root: Id, d: Id, version: nat, p: Id, name: string)
    requires var r := RunMove(h, org, root, d, version, p, name); Sound(h) && d != root && r.Committed? && r.event.Some?
    ensures var r := RunMove(h, org, root, d, version, p, name); Tells(h, r.after, r.event.value)
  {
    ParentStands(h, p);
    hide Sound, DirectoryNamed, Within, ValidName;
  }

  lemma MarkTells(h: Hierarchy, org: Id, dir: Ref, version: nat)
    requires var r := Run(h, MarkBranch(org, dir, version)); r.Committed? && r.event.Some?
    ensures var r := Run(h, MarkBranch(org, dir, version)); Tells(h, r.after, r.event.value)
  {
    MarkedRow(h, Scope(h, org, dir).dir);
    hide Scope, Mark;
  }

  /** Whose an event says its entry is. */
  function Owner(e: Event): Option<Id> {
    match e
    case DirectoryCreated(d) => Some(d.organization)
    case DirectoryMoved(d) => Some(d.organization)
    case DirectoryDeleted(_, org, _) => Some(org)
    case FileUploaded(f) => Some(f.organization)
    case FileMoved(f) => Some(f.organization)
    case FileDeleted(_, org, _) => Some(org)
    case _ => None
  }

  /** Every document event names the organization that acts, and a deletion's entry lies in that
      organization's root. */
  lemma EventIsActors(h: Hierarchy, c: Command)
    requires Sound(h) && Run(h, c).Committed? && Run(h, c).event.Some?
    ensures Actor(c).Some? && Owner(Run(h, c).event.value) == Actor(c)
    ensures Run(h, c).event.value.DirectoryDeleted? ==> Home(h, Actor(c).value, Run(h, c).event.value.dirId)
    ensures Run(h, c).event.value.FileDeleted? ==> OwnFile(h, Actor(c).value, Run(h, c).event.value.fileId)
  {
    EventNamesActor(h, c);
    DeletionKinds(h, c);
    if c.DeleteDirectory? || c.MarkBranch? {
      ScopeIsHome(h, c.org, c.dir);
    } else if c.DeleteFile? {
      FileScopeIsHome(h, c.org, c.file);
    }
    hide Sound, Run, Home, Scope, FileScope, Owner;
  }

  lemma EventNamesActor(h: Hierarchy, c: Command)
    requires Run(h, c).Committed? && Run(h, c).event.Some?
    ensures Actor(c).Some? && Owner(Run(h, c).event.value) == Actor(c)
  {
    hide Scope, FileScope, WithinRoot, RunEnsureRoot, Occupied, DirectoryNamed, FileNamed, Mark, Within;
    if c.EnsureRoot? {
      RootEventNames(h, c.org, c.stands, c.id);
    }
  }

  /** The commands that raise a deletion, and of what. */
  lemma DeletionKinds(h: Hierarchy, c: Command)
    requires Run(h, c).Committed? && Run(h, c).event.Some?
    ensures Run(h, c).event.value.DirectoryDeleted? ==>
              (c.DeleteDirectory? || c.MarkBranch?) && Scope(h, c.org, c.dir).In? && Run(h, c).event.value.dirId == Scope(h, c.org, c.dir).dir
    ensures Run(h, c).event.value.FileDeleted? ==> c.DeleteFile? && FileScope(h, c.org, c.file).In? && Run(h, c).event.value.fileId == c.file
  {
    hide Scope, FileScope, WithinRoot, RunEnsureRoot, Occupied, DirectoryNamed, FileNamed, Mark, Within;
    if c.EnsureRoot? {
      RootEventNames(h, c.org, c.stands, c.id);
    }
  }

  lemma RootEventNames(h: Hierarchy, org: Id, stands: bool, id: Id)
    requires RunEnsureRoot(h, org, stands, id).Committed? && RunEnsureRoot(h, org, stands, id).event.Some?
    ensures RunEnsureRoot(h, org, stands, id).event.value.DirectoryCreated?
    ensures RunEnsureRoot(h, org, stands, id).event.value.dir.organization == org
  {
  }

  lemma HomeMoves(h: Hierarchy, h': Hierarchy, org: Id, d: Id)
    requires HomesKept(h, h') && Home(h, org, d) && d in h'.dirs
    ensures Home(h', org, d)
  {
    hide Within;
  }

  lemma RootEventIsOwn(h: Hierarchy, org: Id, stands: bool, id: Id)
    requires Sound(h) && id != TOP && RunEnsureRoot(h, org, stands, id).Committed?
    ensures RunEnsureRoot(h, org, stands, id).event.None? <==> org in h.roots
    ensures RunEnsureRoot(h, org, stands, id).event.Some? ==>
              && RunEnsureRoot(h, org, stands, id).event.value.DirectoryCreated?
              && RunEnsureRoot(h, org, stands, id).event.value.dir.organization == org
              && Home(RunEnsureRoot(h, org, stands, id).after, org, RunEnsureRoot(h, org, stands, id).event.value.dir.id)
  {
    hide IsForest, Unique, Housed, HomesKept, Home;
    if org !in h.roots {
      forall d | d in h.dirs && h.dirs[d].parent == TOP
        ensures h.dirs[d].name != OfOrganization(org)
      {
        UnboundMeansAbsent(h, org, d);
      }
      RootKeepsHomes(h, org, id, Directory(TOP, OfOrganization(org), Active, 1));
    }
  }

  lemma RootLeavesFiles(h: Hierarchy, org: Id, stands: bool, id: Id)
    ensures RunEnsureRoot(h, org, stands, id).Committed? ==> RunEnsureRoot(h, org, stands, id).after.files == h.files
  {
  }

  /** A file row after a transaction: where it was, or just begun, or just moved. */
  lemma FileBefore(h: Hierarchy, c: Command, f: FileId)
    requires Run(h, c).Committed? && f in Run(h, c).after.files
    ensures || (f in h.files && Run(h, c).after.files[f].directory == h.files[f].directory)
            || (c.BeginUpload? && c.file == f) || (c.MoveFile? && c.file == f)
    ensures f !in h.files ==> c.BeginUpload? && c.file == f && Run(h, c).after.files[f].status == Pending
  {
    hide Scope, FileScope, WithinRoot, RunEnsureRoot, Occupied, DirectoryNamed, FileNamed, Within;
    if c.EnsureRoot? {
      RootLeavesFiles(h, c.org, c.stands, c.id);
    }
  }

  lemma BegunStaysHome(h: Hierarchy, begun: map<FileId, Id>, c: Command)
    requires Sound(h) && Mintable(c) && BegunAtHome(h, begun) && Run(h, c).Committed?
    ensures BegunAtHome(Run(h, c).after, Begins(begun, c))
  {
    hide Sound, Run, HomesKept, Home;
    var h' := Run(h, c).after;
    RunKeepsHomes(h, c);
    RunKeepsSound(h, c);
    forall f | f in h'.files
      ensures f in Begins(begun, c) && Home(h', Begins(begun, c)[f], h'.files[f].directory)
    {
      FileBefore(h, c, f);
      FileStandsIn(h', f);
      if c.BeginUpload? && c.file == f {
        BegunIsHome(h, c);
        HomeMoves(h, h', c.org, h'.files[f].directory);
      } else if c.MoveFile? && c.file == f {
        MovedIsHome(h, begun, c);
        HomeMoves(h, h', c.org, h'.files[f].directory);
      } else {
        HomeMoves(h, h', begun[f], h.files[f].directory);
      }
    }
  }

  lemma BegunIsHome(h: Hierarchy, c: Command)
    requires Sound(h) && c.BeginUpload? && Run(h, c).Committed?
    ensures c.file in Run(h, c).after.files && Home(h, c.org, Run(h, c).after.files[c.file].directory)
    ensures c.file !in h.files
  {
    hide IsForest, Unique, Housed, Bound, Scope, Home, FileNamed;
    ScopeIsHome(h, c.org, c.dir);
  }

  lemma MovedIsHome(h: Hierarchy, begun: map<FileId, Id>, c: Command)
    requires Sound(h) && BegunAtHome(h, begun) && c.MoveFile? && Run(h, c).Committed?
    ensures c.file in h.files && begun[c.file] == c.org
    ensures c.file in Run(h, c).after.files && Home(h, c.org, Run(h, c).after.files[c.file].directory)
  {
    hide IsForest, Unique, Housed, Bound, FileScope, WithinRoot, Home, FileNamed;
    FileScopeIsHome(h, c.org, c.file);
    OwnerRow(h, c.org, c.file);
    DestinationIsHome(h, c.org, c.to);
    RootsApart(h, c.org, begun[c.file], h.files[c.file].directory);
  }

  /** The events a transaction raises, in outline. */
  lemma EventShape(h: Hierarchy, c: Command)
    requires Run(h, c).Committed? && Run(h, c).event.Some?
    ensures !Run(h, c).event.value.StateReset?
    ensures Run(h, c).event.value.DirectoryDeleted? ==> !Stands(Run(h, c).after, Run(h, c).event.value.dirId)
    ensures Run(h, c).event.value.FileDeleted? ==> !Served(Run(h, c).after, Run(h, c).event.value.fileId)
    ensures Run(h, c).event.value.FileUploaded? ==> c.Complete? && c.file == Run(h, c).event.value.file.id && c.org == Run(h, c).event.value.file.organization
    ensures Run(h, c).event.value.FileMoved? ==> c.MoveFile? && c.file == Run(h, c).event.value.file.id && c.org == Run(h, c).event.value.file.organization
  {
    hide Scope, FileScope, WithinRoot, RunEnsureRoot, Occupied, DirectoryNamed, FileNamed, Mark;
    if c.MarkBranch? {
      MarkLeavesRest(h, Scope(h, c.org, c.dir).dir, Scope(h, c.org, c.dir).dir);
    }
    if c.EnsureRoot? {
      RootEventShape(h, c.org, c.stands, c.id);
    }
  }

  lemma RootEventShape(h: Hierarchy, org: Id, stands: bool, id: Id)
    requires RunEnsureRoot(h, org, stands, id).Committed? && RunEnsureRoot(h, org, stands, id).event.Some?
    ensures RunEnsureRoot(h, org, stands, id).event.value.DirectoryCreated?
  {
  }

  lemma ServedBefore(h: Hierarchy, c: Command, f: FileId)
    requires Run(h, c).Committed? && Served(Run(h, c).after, f)
    ensures Served(h, f) || (c.Complete? && c.file == f && Run(h, c).event.Some? && Run(h, c).event.value.FileUploaded?
                             && Run(h, c).event.value.file.id == f)
    ensures c.BeginUpload? ==> c.file != f
  {
    hide Scope, FileScope, WithinRoot, RunEnsureRoot, Occupied, DirectoryNamed, FileNamed, Within;
    if c.EnsureRoot? {
      RootLeavesFiles(h, c.org, c.stands, c.id);
    }
  }

  lemma OwnedDirs(h: Hierarchy, begun: map<FileId, Id>, copy: Copy, c: Command, d: Id)
    requires Sound(h) && Mintable(c) && Owned(h, begun, copy) && Run(h, c).Committed? && Stands(Run(h, c).after, d)
    ensures d in ApplyIf(copy, Run(h, c).event).dirs
    ensures Home(Run(h, c).after, ApplyIf(copy, Run(h, c).event).dirs[d].organization, d)
  {
    hide Sound, Run, HomesKept, Home;
    var h', e := Run(h, c).after, Run(h, c).event;
    RunKeepsHomes(h, c);
    if Inserted(h, c) == Some(d) {
      CreationInserts(h, c, d);
    } else {
      NothingRises(h, c, d);
    }
    if e.Some? {
      EventShape(h, c);
      if e.value.DirectoryCreated? || e.value.DirectoryMoved? {
        DirectoryEventIsOwn(h, c);
      }
    }
    if Stands(h, d) {
      HomeMoves(h, h', copy.dirs[d].organization, d);
    }
  }

  lemma OwnedFiles(h: Hierarchy, begun: map<FileId, Id>, copy: Copy, c: Command, f: FileId)
    requires Sound(h) && BegunAtHome(h, begun) && Owned(h, begun, copy) && Run(h, c).Committed?
    requires Served(Run(h, c).after, f)
    requires c.Complete? ==> c.file in begun && begun[c.file] == c.org
    ensures f in ApplyIf(copy, Run(h, c).event).files && f in Begins(begun, c)
    ensures ApplyIf(copy, Run(h, c).event).files[f].organization == Begins(begun, c)[f]
  {
    hide Sound, Run, Home;
    var e := Run(h, c).event;
    ServedBefore(h, c, f);
    if e.Some? {
      EventShape(h, c);
      if e.value.FileMoved? {
        MovedIsHome(h, begun, c);
      }
    }
  }

  lemma RunKeepsOwned(h: Hierarchy, begun: map<FileId, Id>, copy: Copy, c: Command)
    requires Sound(h) && Mintable(c) && BegunAtHome(h, begun) && Owned(h, begun, copy) && Run(h, c).Committed?
    requires c.Complete? ==> c.file in begun && begun[c.file] == c.org
    ensures Owned(Run(h, c).after, Begins(begun, c), ApplyIf(copy, Run(h, c).event))
  {
    hide Sound, Run, Home, ApplyIf, BegunAtHome, Stands, Served, Mintable, Begins;
    var h', copy' := Run(h, c).after, ApplyIf(copy, Run(h, c).event);
    forall d | Stands(h', d)
      ensures d in copy'.dirs && Home(h', copy'.dirs[d].organization, d)
    {
      OwnedDirs(h, begun, copy, c, d);
    }
    forall f | Served(h', f)
      ensures f in copy'.files && f in Begins(begun, c) && copy'.files[f].organization == Begins(begun, c)[f]
    {
      OwnedFiles(h, begun, copy, c, f);
    }
  }

  // ---- The directory ids the copy knows ----

  ghost predicate Known(used: set<Id>, h: Hierarchy, copy: Copy) {
    && h.dirs.Keys <= used
    && (forall d :: d in copy.dirs && copy.dirs[d].parent.Some? ==> copy.dirs[d].parent.value in used)
    && (forall f :: f in copy.files ==> copy.files[f].directory in used)
  }

  /** A directory id never written before is one no entry of the copy lies under. */
  lemma FreshHasNoOrphans(used: set<Id>, h: Hierarchy, copy: Copy, d: Id)
    requires Known(used, h, copy) && d !in used
    ensures NoOrphans(copy, d)
  {
  }

  /** An event names directories the rows hold. */
  lemma EventNamesRows(h: Hierarchy, c: Command)
    requires Sound(h) && Run(h, c).Committed? && Run(h, c).event.Some?
    ensures var e := Run(h, c).event.value;
            && ((e.DirectoryCreated? || e.DirectoryMoved?) && e.dir.parent.Some? ==> e.dir.parent.value in h.dirs)
            && (e.FileUploaded? || e.FileMoved? ==> e.file.directory in h.dirs)
  {
    hide IsForest, Bound, Unique, Scope, FileScope, WithinRoot, RunEnsureRoot, Occupied, DirectoryNamed, FileNamed,
         Mark;
    if c.EnsureRoot? {
      RootEventHasNoParent(h, c.org, c.stands, c.id);
    }
  }

  lemma RootEventHasNoParent(h: Hierarchy, org: Id, stands: bool, id: Id)
    requires RunEnsureRoot(h, org, stands, id).Committed? && RunEnsureRoot(h, org, stands, id).event.Some?
    ensures RunEnsureRoot(h, org, stands, id).event.value.DirectoryCreated?
    ensures RunEnsureRoot(h, org, stands, id).event.value.dir.parent.None?
  {
  }

  lemma RunKeepsKnown(used: set<Id>, h: Hierarchy, copy: Copy, c: Command)
    requires Sound(h) && Known(used, h, copy) && Run(h, c).Committed?
    ensures Known(used + Writes(h, c), Run(h, c).after, ApplyIf(copy, Run(h, c).event))
  {
    hide Sound, Run;
    forall d | d in Run(h, c).after.dirs
      ensures d in h.dirs || Inserted(h, c) == Some(d)
    {
      RowsBefore(h, c, d);
    }
    if Run(h, c).event.Some? {
      EventNamesRows(h, c);
    }
  }

  // ---- Runs ----

  ghost predicate Inv(s: State) {
    && Sound(s.rows) && Agree(s.rows, Replay(s.log))
    && BegunAtHome(s.rows, s.begun) && Owned(s.rows, s.begun, Replay(s.log))
    && Known(s.used, s.rows, Replay(s.log))
  }

  lemma NextKeepsInv(s: State, c: Command)
    requires Inv(s) && Allowed(s.rows, Replay(s.log), c)
    ensures Inv(Next(s, c))
  {
    hide Sound, Agree, BegunAtHome, Owned, Known, Run, Replay, NoOrphans;
    if Enabled(s, c) && Run(s.rows, c).Committed? {
      var copy, e := Replay(s.log), Run(s.rows, c).event;
      if e.Some? {
        ReplayNext(s.log, e.value);
      }
      assert Replay(Next(s, c).log) == ApplyIf(copy, e);
      RunKeepsSound(s.rows, c);
      RunAgrees(s.rows, copy, c);
      BegunStaysHome(s.rows, s.begun, c);
      RunKeepsOwned(s.rows, s.begun, copy, c);
      RunKeepsKnown(s.used, s.rows, copy, c);
    }
  }

  /** A run whose every inserted directory takes an id the copy lays nothing under when it is
      inserted: one never used before, or a seed's fixed id free of orphans. A refused command,
      and a root found standing, insert nothing. */
  ghost predicate Orphanless(s: State, commands: seq<Command>)
    decreases |commands|
  {
    commands != [] ==> Allowed(s.rows, Replay(s.log), commands[0]) && Orphanless(Next(s, commands[0]), commands[1..])
  }

  /** A run whose every inserted directory takes an id never used before. */
  ghost predicate Fresh(s: State, commands: seq<Command>)
    decreases |commands|
  {
    commands != [] ==>
      && (Inserted(s.rows, commands[0]).Some? ==> Inserted(s.rows, commands[0]).value !in s.used)
      && Fresh(Next(s, commands[0]), commands[1..])
  }

  lemma {:induction false} RunsKeepInv(s: State, commands: seq<Command>)
    requires Inv(s) && Orphanless(s, commands)
    ensures Inv(Exec(s, commands))
    decreases |commands|
  {
    hide Inv, Next, Allowed;
    if commands != [] {
      NextKeepsInv(s, commands[0]);
      RunsKeepInv(Next(s, commands[0]), commands[1..]);
    }
  }

  lemma {:induction false} FreshIsOrphanless(s: State, commands: seq<Command>)
    requires Inv(s) && Fresh(s, commands)
    ensures Orphanless(s, commands)
    decreases |commands|
  {
    if commands != [] {
      if Inserted(s.rows, commands[0]).Some? {
        FreshHasNoOrphans(s.used, s.rows, Replay(s.log), Inserted(s.rows, commands[0]).value);
      }
      hide Inv, Next, NoOrphans, Replay, Inserted;
      NextKeepsInv(s, commands[0]);
      FreshIsOrphanless(Next(s, commands[0]), commands[1..]);
    }
  }

  lemma InitialInv()
    ensures Inv(INITIAL)
  {
    assert ParentsIn(EMPTY) == map[];
  }

  /** What a consumer sees is what the rows show: the same directories reachable from a root,
      the same available files in them, each as it stands, and each directory under the
      organization whose root holds it. */
  ghost predicate Faithful(h: Hierarchy, copy: Copy) {
    && (forall d :: Visible(h, d) <==> Kept(copy, d))
    && (forall d :: Visible(h, d) ==>
          && d in copy.dirs && ShowsDirectory(copy.dirs[d], d, h.dirs[d]) && (h.dirs[d].parent != TOP ==> h.dirs[d].name.Plain?)
          && Home(h, copy.dirs[d].organization, d))
    && (forall f :: FileVisible(h, f) <==> FileKept(copy, f))
    && (forall f :: FileVisible(h, f) ==>
          && f in copy.files && ShowsFile(copy.files[f], f, h.files[f])
          && Home(h, copy.files[f].organization, h.files[f].directory))
  }

  lemma PlainBelowTop(h: Hierarchy)
    requires Sound(h)
    ensures forall d :: d in h.dirs && h.dirs[d].parent != TOP ==> h.dirs[d].name.Plain?
  {
    hide IsForest, Unique, Housed;
  }

  lemma InvIsFaithful(s: State)
    requires Inv(s)
    ensures Faithful(s.rows, Replay(s.log))
  {
    AgreeShows(s.rows, Replay(s.log));
    VisibleStands(s.rows);
    PlainBelowTop(s.rows);
    hide Agree, Known, Visible, Kept, FileKept, IsForest, Bound, Unique, Within, Replay, ShowsDirectory, ShowsFile;
  }

  /** After every run of commands, refused ones, races, sweeps, abandons, and purges among
      them, replaying the committed events shows exactly what the rows show. */
  lemma AllRuns(commands: seq<Command>)
    requires Orphanless(INITIAL, commands)
    ensures Faithful(Exec(INITIAL, commands).rows, Replay(Exec(INITIAL, commands).log))
  {
    hide Orphanless, Exec, Inv, Faithful;
    InitialInv();
    RunsKeepInv(INITIAL, commands);
    InvIsFaithful(Exec(INITIAL, commands));
  }

  /** So it does when every directory is created under an id of its own. */
  lemma AllFreshRuns(commands: seq<Command>)
    requires Fresh(INITIAL, commands)
    ensures Faithful(Exec(INITIAL, commands).rows, Replay(Exec(INITIAL, commands).log))
  {
    hide Orphanless, Exec, Inv, Faithful, Fresh;
    InitialInv();
    FreshIsOrphanless(INITIAL, commands);
    AllRuns(commands);
  }

  // ---- Over runs ----

  lemma NextKeepsSound(s: State, c: Command)
    requires Sound(s.rows)
    ensures Sound(Next(s, c).rows)
  {
    hide Sound, Run, Mintable;
    if Enabled(s, c) && Run(s.rows, c).Committed? {
      RunKeepsSound(s.rows, c);
    }
  }

  lemma NextKeepsBegun(s: State, c: Command)
    requires Sound(s.rows) && BegunAtHome(s.rows, s.begun)
    ensures BegunAtHome(Next(s, c).rows, Next(s, c).begun)
  {
    hide Sound, Run, BegunAtHome, Mintable;
    if Enabled(s, c) && Run(s.rows, c).Committed? {
      BegunStaysHome(s.rows, s.begun, c);
    }
  }

  /** However a run has come to its rows, a command that names another version than its row's
      changes nothing and commits nothing, but for the retry of a delete. */
  lemma StaleChangesNothing(s: State, c: Command, version: nat)
    requires Sound(s.rows) && IsGuarded(c) && TargetAt(s.rows, c, version) && version != c.version
    ensures Next(s, c) == s
  {
    OnlyAtItsVersion(s.rows, c, version);
    hide Sound, Run, TargetAt;
  }

  /** Every run at all keeps the rows sound, and each file in the root of the organization its
      write was begun for. */
  lemma {:induction false} SoundOverRuns(s: State, commands: seq<Command>)
    requires Sound(s.rows) && BegunAtHome(s.rows, s.begun)
    ensures Sound(Exec(s, commands).rows) && BegunAtHome(Exec(s, commands).rows, Exec(s, commands).begun)
    decreases |commands|
  {
    hide Sound, BegunAtHome, Next;
    if commands != [] {
      NextKeepsSound(s, commands[0]);
      NextKeepsBegun(s, commands[0]);
      SoundOverRuns(Next(s, commands[0]), commands[1..]);
    }
  }

  lemma SameBranchOn(h: Hierarchy, h1: Hierarchy, h2: Hierarchy, org: Id)
    requires SameBranch(h, h1, org) && SameBranch(h1, h2, org)
    ensures SameBranch(h, h2, org)
  {
    hide Within;
  }

  lemma SameBranchSelf(h: Hierarchy, org: Id)
    ensures SameBranch(h, h, org)
  {
    hide Within;
  }

  lemma NextIsIsolated(s: State, c: Command, org: Id, other: Id)
    requires Sound(s.rows) && BegunAtHome(s.rows, s.begun) && Actor(c) == Some(org) && other != org
    ensures SameBranch(s.rows, Next(s, c).rows, other)
  {
    hide Sound, Run, SameBranch, Home;
    SameBranchSelf(s.rows, other);
    if Enabled(s, c) {
      CommandsAreIsolated(s.rows, c, org, other);
    }
  }

  /** However many commands an organization runs, another's rows are as they were. */
  lemma {:induction false} RunsAreIsolated(s: State, commands: seq<Command>, org: Id, other: Id)
    requires Sound(s.rows) && BegunAtHome(s.rows, s.begun) && other != org
    requires forall i :: 0 <= i < |commands| ==> Actor(commands[i]) == Some(org)
    ensures SameBranch(s.rows, Exec(s, commands).rows, other)
    decreases |commands|
  {
    hide Sound, BegunAtHome, Next, SameBranch;
    if commands == [] {
      SameBranchSelf(s.rows, other);
    } else {
      NextKeepsSound(s, commands[0]);
      NextKeepsBegun(s, commands[0]);
      NextIsIsolated(s, commands[0], org, other);
      RunsAreIsolated(Next(s, commands[0]), commands[1..], org, other);
      SameBranchOn(s.rows, Next(s, commands[0]).rows, Exec(s, commands).rows, other);
    }
  }
}
