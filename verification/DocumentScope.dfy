/** The reach of an organization's commands: its own root's rows and nothing else. */
module DocumentScope {
  import opened Forest
  import opened Events
  import opened Documents

  /** Whether a directory lies within the organization's root. */
  ghost predicate Home(h: Hierarchy, org: Id, d: Id) {
    org in h.roots && d in h.dirs && Within(ParentsIn(h), d, h.roots[org])
  }

  /** The organization a command acts for; the sweep and the purges act for none. */
  function Actor(c: Command): Option<Id> {
    match c
    case EnsureRoot(org, _, _) => Some(org)
    case CreateDirectory(org, _, _, _, _) => Some(org)
    case DeleteDirectory(org, _, _, _) => Some(org)
    case MarkBranch(org, _, _) => Some(org)
    case MoveDirectory(org, _, _, _, _) => Some(org)
    case BeginUpload(org, _, _, _, _, _) => Some(org)
    case Complete(org, _, _, _) => Some(org)
    case DeleteFile(org, _, _) => Some(org)
    case MoveFile(org, _, _, _, _) => Some(org)
    case _ => None
  }

  /** A completion is the write's own, begun in the organization's tree. */
  ghost predicate Own(h: Hierarchy, c: Command) {
    c.Complete? && c.file in h.files ==> Home(h, c.org, h.files[c.file].directory)
  }

  // ---- Roots are apart ----

  lemma RootsApart(h: Hierarchy, a: Id, b: Id, d: Id)
    requires Bound(h) && IsForest(ParentsIn(h)) && Home(h, a, d) && Home(h, b, d)
    ensures a == b
  {
    var p := ParentsIn(h);
    var x, y := h.roots[a], h.roots[b];
    WithinLinear(p, d, x, y);
    WithinStep(p, x, y);
    WithinStep(p, y, x);
    WithinOutside(p, TOP, x);
    WithinOutside(p, TOP, y);
    assert h.dirs[x].name == OfOrganization(a) && h.dirs[y].name == OfOrganization(b);
  }

  /** What lies beneath a directory of the organization's is the organization's. */
  lemma HomeBelow(h: Hierarchy, org: Id, d: Id, x: Id)
    requires Home(h, org, d) && x in h.dirs && Within(ParentsIn(h), x, d)
    ensures Home(h, org, x)
  {
    WithinTransitive(ParentsIn(h), x, d, h.roots[org]);
  }

  lemma ScopeIsHome(h: Hierarchy, org: Id, ref: Ref)
    requires Bound(h) && Scope(h, org, ref).In?
    ensures Home(h, org, Scope(h, org, ref).dir)
    ensures h.roots[org] == Scope(h, org, ref).root
  {
    ScopeIsRow(h, org, ref);
  }

  lemma FileScopeIsHome(h: Hierarchy, org: Id, f: FileId)
    requires Bound(h) && FileScope(h, org, f).In?
    ensures f in h.files && Home(h, org, h.files[f].directory) && FileScope(h, org, f).root == h.roots[org]
  {
    WithinSelf(ParentsIn(h), h.roots[org]);
  }

  lemma DestinationIsHome(h: Hierarchy, org: Id, ref: Ref)
    requires Bound(h) && org in h.roots && WithinRoot(h, h.roots[org], ref).In?
    ensures Home(h, org, WithinRoot(h, h.roots[org], ref).dir)
  {
    WithinSelf(ParentsIn(h), h.roots[org]);
  }

  // ---- No entry leaves its root ----

  /** Every directory there before and after lies within the same organization's root. */
  ghost predicate HomesKept(h: Hierarchy, h': Hierarchy) {
    forall org, d :: d in h.dirs && d in h'.dirs ==> (Home(h, org, d) <==> Home(h', org, d))
  }

  lemma SameParentsKeepHomes(h: Hierarchy, h': Hierarchy)
    requires h'.roots == h.roots && ParentsIn(h') == ParentsIn(h)
    ensures HomesKept(h, h')
  {
    assert ParentsIn(h').Keys == h'.dirs.Keys && ParentsIn(h).Keys == h.dirs.Keys;
  }

  lemma InsertKeepsHomes(h: Hierarchy, d: Id, row: Directory)
    requires Bound(h) && IsForest(ParentsIn(h)) && d !in h.dirs && d != TOP && row.parent in h.dirs
    ensures HomesKept(h, PutDir(h, d, row))
    ensures forall org :: Home(PutDir(h, d, row), org, d) <==> Home(h, org, row.parent)
  {
    hide IsForest;
    InsertKeepsForest(h, d, row);
    Insert(ParentsIn(h), d, row.parent);
  }

  lemma RootKeepsHomes(h: Hierarchy, org: Id, d: Id, row: Directory)
    requires Bound(h) && IsForest(ParentsIn(h)) && d !in h.dirs && d != TOP && row.parent == TOP && org !in h.roots
    ensures var h' := PutDir(h, d, row).(roots := h.roots[org := d]); HomesKept(h, h') && Home(h', org, d)
  {
    hide IsForest;
    var h' := PutDir(h, d, row).(roots := h.roots[org := d]);
    var p := ParentsIn(h);
    InsertKeepsForest(h, d, row);
    assert ParentsIn(h') == p[d := TOP];
    Insert(p, d, TOP);
    WithinSelf(ParentsIn(h'), d);
    forall o, x | x in h.dirs
      ensures Home(h, o, x) <==> Home(h', o, x)
    {
      if o == org {
        AbsentHolds(h, x, d);
      }
    }
  }

  lemma AbsentHolds(h: Hierarchy, x: Id, d: Id)
    requires IsForest(ParentsIn(h)) && x in h.dirs && d !in h.dirs && d != TOP
    ensures !Within(ParentsIn(h), x, d)
  {
    NoneWithin(ParentsIn(h), x, d);
  }

  lemma MoveKeepsHomes(h: Hierarchy, org: Id, d: Id, row: Directory)
    requires Bound(h) && IsForest(ParentsIn(h)) && Home(h, org, d) && Home(h, org, row.parent)
    requires h.dirs[d].parent != TOP && !Within(ParentsIn(h), row.parent, d)
    ensures HomesKept(h, PutDir(h, d, row))
  {
    var h' := PutDir(h, d, row);
    MoveKeepsForest(h, d, row);
    hide IsForest;
    forall o, x | x in h.dirs && o in h.roots
      ensures Home(h, o, x) <==> Home(h', o, x)
    {
      if o != org && Home(h, o, d) {
        RootsApart(h, o, org, d);
      }
      if o != org && Home(h, o, row.parent) {
        RootsApart(h, o, org, row.parent);
      }
      ReparentWithin(ParentsIn(h), d, row.parent, x, h.roots[o]);
    }
  }

  lemma DropKeepsHomes(h: Hierarchy, d: Id)
    requires Bound(h) && IsForest(ParentsIn(h)) && d in h.dirs && !Occupied(h, d)
    ensures HomesKept(h, DropDir(h, d))
  {
    var h' := DropDir(h, d);
    var p := ParentsIn(h);
    DropKeepsForest(h, d);
    Remove(p, d);
    hide IsForest;
    forall o, x | x in h'.dirs
      ensures Home(h, o, x) <==> Home(h', o, x)
    {
      ChildlessIsTop(p, x, d);
    }
  }

  lemma EnsureRootKeepsHomes(h: Hierarchy, org: Id, stands: bool, id: Id)
    requires Sound(h) && id != TOP && RunEnsureRoot(h, org, stands, id).Committed?
    ensures HomesKept(h, RunEnsureRoot(h, org, stands, id).after)
  {
    hide IsForest, Unique, Housed;
    if org in h.roots {
      SameParentsKeepHomes(h, h);
    } else {
      forall d | d in h.dirs && h.dirs[d].parent == TOP
        ensures h.dirs[d].name != OfOrganization(org)
      {
        UnboundMeansAbsent(h, org, d);
      }
      RootKeepsHomes(h, org, id, Directory(TOP, OfOrganization(org), Active, 1));
    }
  }

  /** No transaction takes a directory into or out of an organization's root: a successful
      move never does, and nothing else moves one. */
  lemma RunKeepsHomes(h: Hierarchy, c: Command)
    requires Sound(h) && Mintable(c) && Run(h, c).Committed?
    ensures HomesKept(h, Run(h, c).after)
  {
    hide IsForest, Unique, Housed, Scope, FileScope, WithinRoot, RunEnsureRoot, Mark, DropDir, Occupied, Bound,
         HomesKept, DirectoryNamed, FileNamed, Within;
    var h' := Run(h, c).after;
    match c
    case EnsureRoot(org, stands, id) => EnsureRootKeepsHomes(h, org, stands, id);
    case CreateDirectory(org, parent, name, id, raced) =>
      InsertKeepsHomes(h, id, Directory(Scope(h, org, parent).dir, Plain(name), Active, 1));
    case DeleteDirectory(org, dir, _, _) => DropKeepsHomes(h, Scope(h, org, dir).dir);
    case MarkBranch(org, dir, _) =>
      MarkKeepsParents(h, Scope(h, org, dir).dir);
      MarkKeepsPlaces(h, Scope(h, org, dir).dir);
      SameParentsKeepHomes(h, h');
    case MoveDirectory(org, dir, version, to, name) =>
      MoveStaysHome(h, org, dir, version, to, name);
    case SweepMark(id) =>
      MarkOneKeepsRest(h, id);
      SameParentsKeepHomes(h, h');
    case SweepDirectory(id) => DropKeepsHomes(h, id);
    case _ =>
      assert h'.dirs == h.dirs && h'.roots == h.roots;
      SameParentsKeepHomes(h, h');
  }

  lemma MoveStaysHome(h: Hierarchy, org: Id, dir: Ref, version: nat, to: Ref, name: string)
    requires Sound(h) && Run(h, MoveDirectory(org, dir, version, to, name)).Committed?
    ensures HomesKept(h, Run(h, MoveDirectory(org, dir, version, to, name)).after)
  {
    hide IsForest, Unique, Housed, Scope, WithinRoot, Bound, HomesKept, DirectoryNamed;
    var s := Scope(h, org, dir);
    ScopeIsHome(h, org, dir);
    OnlyRootsAtTop(h, org, s.dir);
    DestinationIsHome(h, org, to);
    var p := WithinRoot(h, s.root, to).dir;
    MoveKeepsHomes(h, org, s.dir, h.dirs[s.dir].(parent := p, name := Plain(name), version := version + 1));
  }

  // ---- Isolation ----

  /** The organization's own rows: its owner row, its directories, and their files. */
  ghost predicate SameBranch(h: Hierarchy, h': Hierarchy, org: Id) {
    && (org in h.roots <==> org in h'.roots) && (org in h.roots ==> h'.roots[org] == h.roots[org])
    && SameDirs(h, h', org) && SameFiles(h, h', org)
  }

  ghost predicate SameDirs(h: Hierarchy, h': Hierarchy, org: Id) {
    forall d :: (Home(h, org, d) <==> Home(h', org, d)) && (Home(h, org, d) ==> h'.dirs[d] == h.dirs[d])
  }

  ghost predicate SameFiles(h: Hierarchy, h': Hierarchy, org: Id) {
    forall f :: (InBranch(h, org, f) <==> InBranch(h', org, f)) && (InBranch(h, org, f) ==> h'.files[f] == h.files[f])
  }

  ghost predicate InBranch(h: Hierarchy, org: Id, f: FileId) {
    f in h.files && Home(h, org, h.files[f].directory)
  }

  /** Every directory row a transaction writes, inserts, or removes is the organization's,
      and every file row's directory is, before and after. */
  ghost predicate Confined(h: Hierarchy, h': Hierarchy, org: Id) {
    && (forall o :: o != org ==> (o in h.roots <==> o in h'.roots) && (o in h.roots ==> h'.roots[o] == h.roots[o]))
    && (forall d :: d in h.dirs && (d !in h'.dirs || h'.dirs[d] != h.dirs[d]) ==> Home(h, org, d))
    && (forall d :: d in h'.dirs && d !in h.dirs ==> Home(h', org, d))
    && (forall f :: f in h.files && (f !in h'.files || h'.files[f] != h.files[f]) ==> Home(h, org, h.files[f].directory))
    && (forall f :: f in h'.files && (f !in h.files || h'.files[f] != h.files[f]) ==> Home(h', org, h'.files[f].directory))
  }

  lemma ConfinedDirs(h: Hierarchy, h': Hierarchy, org: Id, other: Id, d: Id)
    requires Sound(h) && Sound(h') && HomesKept(h, h') && Confined(h, h', org) && other != org
    ensures Home(h, other, d) <==> Home(h', other, d)
    ensures Home(h, other, d) ==> h'.dirs[d] == h.dirs[d]
  {
    hide Within, IsForest, Unique, Housed;
    if Home(h, other, d) && Home(h, org, d) {
      RootsApart(h, org, other, d);
    }
    if Home(h', other, d) && Home(h', org, d) {
      RootsApart(h', org, other, d);
    }
  }

  lemma ConfinedFiles(h: Hierarchy, h': Hierarchy, org: Id, other: Id, f: FileId)
    requires Sound(h) && Sound(h') && HomesKept(h, h') && Confined(h, h', org) && other != org
    ensures InBranch(h, other, f) <==> InBranch(h', other, f)
    ensures InBranch(h, other, f) ==> h'.files[f] == h.files[f]
  {
    hide IsForest, Unique, Housed, Bound, Home;
    if InBranch(h, other, f) {
      ConfinedDirs(h, h', org, other, h.files[f].directory);
      if Home(h, org, h.files[f].directory) {
        RootsApart(h, org, other, h.files[f].directory);
      }
    }
    if InBranch(h', other, f) {
      ConfinedDirs(h, h', org, other, h'.files[f].directory);
      if Home(h', org, h'.files[f].directory) {
        RootsApart(h', org, other, h'.files[f].directory);
      }
    }
  }

  lemma ConfinedRoots(h: Hierarchy, h': Hierarchy, org: Id, other: Id)
    requires Confined(h, h', org) && other != org
    ensures (other in h.roots <==> other in h'.roots) && (other in h.roots ==> h'.roots[other] == h.roots[other])
  {
  }

  lemma ConfinedKeepsBranch(h: Hierarchy, h': Hierarchy, org: Id, other: Id)
    requires Sound(h) && Sound(h') && HomesKept(h, h') && Confined(h, h', org) && other != org
    ensures SameBranch(h, h', other)
  {
    hide Sound, HomesKept, Confined, Within;
    ConfinedRoots(h, h', org, other);
    assert SameDirs(h, h', other) by {
      forall d
        ensures (Home(h, other, d) <==> Home(h', other, d)) && (Home(h, other, d) ==> h'.dirs[d] == h.dirs[d])
      {
        ConfinedDirs(h, h', org, other, d);
      }
    }
    hide SameDirs;
    assert SameFiles(h, h', other) by {
      forall f
        ensures (InBranch(h, other, f) <==> InBranch(h', other, f))
        ensures (InBranch(h, other, f) ==> h'.files[f] == h.files[f])
      {
        ConfinedFiles(h, h', org, other, f);
      }
    }
  }

  lemma PutDirIsConfined(h: Hierarchy, org: Id, d: Id, row: Directory)
    requires d in h.dirs ==> Home(h, org, d)
    requires d !in h.dirs ==> Home(PutDir(h, d, row), org, d)
    ensures Confined(h, PutDir(h, d, row), org)
  {
    hide Home;
  }

  lemma PutFileIsConfined(h: Hierarchy, org: Id, f: FileId, row: File)
    requires f in h.files ==> Home(h, org, h.files[f].directory)
    requires Home(h, org, row.directory)
    ensures Confined(h, PutFile(h, f, row), org)
  {
    assert ParentsIn(PutFile(h, f, row)) == ParentsIn(h);
    assert Home(PutFile(h, f, row), org, row.directory);
    hide Home;
  }

  lemma DropDirIsConfined(h: Hierarchy, org: Id, d: Id)
    requires Sound(h) && Home(h, org, d)
    ensures Confined(h, DropDir(h, d), org)
  {
    hide IsForest, Unique, Housed;
    forall o | o != org && o in h.roots
      ensures o in DropDir(h, d).roots
    {
      if h.roots[o] == d {
        WithinSelf(ParentsIn(h), d);
        RootsApart(h, o, org, d);
      }
    }
    hide Within;
  }

  lemma MarkIsConfined(h: Hierarchy, org: Id, d: Id)
    requires Sound(h) && Home(h, org, d)
    ensures Confined(h, Mark(h, d), org)
  {
    var h' := Mark(h, d);
    hide IsForest, Unique, Binds;
    forall x | x in h.dirs && Within(ParentsIn(h), x, d)
      ensures Home(h, org, x)
    {
      HomeBelow(h, org, d, x);
    }
    assert ParentsIn(h') == ParentsIn(h);
    forall x | x in h.dirs
      ensures Home(h', org, x) == Home(h, org, x)
    {
    }
    forall f | f in h.files && h'.files[f] != h.files[f]
      ensures Home(h, org, h.files[f].directory)
    {
      FileStands(h, f);
      HomeBelow(h, org, d, h.files[f].directory);
    }
    hide Within, Home;
  }

  lemma EnsureRootIsConfined(h: Hierarchy, org: Id, stands: bool, id: Id)
    requires Sound(h) && id != TOP && RunEnsureRoot(h, org, stands, id).Committed?
    ensures Confined(h, RunEnsureRoot(h, org, stands, id).after, org)
  {
    hide IsForest, Unique, Housed;
    if org !in h.roots {
      forall d | d in h.dirs && h.dirs[d].parent == TOP
        ensures h.dirs[d].name != OfOrganization(org)
      {
        UnboundMeansAbsent(h, org, d);
      }
      RootKeepsHomes(h, org, id, Directory(TOP, OfOrganization(org), Active, 1));
      hide Within;
    }
  }

  /** A transaction an organization's command runs writes its own rows alone. */
  lemma RunIsConfined(h: Hierarchy, c: Command, org: Id)
    requires Sound(h) && Mintable(c) && Own(h, c) && Actor(c) == Some(org) && Run(h, c).Committed?
    ensures Confined(h, Run(h, c).after, org)
  {
    hide IsForest, Unique, Housed, Scope, FileScope, WithinRoot, RunEnsureRoot, Mark, DropDir, Occupied, Bound, Home,
         Confined, DirectoryNamed, FileNamed;
    match c
    case EnsureRoot(_, stands, id) => EnsureRootIsConfined(h, org, stands, id);
    case CreateDirectory(_, parent, name, id, raced) =>
      ScopeIsHome(h, org, parent);
      var row := Directory(Scope(h, org, parent).dir, Plain(name), Active, 1);
      InsertKeepsHomes(h, id, row);
      PutDirIsConfined(h, org, id, row);
    case DeleteDirectory(_, dir, _, _) =>
      ScopeIsHome(h, org, dir);
      DropDirIsConfined(h, org, Scope(h, org, dir).dir);
    case MarkBranch(_, dir, _) =>
      ScopeIsHome(h, org, dir);
      MarkIsConfined(h, org, Scope(h, org, dir).dir);
    case MoveDirectory(_, dir, version, to, name) =>
      ScopeIsHome(h, org, dir);
      var p := WithinRoot(h, Scope(h, org, dir).root, to).dir;
      var d := Scope(h, org, dir).dir;
      PutDirIsConfined(h, org, d, h.dirs[d].(parent := p, name := Plain(name), version := version + 1));
    case BeginUpload(_, dir, name, contentType, f, _) =>
      ScopeIsHome(h, org, dir);
      PutFileIsConfined(h, org, f, File(Scope(h, org, dir).dir, name, contentType, Pending, None, 1));
    case Complete(_, f, stored, _) =>
      PutFileIsConfined(h, org, f, h.files[f].(status := Available, stored := Some(stored), version := h.files[f].version + 1));
    case DeleteFile(_, f, _) =>
      FileScopeIsHome(h, org, f);
      PutFileIsConfined(h, org, f, MarkedFile(h.files[f]));
      SameIsConfined(h, org);
    case MoveFile(_, f, version, to, name) =>
      FileScopeIsHome(h, org, f);
      OwnerRow(h, org, f);
      DestinationIsHome(h, org, to);
      var p := WithinRoot(h, FileScope(h, org, f).root, to).dir;
      PutFileIsConfined(h, org, f, h.files[f].(directory := p, name := name, version := version + 1));
  }

  lemma SameIsConfined(h: Hierarchy, org: Id)
    ensures Confined(h, h, org)
  {
  }

  lemma OwnerRow(h: Hierarchy, org: Id, f: FileId)
    requires FileScope(h, org, f).In?
    ensures org in h.roots
  {
  }

  /** Isolation: whatever an organization's command does, every other organization's rows
      are as they were, its own owner row with them. */
  lemma CommandsAreIsolated(h: Hierarchy, c: Command, org: Id, other: Id)
    requires Sound(h) && Mintable(c) && Own(h, c) && Actor(c) == Some(org) && other != org
    ensures Run(h, c).Committed? ==> SameBranch(h, Run(h, c).after, other)
  {
    hide Sound, Run, HomesKept, Confined, Home, SameBranch;
    if Run(h, c).Committed? {
      RunKeepsSound(h, c);
      RunKeepsHomes(h, c);
      RunIsConfined(h, c, org);
      ConfinedKeepsBranch(h, Run(h, c).after, org, other);
    }
  }

  // ---- An id outside the root answers as an absent one ----

  /** An id that names nothing of the organization's: another's, or nobody's. */
  ghost predicate Foreign(h: Hierarchy, org: Id, d: Id) {
    !Home(h, org, d)
  }

  ghost predicate ForeignFile(h: Hierarchy, org: Id, f: FileId) {
    !InBranch(h, org, f)
  }

  /** A command's first scope, rewritten to name another directory or another file. */
  function Naming(c: Command, d: Id, f: FileId): Command {
    match c
    case CreateDirectory(org, _, name, id, raced) => CreateDirectory(org, At(d), name, id, raced)
    case DeleteDirectory(org, _, version, lenient) => DeleteDirectory(org, At(d), version, lenient)
    case MarkBranch(org, _, version) => MarkBranch(org, At(d), version)
    case MoveDirectory(org, _, version, to, name) => MoveDirectory(org, At(d), version, to, name)
    case BeginUpload(org, _, name, contentType, file, raced) => BeginUpload(org, At(d), name, contentType, file, raced)
    case DeleteFile(org, _, version) => DeleteFile(org, f, version)
    case MoveFile(org, _, version, to, name) => MoveFile(org, f, version, to, name)
    case _ => c
  }

  /** A move's destination, rewritten to name another directory. */
  function Toward(c: Command, d: Id): Command {
    match c
    case MoveDirectory(org, dir, version, _, name) => MoveDirectory(org, dir, version, At(d), name)
    case MoveFile(org, file, version, _, name) => MoveFile(org, file, version, At(d), name)
    case _ => c
  }

  predicate Scoping(c: Command) {
    || c.CreateDirectory? || c.DeleteDirectory? || c.MarkBranch? || c.MoveDirectory? || c.BeginUpload?
    || c.DeleteFile? || c.MoveFile?
  }

  lemma ForeignIsOut(h: Hierarchy, org: Id, d: Id)
    requires Bound(h) && Foreign(h, org, d)
    ensures Scope(h, org, At(d)) == Out(if org in h.roots then NotFound else NoRow)
  {
    if org in h.roots {
      WithinSelf(ParentsIn(h), h.roots[org]);
    }
  }

  lemma ForeignFileIsOut(h: Hierarchy, org: Id, f: FileId)
    requires Bound(h) && Housed(h) && ForeignFile(h, org, f)
    ensures FileScope(h, org, f) == Out(if org in h.roots then NotFound else NoRow)
  {
    if org in h.roots {
      WithinSelf(ParentsIn(h), h.roots[org]);
    }
  }

  /** An id no row holds is foreign to every organization. */
  lemma AbsentIsForeign(h: Hierarchy, org: Id, d: Id, f: FileId)
    ensures d !in h.dirs ==> Foreign(h, org, d)
    ensures f !in h.files ==> ForeignFile(h, org, f)
  {
  }

  /** A command naming a directory or a file outside its organization's root is refused the
      one way, whichever id it names, whatever stands under it, and at whatever version:
      another organization's row is told apart from an id no row holds by no answer. */
  lemma ForeignAnswersAsAbsent(h: Hierarchy, c: Command, org: Id, d: Id, f: FileId)
    requires Sound(h) && Actor(c) == Some(org) && Scoping(c) && Foreign(h, org, d) && ForeignFile(h, org, f)
    ensures Run(h, Naming(c, d, f)) == Refused(if org in h.roots then NotFound else NoRow)
    ensures forall e, g :: e !in h.dirs && g !in h.files ==> Run(h, Naming(c, d, f)) == Run(h, Naming(c, e, g))
  {
    hide Sound, Run, Foreign, ForeignFile;
    ForeignIsRefused(h, c, org, d, f);
    forall e, g | e !in h.dirs && g !in h.files
      ensures Run(h, Naming(c, d, f)) == Run(h, Naming(c, e, g))
    {
      AbsentIsForeign(h, org, e, g);
      ForeignIsRefused(h, c, org, e, g);
    }
  }

  lemma ForeignIsRefused(h: Hierarchy, c: Command, org: Id, d: Id, f: FileId)
    requires Sound(h) && Actor(c) == Some(org) && Scoping(c) && Foreign(h, org, d) && ForeignFile(h, org, f)
    ensures Run(h, Naming(c, d, f)) == Refused(if org in h.roots then NotFound else NoRow)
  {
    hide IsForest, Unique, Bound, Foreign, ForeignFile, Scope, FileScope;
    ForeignIsOut(h, org, d);
    ForeignFileIsOut(h, org, f);
  }

  /** A move to a directory outside the root is refused the same way too. */
  lemma ForeignDestination(h: Hierarchy, c: Command, org: Id, d: Id)
    requires Sound(h) && Actor(c) == Some(org) && (c.MoveDirectory? || c.MoveFile?) && Foreign(h, org, d)
    ensures Run(h, Toward(c, d)).Refused?
    ensures forall e :: Foreign(h, org, e) ==> Run(h, Toward(c, d)) == Run(h, Toward(c, e))
  {
    hide IsForest, Unique, FileNamed, DirectoryNamed;
    if org in h.roots {
      WithinSelf(ParentsIn(h), h.roots[org]);
    }
  }

  /** Another organization's row is foreign. */
  lemma AnothersIsForeign(h: Hierarchy, org: Id, other: Id, d: Id, f: FileId)
    requires Sound(h) && org != other
    ensures Home(h, other, d) ==> Foreign(h, org, d)
    ensures InBranch(h, other, f) ==> ForeignFile(h, org, f)
  {
    if Home(h, other, d) && Home(h, org, d) {
      RootsApart(h, org, other, d);
    }
    if InBranch(h, other, f) && InBranch(h, org, f) {
      RootsApart(h, org, other, h.files[f].directory);
    }
  }
}
