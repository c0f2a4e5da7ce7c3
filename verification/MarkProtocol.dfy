/** A branch's mark and a directory's move in steps of their own: the scope checks, the tree's
    lock, the reads of the tree, and the statement with its event, with any other transaction
    committing between them, one that takes the tree's lock only while nobody holds it. With the
    lock either is the whole transaction at the moment it commits, and marks commit a
    directory's deletion once. Where the lock is a no-op, only a create or a move that lands
    beneath a directory beside its concurrent first mark makes a second. */
module MarkProtocol {
  import opened Forest
  import opened Events
  import opened Documents
  import opened DocumentScope
  import opened DocumentReplay

  /** What a transaction is to do to the directories its scope checks resolved. */
  datatype Work =
    | Marking(org: Id, dir: Id, version: nat)
    | Moving(org: Id, root: Id, dir: Id, version: nat, to: Id, name: string)

  /** A transaction in flight: its scope checked, then the lock held, then the tree read. */
  datatype Transaction = Scoped(work: Work) | Locked(work: Work) | Seen(work: Work, anchor: Status)

  /** The committed rows, the transactions in flight, the lock's holder, the directories whose
      deletion a mark has committed, in order, and the events. */
  datatype Service = Service(rows: Hierarchy, inFlight: map<nat, Transaction>, holder: Option<nat>, raised: seq<Id>, log: seq<Event>)

  const IDLE := Service(EMPTY, map[], None, [], [])

  datatype Step =
    | CheckMark(tx: nat, org: Id, dir: Ref, version: nat)
    | CheckMove(tx: nat, org: Id, dir: Ref, version: nat, to: Ref, name: string)
    | Lock(tx: nat)
    | Read(tx: nat)
    | Finish(tx: nat)
    | Other(command: Command)

  predicate Names(w: Work, d: Id) { w.dir == d || (w.Moving? && w.to == d) }

  /** A transaction other than a request's mark or move, which inserts no directory that one in
      flight names. */
  ghost predicate Settled(s: Service, c: Command) {
    && !c.MarkBranch? && !c.MoveDirectory? && Mintable(c)
    && (Inserted(s.rows, c).Some? ==>
          forall tx :: tx in s.inFlight ==> !Names(s.inFlight[tx].work, Inserted(s.rows, c).value))
  }

  function To(s: Service, tx: nat, t: Transaction): Service {
    s.(inFlight := s.inFlight[tx := t])
  }

  function End(s: Service, tx: nat): Service {
    s.(inFlight := s.inFlight - {tx}, holder := if s.holder == Some(tx) then None else s.holder)
  }

  // ---- What the statements do ----

  /** Whether the mark takes any directory from active. */
  ghost predicate Marks(h: Hierarchy, d: Id) {
    exists x :: Stands(h, x) && Within(ParentsIn(h), x, d)
  }

  /** The mark's statement and its event: the directory read active, and some directory
      marked. */
  ghost function Marked(s: Service, w: Work, anchor: Status): Service
    requires w.Marking?
  {
    if w.dir !in s.rows.dirs then s
    else if s.rows.dirs[w.dir].status == Active && s.rows.dirs[w.dir].version != w.version then s
    else if anchor == Active && Marks(s.rows, w.dir) then
      s.(rows := Mark(s.rows, w.dir), raised := s.raised + [w.dir],
         log := s.log + [DirectoryDeleted(w.dir, w.org, MarkedDir(s.rows.dirs[w.dir]).version)])
    else s.(rows := Mark(s.rows, w.dir))
  }

  /** What a move checks under the lock before it writes. */
  ghost predicate Movable(h: Hierarchy, w: Work)
    requires w.Moving?
  {
    && w.dir in h.dirs && w.to in h.dirs && ValidName(w.name) && h.dirs[w.dir].version == w.version
    && h.dirs[w.dir].status == Active && h.dirs[w.to].status == Active && !Within(ParentsIn(h), w.to, w.dir)
  }

  /** The row a move writes. */
  function MovedRow(h: Hierarchy, w: Work): Directory
    requires w.Moving? && w.dir in h.dirs
  {
    h.dirs[w.dir].(parent := w.to, name := Plain(w.name), version := w.version + 1)
  }

  /** The move's guarded update and its event: the version, the foreign key, and the name are
      all it checks itself. */
  function Moved(s: Service, w: Work): Service
    requires w.Moving?
  {
    if w.dir !in s.rows.dirs || w.to !in s.rows.dirs || s.rows.dirs[w.dir].version != w.version then s
    else if DirectoryNamed(s.rows, w.dir, w.to, Plain(w.name)) then s
    else
      var row := MovedRow(s.rows, w);
      s.(rows := PutDir(s.rows, w.dir, row), log := s.log + [DirectoryMoved(Shown(w.org, w.root, w.dir, row))])
  }

  ghost function Finished(s: Service, t: Transaction): Service
    requires t.Seen?
  {
    if t.work.Marking? then Marked(s, t.work, t.anchor) else Moved(s, t.work)
  }

  // ---- The steps ----

  ghost function ScopedMark(h: Hierarchy, org: Id, dir: Ref, version: nat): Option<Work> {
    match Scope(h, org, dir)
    case Out(_) => None
    case In(_, d) => Some(Marking(org, d, version))
  }

  ghost function ScopedMove(h: Hierarchy, org: Id, dir: Ref, version: nat, to: Ref, name: string): Option<Work> {
    match Scope(h, org, dir)
    case Out(_) => None
    case In(root, d) =>
      if d == root then None
      else
        match WithinRoot(h, root, to)
        case Out(_) => None
        case In(_, p) => Some(Moving(org, root, d, version, p, name))
  }

  ghost function Start(s: Service, tx: nat, w: Option<Work>): Service {
    if tx in s.inFlight || w.None? then s else To(s, tx, Scoped(w.value))
  }

  ghost function Reading(s: Service, tx: nat, w: Work): Service {
    match w
    case Marking(_, d, _) => if d in s.rows.dirs then To(s, tx, Seen(w, s.rows.dirs[d].status)) else End(s, tx)
    case Moving(_, _, _, _, _, _) => if Movable(s.rows, w) then To(s, tx, Seen(w, Active)) else End(s, tx)
  }

  ghost function Next(locking: bool, s: Service, step: Step): Service {
    match step
    case CheckMark(tx, org, dir, version) => Start(s, tx, ScopedMark(s.rows, org, dir, version))
    case CheckMove(tx, org, dir, version, to, name) => Start(s, tx, ScopedMove(s.rows, org, dir, version, to, name))
    case Lock(tx) =>
      if tx !in s.inFlight || !s.inFlight[tx].Scoped? || (locking && s.holder.Some?) then s
      else To(s, tx, Locked(s.inFlight[tx].work)).(holder := if locking then Some(tx) else s.holder)
    case Read(tx) => if tx !in s.inFlight || !s.inFlight[tx].Locked? then s else Reading(s, tx, s.inFlight[tx].work)
    case Finish(tx) => if tx !in s.inFlight || !s.inFlight[tx].Seen? then s else End(Finished(s, s.inFlight[tx]), tx)
    case Other(c) =>
      if (locking && c.SweepMark? && s.holder.Some?) || !Settled(s, c) then s
      else
        match Run(s.rows, c)
        case Refused(_) => s
        case Committed(h, e) => s.(rows := h, log := if e.Some? then s.log + [e.value] else s.log)
  }

  ghost function Exec(locking: bool, s: Service, steps: seq<Step>): Service
    decreases |steps|
  {
    if steps == [] then s else Exec(locking, Next(locking, s, steps[0]), steps[1..])
  }

  // ---- With the lock, at every step ----

  /** A transaction's directories, while they stand at all, are still in the scope it checked. */
  ghost predicate InScope(h: Hierarchy, w: Work) {
    && (w.dir in h.dirs ==> Home(h, w.org, w.dir))
    && (w.Moving? ==>
          && (w.to in h.dirs ==> Home(h, w.org, w.to))
          && (w.dir in h.dirs ==> h.roots[w.org] == w.root && w.dir != w.root))
  }

  /** And, if they still stand at all, stand as it read them. */
  ghost predicate AsRead(h: Hierarchy, t: Transaction)
    requires t.Seen?
  {
    match t.work
    case Marking(_, d, _) => d in h.dirs ==> h.dirs[d].status == t.anchor
    case Moving(_, _, d, _, to, name) =>
      && ValidName(name)
      && (d in h.dirs && to in h.dirs ==>
            h.dirs[d].status == Active && h.dirs[to].status == Active && !Within(ParentsIn(h), to, d))
  }

  ghost predicate Scopes(s: Service) {
    Sound(s.rows) && forall tx :: tx in s.inFlight ==> InScope(s.rows, s.inFlight[tx].work)
  }

  /** Only the lock's holder is past its lock. */
  ghost predicate Alone(s: Service) {
    && (forall tx :: tx in s.inFlight && !s.inFlight[tx].Scoped? ==> s.holder == Some(tx))
    && (forall tx :: tx in s.inFlight && s.inFlight[tx].Seen? ==> AsRead(s.rows, s.inFlight[tx]))
  }

  ghost predicate Inv(s: Service) {
    Scopes(s) && Alone(s)
  }

  /** A mark of a directory in its organization's root, or of one that is no row at all. */
  lemma MarkIsRun(h: Hierarchy, org: Id, d: Id, version: nat)
    requires Sound(h) && (d in h.dirs ==> Home(h, org, d))
    ensures Run(h, MarkBranch(org, At(d), version)).Refused? <==> RunMark(h, org, d, version).Refused?
    ensures d in h.dirs ==> Run(h, MarkBranch(org, At(d), version)) == RunMark(h, org, d, version)
  {
    hide RunMark, IsForest, Unique, Housed;
    if d !in h.dirs {
      ForeignIsOut(h, org, d);
      NoRowIsNotMarked(h, org, d, version);
    }
  }

  lemma NoRowIsNotMarked(h: Hierarchy, org: Id, d: Id, version: nat)
    ensures d !in h.dirs ==> RunMark(h, org, d, version).Refused?
  {
  }

  /** The rows and the log after a whole transaction, or as they were. */
  ghost predicate RanWhole(s: Service, t: Service, c: Command) {
    match Run(s.rows, c)
    case Refused(_) => t.rows == s.rows && t.log == s.log
    case Committed(h, e) => t.rows == h && t.log == if e.Some? then s.log + [e.value] else s.log
  }

  /** With the lock a mark's steps are the whole mark transaction, its scope check with it, run at
      the moment it commits. */
  lemma FinishIsMark(s: Service, tx: nat)
    requires Inv(s) && tx in s.inFlight && s.inFlight[tx].Seen? && s.inFlight[tx].work.Marking?
    ensures var w := s.inFlight[tx].work; RanWhole(s, Next(true, s, Finish(tx)), MarkBranch(w.org, At(w.dir), w.version))
  {
    var w := s.inFlight[tx].work;
    assert InScope(s.rows, w) && AsRead(s.rows, s.inFlight[tx]);
    hide Mark, Sound, Home, Run, Moved;
    MarkIsRun(s.rows, w.org, w.dir, w.version);
    WithinSelf(ParentsIn(s.rows), w.dir);
  }

  lemma MoveIsRun(h: Hierarchy, w: Work)
    requires Sound(h) && w.Moving? && InScope(h, w)
    ensures var r := Run(h, MoveDirectory(w.org, At(w.dir), w.version, At(w.to), w.name));
            if w.dir in h.dirs && w.to in h.dirs then r == RunMove(h, w.org, w.root, w.dir, w.version, w.to, w.name) else r.Refused?
  {
    hide IsForest, Unique, Housed, RunMove, Within;
    if w.dir in h.dirs {
      if w.to !in h.dirs {
        NoRowIsNotMoved(h, w.org, w.root, w.dir, w.version, w.to, w.name);
      }
    } else {
      ForeignIsOut(h, w.org, w.dir);
    }
  }

  lemma NoRowIsNotMoved(h: Hierarchy, org: Id, root: Id, d: Id, version: nat, p: Id, name: string)
    ensures d !in h.dirs || p !in h.dirs ==> RunMove(h, org, root, d, version, p, name).Refused?
  {
  }

  /** With the lock a move's steps are the whole move, its scope and cycle checks with it, run at
      the moment it commits. */
  lemma FinishIsMove(s: Service, tx: nat)
    requires Inv(s) && tx in s.inFlight && s.inFlight[tx].Seen? && s.inFlight[tx].work.Moving?
    ensures var w := s.inFlight[tx].work;
            RanWhole(s, Next(true, s, Finish(tx)), MoveDirectory(w.org, At(w.dir), w.version, At(w.to), w.name))
  {
    var w := s.inFlight[tx].work;
    assert InScope(s.rows, w) && AsRead(s.rows, s.inFlight[tx]);
    hide Sound, Home, Run, Within, Marked, DirectoryNamed;
    MoveIsRun(s.rows, w);
  }

  // ---- What keeps it ----

  lemma NotInserted(s: Service, c: Command, tx: nat, d: Id)
    requires Settled(s, c) && Run(s.rows, c).Committed? && tx in s.inFlight && Names(s.inFlight[tx].work, d)
    ensures Inserted(s.rows, c) != Some(d)
    ensures d in Run(s.rows, c).after.dirs ==> d in s.rows.dirs
  {
    hide Run, Inserted;
    if d in Run(s.rows, c).after.dirs {
      RowsBefore(s.rows, c, d);
    }
  }

  lemma SettledIsOther(s: Service, c: Command)
    requires Settled(s, c)
    ensures Mintable(c) && !c.MarkBranch? && !c.MoveDirectory?
  {
  }

  /** An organization's owner row, while it has one, binds the same root. */
  lemma RootsStay(h: Hierarchy, c: Command, org: Id)
    requires Run(h, c).Committed? && org in h.roots && org in Run(h, c).after.roots
    ensures Run(h, c).after.roots[org] == h.roots[org]
  {
    hide Scope, FileScope, WithinRoot, Occupied, DirectoryNamed, FileNamed, Within;
  }

  lemma ScopeStays(h: Hierarchy, c: Command, w: Work)
    requires Sound(h) && Mintable(c) && Run(h, c).Committed? && InScope(h, w)
    requires forall d :: Names(w, d) && d in Run(h, c).after.dirs ==> d in h.dirs
    ensures InScope(Run(h, c).after, w)
  {
    hide Sound, Run, HomesKept;
    var h' := Run(h, c).after;
    RunKeepsHomes(h, c);
    if w.dir in h'.dirs {
      HomeStays(h, h', w.org, w.dir);
      RootsStay(h, c, w.org);
    }
    if w.Moving? && w.to in h'.dirs {
      HomeStays(h, h', w.org, w.to);
    }
    hide Within;
  }

  lemma HomeStays(h: Hierarchy, h': Hierarchy, org: Id, d: Id)
    requires HomesKept(h, h') && Home(h, org, d) && d in h'.dirs
    ensures Home(h', org, d)
  {
    hide Within;
  }

  /** Outside the lock a directory's status never changes. */
  lemma UnlockedKeepsStatus(h: Hierarchy, c: Command, d: Id)
    requires !c.SweepMark? && !c.MarkBranch? && Run(h, c).Committed? && d in Run(h, c).after.dirs && Inserted(h, c) != Some(d)
    ensures d in h.dirs && Run(h, c).after.dirs[d].status == h.dirs[d].status
  {
    hide Scope, FileScope, WithinRoot, Occupied, DirectoryNamed, FileNamed, Within;
  }

  /** And nothing but a move changes what lies beneath what. */
  lemma OthersKeepWithin(h: Hierarchy, c: Command, x: Id, d: Id)
    requires Sound(h) && Mintable(c) && !c.MoveDirectory? && Run(h, c).Committed?
    requires x in h.dirs && x in Run(h, c).after.dirs && Inserted(h, c) != Some(x)
    ensures Within(ParentsIn(Run(h, c).after), x, d) == Within(ParentsIn(h), x, d)
  {
    hide Sound, Scope, FileScope, WithinRoot, Within, Occupied, DirectoryNamed, FileNamed, Mark, RunEnsureRoot, Inserted;
    match c
    case EnsureRoot(org, stands, id) => EnsureKeepsWithin(h, org, stands, id, x, d);
    case CreateDirectory(org, parent, name, id, raced) =>
      CreateInserts(h, c);
      InsertKeepsWithin(h, id, Directory(Scope(h, org, parent).dir, Plain(name), Active, 1), x, d);
    case DeleteDirectory(org, dir, _, _) => DropKeepsWithin(h, Scope(h, org, dir).dir, x, d);
    case MarkBranch(org, dir, _) => MarkKeepsParents(h, Scope(h, org, dir).dir);
    case SweepMark(id) => assert ParentsIn(Run(h, c).after) == ParentsIn(h);
    case SweepDirectory(id) => DropKeepsWithin(h, id, x, d);
    case MoveDirectory(_, _, _, _, _) =>
    case _ => assert ParentsIn(Run(h, c).after) == ParentsIn(h);
  }

  lemma InsertKeepsWithin(h: Hierarchy, id: Id, row: Directory, x: Id, d: Id)
    requires Sound(h) && id !in h.dirs && id != TOP && (row.parent == TOP || row.parent in h.dirs) && x != id
    ensures Within(ParentsIn(PutDir(h, id, row)), x, d) == Within(ParentsIn(h), x, d)
  {
    hide Within, IsForest, Bound, Unique, Housed;
    InsertKeepsForest(h, id, row);
    Insert(ParentsIn(h), id, row.parent);
  }

  lemma DropKeepsWithin(h: Hierarchy, id: Id, x: Id, d: Id)
    requires Sound(h) && id in h.dirs && !Occupied(h, id) && x != id
    ensures Within(ParentsIn(DropDir(h, id)), x, d) == Within(ParentsIn(h), x, d)
  {
    hide Within, IsForest, Bound, Unique, Housed;
    DropKeepsForest(h, id);
    HasNoChild(h, id);
    Remove(ParentsIn(h), id);
  }

  lemma HasNoChild(h: Hierarchy, x: Id)
    requires !Occupied(h, x)
    ensures forall y :: y in ParentsIn(h) ==> ParentsIn(h)[y] != x
  {
  }

  lemma EnsureKeepsWithin(h: Hierarchy, org: Id, stands: bool, id: Id, x: Id, d: Id)
    requires Sound(h) && id != TOP && RunEnsureRoot(h, org, stands, id).Committed? && x in h.dirs
    ensures Within(ParentsIn(RunEnsureRoot(h, org, stands, id).after), x, d) == Within(ParentsIn(h), x, d)
  {
    hide IsForest, Bound, Unique, Housed, Within;
    var r := RunEnsureRoot(h, org, stands, id);
    if r.event.Some? {
      var row := Directory(TOP, OfOrganization(org), Active, 1);
      InsertKeepsWithin(h, id, row, x, d);
      assert ParentsIn(r.after) == ParentsIn(PutDir(h, id, row));
    } else {
      assert ParentsIn(r.after) == ParentsIn(h);
    }
  }

  lemma AsReadStays(s: Service, c: Command, tx: nat)
    requires Sound(s.rows) && Settled(s, c) && !c.SweepMark? && Run(s.rows, c).Committed?
    requires tx in s.inFlight && s.inFlight[tx].Seen? && AsRead(s.rows, s.inFlight[tx])
    ensures AsRead(Run(s.rows, c).after, s.inFlight[tx])
  {
    hide Sound, Run, Settled, Inserted, Within, ParentsIn, ValidName;
    SettledIsOther(s, c);
    var t, h' := s.inFlight[tx], Run(s.rows, c).after;
    NotInserted(s, c, tx, t.work.dir);
    if t.work.dir in h'.dirs {
      UnlockedKeepsStatus(s.rows, c, t.work.dir);
    }
    if t.work.Moving? && t.work.to in h'.dirs {
      NotInserted(s, c, tx, t.work.to);
      UnlockedKeepsStatus(s.rows, c, t.work.to);
      OthersKeepWithin(s.rows, c, t.work.to, t.work.dir);
    }
  }

  lemma OtherKeepsInv(s: Service, c: Command)
    requires Inv(s)
    ensures Inv(Next(true, s, Other(c)))
  {
    hide Sound, Run, Settled, Inserted, InScope, AsRead;
    if !(c.SweepMark? && s.holder.Some?) && Settled(s, c) && Run(s.rows, c).Committed? {
      var h' := Run(s.rows, c).after;
      SettledIsOther(s, c);
      RunKeepsSound(s.rows, c);
      forall tx | tx in s.inFlight
        ensures InScope(h', s.inFlight[tx].work)
      {
        forall d | Names(s.inFlight[tx].work, d) && d in h'.dirs
          ensures d in s.rows.dirs
        {
          NotInserted(s, c, tx, d);
        }
        ScopeStays(s.rows, c, s.inFlight[tx].work);
      }
      forall tx | tx in s.inFlight && s.inFlight[tx].Seen?
        ensures AsRead(h', s.inFlight[tx])
      {
        AsReadStays(s, c, tx);
      }
    }
  }

  /** The statement is a whole transaction, and inserts nothing. */
  lemma FinishKeepsInv(s: Service, tx: nat)
    requires Inv(s) && tx in s.inFlight && s.inFlight[tx].Seen?
    ensures Inv(Next(true, s, Finish(tx)))
  {
    var t, w := Next(true, s, Finish(tx)), s.inFlight[tx].work;
    var c := if w.Marking? then MarkBranch(w.org, At(w.dir), w.version) else MoveDirectory(w.org, At(w.dir), w.version, At(w.to), w.name);
    if w.Marking? {
      FinishIsMark(s, tx);
    } else {
      FinishIsMove(s, tx);
    }
    FinishLeaves(s, tx);
    hide Sound, Run, InScope, AsRead, Next;
    if Run(s.rows, c).Committed? {
      RunKeepsSound(s.rows, c);
      forall u | u in t.inFlight
        ensures InScope(t.rows, t.inFlight[u].work)
      {
        forall d | d in t.rows.dirs
          ensures d in s.rows.dirs
        {
          RowsBefore(s.rows, c, d);
          InsertsNothing(s.rows, c);
        }
        assert InScope(s.rows, s.inFlight[u].work);
        ScopeStays(s.rows, c, s.inFlight[u].work);
      }
    }
  }

  lemma InsertsNothing(h: Hierarchy, c: Command)
    requires c.MarkBranch? || c.MoveDirectory?
    ensures Inserted(h, c) == None
  {
    hide Run;
  }

  lemma FinishLeaves(s: Service, tx: nat)
    requires Alone(s) && tx in s.inFlight && s.inFlight[tx].Seen?
    ensures var t := Next(true, s, Finish(tx)); t.inFlight == s.inFlight - {tx} && forall u :: u in t.inFlight ==> t.inFlight[u].Scoped?
  {
    hide Mark, Marks, AsRead, DirectoryNamed;
  }

  lemma ScopedIsInScope(h: Hierarchy, org: Id, dir: Ref, version: nat, to: Ref, name: string)
    requires Sound(h)
    ensures ScopedMark(h, org, dir, version).Some? ==> InScope(h, ScopedMark(h, org, dir, version).value)
    ensures ScopedMove(h, org, dir, version, to, name).Some? ==> InScope(h, ScopedMove(h, org, dir, version, to, name).value)
  {
    hide IsForest, Unique, Housed, Scope, WithinRoot, Home;
    if Scope(h, org, dir).In? {
      ScopeIsHome(h, org, dir);
      if WithinRoot(h, Scope(h, org, dir).root, to).In? {
        RootHeld(h, org, dir);
        DestinationIsHome(h, org, to);
      }
    }
  }

  lemma RootHeld(h: Hierarchy, org: Id, dir: Ref)
    requires Scope(h, org, dir).In?
    ensures org in h.roots
  {
  }

  lemma NextKeepsInv(s: Service, step: Step)
    requires Inv(s)
    ensures Inv(Next(true, s, step))
  {
    hide Sound, Run, InScope, ScopedMark, ScopedMove, Finished, Within, ParentsIn;
    match step
    case CheckMark(tx, org, dir, version) => ScopedIsInScope(s.rows, org, dir, version, Alias, "");
    case CheckMove(tx, org, dir, version, to, name) => ScopedIsInScope(s.rows, org, dir, version, to, name);
    case Lock(tx) =>
    case Read(tx) =>
    case Finish(tx) => if tx in s.inFlight && s.inFlight[tx].Seen? { FinishKeepsInv(s, tx); }
    case Other(c) => OtherKeepsInv(s, c);
  }

  /** Over every interleaving of locked marks and moves with any other transactions, the rows stay
      sound, and each one's directories stay in the scope it checked and stand as it read them. */
  lemma {:induction false} LockedRunsKeepInv(s: Service, steps: seq<Step>)
    requires Inv(s)
    ensures Inv(Exec(true, s, steps))
    decreases |steps|
  {
    hide Inv, Next;
    if steps != [] {
      NextKeepsInv(s, steps[0]);
      LockedRunsKeepInv(Next(true, s, steps[0]), steps[1..]);
    }
  }

  /** With the lock, a mark's statement commits its directory's deletion exactly when it
      takes that directory from active to deleting. */
  lemma EventIffTaken(s: Service, tx: nat)
    requires Alone(s) && tx in s.inFlight && s.inFlight[tx].Seen? && s.inFlight[tx].work.Marking?
    ensures var w := s.inFlight[tx].work;
            var s' := Next(true, s, Finish(tx));
            if Stands(s.rows, w.dir) && !Stands(s'.rows, w.dir) then
              s'.log == s.log + [DirectoryDeleted(w.dir, w.org, s'.rows.dirs[w.dir].version)] && s'.raised == s.raised + [w.dir]
            else s'.log == s.log && s'.raised == s.raised
  {
    var w := s.inFlight[tx].work;
    assert AsRead(s.rows, s.inFlight[tx]);
    MarkLeavesRest(s.rows, w.dir, w.dir);
    WithinSelf(ParentsIn(s.rows), w.dir);
    if w.dir in s.rows.dirs {
      MarkedRow(s.rows, w.dir);
    }
    hide Mark;
  }

  // ---- How often a mark commits a directory's deletion ----

  predicate NoRepeat(ids: seq<Id>) {
    forall i, j :: 0 <= i < j < |ids| ==> ids[i] != ids[j]
  }

  /** A run that inserts no directory under an id a mark has raised. */
  ghost predicate Unrepeated(s: Service, steps: seq<Step>)
    decreases |steps|
  {
    steps != [] ==>
      && (steps[0].Other? ==> forall d :: d in s.raised ==> Inserted(s.rows, steps[0].command) != Some(d))
      && Unrepeated(Next(true, s, steps[0]), steps[1..])
  }

  /** Every directory raised is active no longer. */
  ghost predicate Fallen(s: Service) {
    NoRepeat(s.raised) && forall d :: d in s.raised ==> !Stands(s.rows, d)
  }

  lemma FinishKeepsFallen(s: Service, tx: nat)
    requires Alone(s) && Fallen(s) && tx in s.inFlight && s.inFlight[tx].Seen?
    ensures Fallen(Next(true, s, Finish(tx)))
  {
    hide Mark, Marks, AsRead, DirectoryNamed;
    if s.inFlight[tx].work.Marking? {
      EventIffTaken(s, tx);
      forall d
        ensures Stands(Mark(s.rows, s.inFlight[tx].work.dir), d) ==> Stands(s.rows, d)
      {
        MarkLeavesRest(s.rows, s.inFlight[tx].work.dir, d);
      }
    }
  }

  lemma NextKeepsFallen(s: Service, step: Step)
    requires Inv(s) && Fallen(s)
    requires step.Other? ==> forall d :: d in s.raised ==> Inserted(s.rows, step.command) != Some(d)
    ensures Fallen(Next(true, s, step))
  {
    hide Sound, Run, Settled, Inserted, Finished, ScopedMark, ScopedMove, Movable, InScope, AsRead;
    match step
    case Finish(tx) =>
      if tx in s.inFlight && s.inFlight[tx].Seen? {
        FinishKeepsFallen(s, tx);
      }
    case Other(c) =>
      if Settled(s, c) && Run(s.rows, c).Committed? {
        SettledIsOther(s, c);
        forall d | d in s.raised && Stands(Run(s.rows, c).after, d)
          ensures Stands(s.rows, d)
        {
          NothingRises(s.rows, c, d);
        }
      }
    case _ =>
  }

  lemma {:induction false} LockedRunsKeepFallen(s: Service, steps: seq<Step>)
    requires Inv(s) && Fallen(s) && Unrepeated(s, steps)
    ensures Fallen(Exec(true, s, steps))
    decreases |steps|
  {
    hide Inv, Next, Fallen, Inserted;
    if steps != [] {
      NextKeepsInv(s, steps[0]);
      NextKeepsFallen(s, steps[0]);
      LockedRunsKeepFallen(Next(true, s, steps[0]), steps[1..]);
    }
  }

  lemma IdleInv()
    ensures Inv(IDLE) && Fallen(IDLE)
  {
    assert ParentsIn(EMPTY) == map[];
  }

  /** With the lock, marks commit each directory's deletion once at most, whatever is raced in
      beneath it. */
  lemma LockedOnce(steps: seq<Step>)
    requires Unrepeated(IDLE, steps)
    ensures NoRepeat(Exec(true, IDLE, steps).raised)
  {
    hide Inv, Exec, Unrepeated;
    IdleInv();
    LockedRunsKeepFallen(IDLE, steps);
  }

  // ---- Without the lock ----

  /** Nothing active lies within the directory. */
  ghost predicate Clear(h: Hierarchy, d: Id) {
    !Marks(h, d)
  }

  /** Lands an active directory beneath one whose deletion a mark has committed: a create that
      races that mark, or creates that directory again, or a move whose checks came before it. */
  ghost predicate Straggles(s: Service, step: Step, d: Id) {
    match step
    case Other(c) =>
      || Inserted(s.rows, c) == Some(d)
      || (c.CreateDirectory? && c.raced && Scope(s.rows, c.org, c.parent).In?
          && Within(ParentsIn(s.rows), Scope(s.rows, c.org, c.parent).dir, d))
    case Finish(tx) =>
      && tx in s.inFlight && s.inFlight[tx].Seen? && s.inFlight[tx].work.Moving?
      && Within(ParentsIn(s.rows), s.inFlight[tx].work.to, d)
    case _ => false
  }

  ghost predicate Unraced(s: Service, steps: seq<Step>)
    decreases |steps|
  {
    steps != [] ==>
      && (forall d :: d in s.raised ==> !Straggles(s, steps[0], d))
      && Unraced(Next(false, s, steps[0]), steps[1..])
  }

  lemma ClearOf(h: Hierarchy, d: Id, x: Id)
    requires Clear(h, d) && Stands(h, x)
    ensures !Within(ParentsIn(h), x, d)
  {
  }

  /** A change to one directory that leads it nowhere beneath d, and makes nothing else active. No
      forest is needed: without the lock two moves may make a cycle. */
  lemma ChangeKeepsClear(h: Hierarchy, h': Hierarchy, x: Id, d: Id)
    requires Clear(h, d)
    requires forall y :: y != x ==> (y in h.dirs <==> y in h'.dirs) && (y in h.dirs ==> h'.dirs[y] == h.dirs[y])
    requires x in h'.dirs && x != d ==> !Within(ParentsIn(h), h'.dirs[x].parent, d)
    requires x == d && Stands(h', d) ==> Stands(h, d)
    ensures Clear(h', d)
  {
    hide Within;
    var p, q := ParentsIn(h), ParentsIn(h');
    if Marks(h', d) {
      var y :| Stands(h', y) && Within(q, y, d);
      ReachesBefore(p, q, x, d, y);
      if y == x && x != d {
        WithinStep(q, x, d);
        ReachesBefore(p, q, x, d, q[x]);
      } else {
        ClearOf(h, d, y);
      }
    }
  }

  lemma ReachesBefore(p: Parents, q: Parents, x: Id, d: Id, y: Id)
    requires forall z :: z != x ==> (z in p <==> z in q) && (z in p ==> p[z] == q[z])
    requires (x in q && x != d ==> !Within(p, q[x], d)) && Within(q, y, d)
    ensures Within(p, y, d)
  {
    var n: nat :| Up(q, y, n) == d;
    ReachedBefore(p, q, x, d, y, n);
  }

  /** Where every directory keeps its parent and none becomes active. */
  lemma SinkKeepsClear(h: Hierarchy, h': Hierarchy, d: Id)
    requires ParentsIn(h') == ParentsIn(h) && (forall x :: Stands(h', x) ==> Stands(h, x)) && Clear(h, d)
    ensures Clear(h', d)
  {
    hide Within;
  }

  lemma MarkClears(h: Hierarchy, x: Id, d: Id)
    ensures Clear(h, d) ==> Clear(Mark(h, x), d)
    ensures Clear(Mark(h, d), d)
  {
    MarkKeepsParents(h, x);
    MarkKeepsParents(h, d);
    forall y
      ensures Stands(Mark(h, x), y) ==> Stands(h, y)
    {
      MarkLeavesRest(h, x, y);
    }
    if Clear(h, d) {
      SinkKeepsClear(h, Mark(h, x), d);
    }
    hide Within;
  }

  lemma TopIsOutside(h: Hierarchy, d: Id)
    requires TOP !in h.dirs && d != TOP
    ensures !Within(ParentsIn(h), TOP, d)
  {
    WithinOutside(ParentsIn(h), TOP, d);
  }

  /** Beneath a directory where nothing is active, no transaction but a straggler's makes
      anything active: a create waits for no race only under an active parent. */
  lemma RunKeepsClear(s: Service, c: Command, d: Id)
    requires TOP !in s.rows.dirs && Settled(s, c) && Run(s.rows, c).Committed?
    requires Clear(s.rows, d) && d != TOP && !Straggles(s, Other(c), d)
    ensures Clear(Run(s.rows, c).after, d)
  {
    hide Scope, FileScope, WithinRoot, Clear, Within, Occupied, DirectoryNamed, FileNamed, Mark, RunEnsureRoot;
    var h := s.rows;
    var h' := Run(h, c).after;
    match c
    case EnsureRoot(org, stands, id) => EnsureKeepsClear(h, org, stands, id, d);
    case CreateDirectory(org, parent, name, id, raced) =>
      var p := Scope(h, org, parent).dir;
      if !raced {
        ClearOf(h, d, p);
      }
      ChangeKeepsClear(h, h', id, d);
    case DeleteDirectory(org, dir, _, _) => ChangeKeepsClear(h, h', Scope(h, org, dir).dir, d);
    case SweepMark(id) =>
      assert ParentsIn(h') == ParentsIn(h);
      SinkKeepsClear(h, h', d);
    case SweepDirectory(id) => ChangeKeepsClear(h, h', id, d);
    case MarkBranch(_, _, _) =>
    case MoveDirectory(_, _, _, _, _) =>
    case _ =>
      assert h'.dirs == h.dirs;
      assert ParentsIn(h') == ParentsIn(h);
      SinkKeepsClear(h, h', d);
  }

  lemma EnsureKeepsClear(h: Hierarchy, org: Id, stands: bool, id: Id, d: Id)
    requires TOP !in h.dirs && RunEnsureRoot(h, org, stands, id).Committed? && Clear(h, d) && d != TOP
    requires RunEnsureRoot(h, org, stands, id).event.Some? ==> id != d
    ensures Clear(RunEnsureRoot(h, org, stands, id).after, d)
  {
    hide Within, Clear;
    var r := RunEnsureRoot(h, org, stands, id);
    TopIsOutside(h, d);
    if r.event.Some? {
      ChangeKeepsClear(h, r.after, id, d);
    } else {
      assert ParentsIn(r.after) == ParentsIn(h);
      SinkKeepsClear(h, r.after, d);
    }
  }

  /** Nothing is active beneath any directory raised, and none is raised twice. */
  ghost predicate Quiet(s: Service) {
    TOP !in s.rows.dirs && NoRepeat(s.raised) && forall d :: d in s.raised ==> d != TOP && Clear(s.rows, d)
  }

  lemma MarkedKeepsQuiet(s: Service, w: Work, anchor: Status)
    requires Quiet(s) && w.Marking?
    ensures Quiet(Marked(s, w, anchor))
  {
    hide Mark, Marks;
    if w.dir in s.rows.dirs {
      MarkedRow(s.rows, w.dir);
      MarkKeepsPlaces(s.rows, w.dir);
      MarkClears(s.rows, w.dir, w.dir);
      forall d | d in s.raised
        ensures Clear(Mark(s.rows, w.dir), d)
      {
        MarkClears(s.rows, w.dir, d);
      }
      assert w.dir in s.raised ==> !Marks(s.rows, w.dir);
    }
  }

  lemma MovedKeepsQuiet(s: Service, w: Work)
    requires Quiet(s) && w.Moving? && forall d :: d in s.raised ==> !Within(ParentsIn(s.rows), w.to, d)
    ensures Quiet(Moved(s, w))
  {
    hide Clear, Within, DirectoryNamed;
    var s' := Moved(s, w);
    if s'.rows != s.rows {
      forall d | d in s.raised
        ensures Clear(s'.rows, d)
      {
        ChangeKeepsClear(s.rows, s'.rows, w.dir, d);
      }
    }
  }

  lemma OtherKeepsQuiet(s: Service, c: Command)
    requires Quiet(s) && forall d :: d in s.raised ==> !Straggles(s, Other(c), d)
    ensures Quiet(Next(false, s, Other(c)))
  {
    hide Run, Clear, Settled, Straggles, Inserted;
    if Settled(s, c) && Run(s.rows, c).Committed? {
      forall d | d in s.raised
        ensures Clear(Run(s.rows, c).after, d)
      {
        RunKeepsClear(s, c, d);
      }
      if TOP in Run(s.rows, c).after.dirs {
        RowsBefore(s.rows, c, TOP);
        NoTopInserted(s, c);
      }
    }
  }

  lemma NoTopInserted(s: Service, c: Command)
    requires Settled(s, c)
    ensures Inserted(s.rows, c) != Some(TOP)
  {
    hide Run;
  }

  lemma NextKeepsQuiet(s: Service, step: Step)
    requires Quiet(s) && forall d :: d in s.raised ==> !Straggles(s, step, d)
    ensures Quiet(Next(false, s, step))
  {
    hide Run, Marked, Moved, Clear, Settled, ScopedMark, ScopedMove, Movable, Within, Inserted, Scope;
    match step
    case Finish(tx) =>
      if tx in s.inFlight && s.inFlight[tx].Seen? {
        var t := s.inFlight[tx];
        if t.work.Marking? {
          MarkedKeepsQuiet(s, t.work, t.anchor);
        } else {
          forall d | d in s.raised
            ensures !Within(ParentsIn(s.rows), t.work.to, d)
          {
            assert !Straggles(s, step, d);
          }
          MovedKeepsQuiet(s, t.work);
        }
      }
    case Other(c) => OtherKeepsQuiet(s, c);
    case _ =>
  }

  lemma {:induction false} UnlockedRunsKeepQuiet(s: Service, steps: seq<Step>)
    requires Quiet(s) && Unraced(s, steps)
    ensures Quiet(Exec(false, s, steps))
    decreases |steps|
  {
    hide Next, Quiet, Straggles;
    if steps != [] {
      NextKeepsQuiet(s, steps[0]);
      UnlockedRunsKeepQuiet(Next(false, s, steps[0]), steps[1..]);
    }
  }

  /** Without the lock, in every run where neither a create nor a move lands beneath a directory
      after its mark, marks commit each directory's deletion once at most, and nothing is active
      beneath it since: the count guard is enough. */
  lemma WithoutStragglerOnce(steps: seq<Step>)
    requires Unraced(IDLE, steps)
    ensures var s := Exec(false, IDLE, steps);
            NoRepeat(s.raised) && forall d :: d in s.raised ==> Clear(s.rows, d)
  {
    UnlockedRunsKeepQuiet(IDLE, steps);
  }

  /** A second mark's statement commits the deletion again exactly where its read came before the
      first mark and something active stands beneath the directory. */
  lemma SecondMark(s: Service, tx: nat)
    requires tx in s.inFlight && s.inFlight[tx].Seen? && s.inFlight[tx].work.Marking? && s.inFlight[tx].work.dir in s.raised
    requires s.inFlight[tx].work.dir in s.rows.dirs && !Stands(s.rows, s.inFlight[tx].work.dir)
    ensures var s' := Next(false, s, Finish(tx));
            var d := s.inFlight[tx].work.dir;
            if s.inFlight[tx].anchor == Active && Marks(s.rows, d) then
              && s'.log == s.log + [DirectoryDeleted(d, s.inFlight[tx].work.org, s.rows.dirs[d].version)]
              && s'.raised == s.raised + [d] && !NoRepeat(s'.raised)
            else s'.log == s.log && s'.raised == s.raised
  {
    var d := s.inFlight[tx].work.dir;
    var i :| 0 <= i < |s.raised| && s.raised[i] == d;
    hide Mark;
    assert (s.raised + [d])[i] == (s.raised + [d])[|s.raised|] == d;
  }

  // ---- Two stragglers ----

  /** A root with a directory in it and another beside, two marks of the first that both read it
      active, and between their statements a create raced into it or a move of the other under
      it, checked before either. */
  const ROOT := Directory(TOP, OfOrganization(7), Active, 1)
  const REPORTS := Directory(1, Plain("reports"), Active, 1)
  const DRAFTS := Directory(1, Plain("drafts"), Active, 1)
  const LATE := Directory(2, Plain("late"), Active, 1)
  const MOVED := Directory(2, Plain("drafts"), Active, 2)
  const MARKING := Marking(7, 2, 1)
  const MOVING := Moving(7, 1, 3, 1, 2, "drafts")
  const RACE := CreateDirectory(7, At(2), "late", 4, true)

  const MAKE := [Other(EnsureRoot(7, true, 1)), Other(CreateDirectory(7, Alias, "reports", 2, false)), Other(CreateDirectory(7, Alias, "drafts", 3, false))]
  const CHECK := [CheckMark(1, 7, At(2), 1), CheckMark(2, 7, At(2), 1), CheckMove(3, 7, At(3), 1, At(2), "drafts")]
  const LOCK := [Lock(1), Lock(2), Lock(3)]
  const READ := [Read(1), Read(2), Read(3)]
  const RACED := [Finish(1), Other(RACE), Finish(2)]
  const OVERTAKEN := [Finish(1), Finish(3), Finish(2)]

  const ROOTED := Hierarchy(map[1 := ROOT], map[], map[7 := 1])
  const FIRST := Hierarchy(map[1 := ROOT, 2 := REPORTS], map[], map[7 := 1])
  const MADE := Hierarchy(map[1 := ROOT, 2 := REPORTS, 3 := DRAFTS], map[], map[7 := 1])
  const MARKED := Hierarchy(map[1 := ROOT, 2 := MarkedDir(REPORTS), 3 := DRAFTS], map[], map[7 := 1])
  const JOINED := Hierarchy(map[1 := ROOT, 2 := MarkedDir(REPORTS), 3 := DRAFTS, 4 := LATE], map[], map[7 := 1])
  const UNDER := Hierarchy(map[1 := ROOT, 2 := MarkedDir(REPORTS), 3 := MOVED], map[], map[7 := 1])
  const MADE_LOG := [DirectoryCreated(Shown(7, 1, 1, ROOT)), DirectoryCreated(Shown(7, 1, 2, REPORTS)), DirectoryCreated(Shown(7, 1, 3, DRAFTS))]

  const STARTED := Service(MADE, map[], None, [], MADE_LOG)
  const CHECKED := STARTED.(inFlight := map[1 := Scoped(MARKING), 2 := Scoped(MARKING), 3 := Scoped(MOVING)])
  const UNLOCKED := STARTED.(inFlight := map[1 := Locked(MARKING), 2 := Locked(MARKING), 3 := Locked(MOVING)])
  const CROSSED := STARTED.(inFlight := map[1 := Seen(MARKING, Active), 2 := Seen(MARKING, Active), 3 := Seen(MOVING, Active)])

  lemma InReports(p: Parents)
    requires 1 in p && p[1] == TOP && 2 in p && p[2] == 1 && TOP !in p
    ensures Within(p, 2, 2) && !Within(p, 1, 2) && Within(p, 2, 1)
    ensures 3 in p && p[3] == 1 ==> !Within(p, 3, 2) && Within(p, 3, 1) && !Within(p, 2, 3)
    ensures 3 in p && p[3] == 2 ==> Within(p, 3, 2)
    ensures 4 in p && p[4] == 2 ==> Within(p, 4, 2)
  {
    assert Up(p, 2, 0) == 2 && Up(p, 2, 1) == 1;
    assert 3 in p ==> Up(p, 3, 1) == p[3];
    assert 4 in p ==> Up(p, 4, 1) == p[4];
    WithinOutside(p, TOP, 2);
    WithinOutside(p, TOP, 3);
    WithinStep(p, 1, 2);
    WithinStep(p, 1, 3);
    WithinStep(p, 2, 3);
    if 3 in p {
      WithinStep(p, 3, 2);
    }
  }

  lemma Makes()
    ensures Run(EMPTY, MAKE[0].command) == Committed(ROOTED, Some(MADE_LOG[0]))
    ensures Run(ROOTED, MAKE[1].command) == Committed(FIRST, Some(MADE_LOG[1]))
    ensures Run(FIRST, MAKE[2].command) == Committed(MADE, Some(MADE_LOG[2]))
  {
    assert PutDir(EMPTY, 1, ROOT).(roots := EMPTY.roots[7 := 1]) == ROOTED;
    assert PutDir(ROOTED, 2, REPORTS) == FIRST && PutDir(FIRST, 3, DRAFTS) == MADE;
    assert ValidName("reports") && ValidName("drafts");
    hide ValidName, Within;
  }

  lemma Scoping()
    ensures ScopedMark(MADE, 7, At(2), 1) == Some(MARKING) && ScopedMove(MADE, 7, At(3), 1, At(2), "drafts") == Some(MOVING)
    ensures Movable(MADE, MOVING)
  {
    InReports(ParentsIn(MADE));
    assert ValidName("drafts");
    hide Within, ValidName;
  }

  lemma MarkMade()
    ensures Mark(MADE, 2) == MARKED && Marks(MADE, 2)
  {
    InReports(ParentsIn(MADE));
    assert Stands(MADE, 2);
    hide Within;
  }

  lemma MarkAgain()
    ensures Marks(JOINED, 2) && Marks(UNDER, 2)
  {
    InReports(ParentsIn(JOINED));
    InReports(ParentsIn(UNDER));
    assert Stands(JOINED, 4) && Stands(UNDER, 3);
    hide Within;
  }

  lemma StragglerCommits()
    ensures Run(MARKED, RACE) == Committed(JOINED, Some(DirectoryCreated(Shown(7, 1, 4, LATE))))
    ensures Inserted(MARKED, RACE) == Some(4)
  {
    InReports(ParentsIn(MARKED));
    assert ValidName("late");
    assert PutDir(MARKED, 4, LATE) == JOINED;
    hide Within, ValidName;
  }

  lemma {:induction false} ExecAppend(s: Service, a: seq<Step>, b: seq<Step>)
    ensures Exec(false, s, a + b) == Exec(false, Exec(false, s, a), b)
    decreases |a|
  {
    hide Next;
    if a == [] {
      assert a + b == b;
    } else {
      assert (a + b)[1..] == a[1..] + b;
      ExecAppend(Next(false, s, a[0]), a[1..], b);
    }
  }

  lemma ExecThree(s: Service, a: Step, b: Step, c: Step)
    ensures Exec(false, s, [a, b, c]) == Next(false, Next(false, Next(false, s, a), b), c)
  {
    hide Next;
    assert [a, b, c][1..] == [b, c] && [b, c][1..] == [c] && [c][1..] == [];
    assert Exec(false, Next(false, Next(false, s, a), b), [c]) == Exec(false, Next(false, Next(false, Next(false, s, a), b), c), []);
  }

  lemma MakeRun()
    ensures Exec(false, IDLE, MAKE) == STARTED
  {
    hide Run;
    Makes();
    ExecThree(IDLE, MAKE[0], MAKE[1], MAKE[2]);
    var s1 := Next(false, IDLE, MAKE[0]);
    assert s1 == Service(ROOTED, map[], None, [], MADE_LOG[..1]);
    var s2 := Next(false, s1, MAKE[1]);
    assert s2 == Service(FIRST, map[], None, [], MADE_LOG[..2]);
  }

  lemma CheckRun()
    ensures Exec(false, STARTED, CHECK) == CHECKED
  {
    hide ScopedMark, ScopedMove, MADE, MADE_LOG, MARKING, MOVING;
    Scoping();
    ExecThree(STARTED, CHECK[0], CHECK[1], CHECK[2]);
    var s1 := Next(false, STARTED, CHECK[0]);
    assert s1.inFlight == map[1 := Scoped(MARKING)];
    var s2 := Next(false, s1, CHECK[1]);
    assert s2.inFlight == map[1 := Scoped(MARKING), 2 := Scoped(MARKING)];
  }

  lemma Locks(s: Service, tx: nat, w: Work)
    requires tx in s.inFlight && s.inFlight[tx] == Scoped(w)
    ensures Next(false, s, Lock(tx)) == To(s, tx, Locked(w))
  {
  }

  lemma LockRun()
    ensures Exec(false, CHECKED, LOCK) == UNLOCKED
  {
    hide Exec, Next, MADE, MADE_LOG, MARKING, MOVING;
    ExecThree(CHECKED, LOCK[0], LOCK[1], LOCK[2]);
    Locks(CHECKED, 1, MARKING);
    var s1 := Next(false, CHECKED, LOCK[0]);
    Locks(s1, 2, MARKING);
    var s2 := Next(false, s1, LOCK[1]);
    Locks(s2, 3, MOVING);
    assert Next(false, s2, LOCK[2]).inFlight == UNLOCKED.inFlight;
  }

  lemma ReadsMark(s: Service, tx: nat)
    requires s.rows == MADE && tx in s.inFlight && s.inFlight[tx] == Locked(MARKING)
    ensures Next(false, s, Read(tx)) == To(s, tx, Seen(MARKING, Active))
  {
    hide Movable;
  }

  lemma ReadsMove(s: Service, tx: nat)
    requires s.rows == MADE && tx in s.inFlight && s.inFlight[tx] == Locked(MOVING)
    ensures Next(false, s, Read(tx)) == To(s, tx, Seen(MOVING, Active))
  {
    Scoping();
    hide Movable, MADE;
  }

  lemma ReadRun()
    ensures Exec(false, UNLOCKED, READ) == CROSSED
  {
    hide Exec, Next, MADE, MADE_LOG, MARKING, MOVING;
    ExecThree(UNLOCKED, READ[0], READ[1], READ[2]);
    ReadsMark(UNLOCKED, 1);
    var s1 := Next(false, UNLOCKED, READ[0]);
    ReadsMark(s1, 2);
    var s2 := Next(false, s1, READ[1]);
    ReadsMove(s2, 3);
    assert Next(false, s2, READ[2]).inFlight == CROSSED.inFlight;
  }

  lemma CrossedRun()
    ensures Exec(false, IDLE, MAKE + CHECK + LOCK + READ) == CROSSED
  {
    hide Exec, STARTED, CHECKED, UNLOCKED, CROSSED, MAKE, CHECK, LOCK, READ;
    MakeRun();
    CheckRun();
    LockRun();
    ReadRun();
    ExecAppend(IDLE, MAKE, CHECK);
    ExecAppend(IDLE, MAKE + CHECK, LOCK);
    ExecAppend(IDLE, MAKE + CHECK + LOCK, READ);
  }

  lemma FirstFinish()
    ensures var s := Next(false, CROSSED, Finish(1));
            && s.rows == MARKED && s.inFlight == map[2 := Seen(MARKING, Active), 3 := Seen(MOVING, Active)] && s.raised == [2]
            && s.log == MADE_LOG + [DirectoryDeleted(2, 7, 2)]
  {
    hide Mark, Marks, MADE_LOG;
    MarkMade();
  }

  lemma CreateJoins(s: Service)
    requires s.rows == MARKED && s.inFlight == map[2 := Seen(MARKING, Active), 3 := Seen(MOVING, Active)]
    ensures Next(false, s, Other(RACE)) == s.(rows := JOINED, log := s.log + [DirectoryCreated(Shown(7, 1, 4, LATE))])
  {
    hide Run, Inserted;
    StragglerCommits();
  }

  lemma MoveJoins(s: Service)
    requires s.rows == MARKED && s.inFlight == map[2 := Seen(MARKING, Active), 3 := Seen(MOVING, Active)]
    ensures var t := Next(false, s, Finish(3));
            && t.rows == UNDER && t.inFlight == map[2 := Seen(MARKING, Active)] && t.raised == s.raised
            && t.log == s.log + [DirectoryMoved(Shown(7, 1, 3, MOVED))]
  {
    assert PutDir(MARKED, 3, MOVED) == UNDER;
  }

  lemma SecondFinish(s: Service)
    requires s.rows == JOINED || s.rows == UNDER
    requires 2 in s.inFlight && s.inFlight[2] == Seen(MARKING, Active)
    ensures Next(false, s, Finish(2)).raised == s.raised + [2]
    ensures Next(false, s, Finish(2)).log == s.log + [DirectoryDeleted(2, 7, 2)]
  {
    hide Mark, Marks;
    MarkAgain();
  }

  /** From an empty service: both marks read the directory active, both finish, with a
      straggler's create between them, and the directory is deleted twice. */
  lemma WithoutLockTwice()
    ensures var s := Exec(false, IDLE, MAKE + CHECK + LOCK + READ + RACED);
            && s.raised == [2, 2]
            && s.log == MADE_LOG + [DirectoryDeleted(2, 7, 2), DirectoryCreated(Shown(7, 1, 4, LATE)), DirectoryDeleted(2, 7, 2)]
  {
    hide Next, MADE_LOG, MAKE, CHECK, LOCK, READ, CROSSED;
    CrossedRun();
    ExecAppend(IDLE, MAKE + CHECK + LOCK + READ, RACED);
    ExecThree(CROSSED, RACED[0], RACED[1], RACED[2]);
    FirstFinish();
    var s1 := Next(false, CROSSED, RACED[0]);
    CreateJoins(s1);
    SecondFinish(Next(false, s1, RACED[1]));
  }

  /** So it is with a move between them whose checks came before both. */
  lemma WithoutLockAMoveToo()
    ensures var s := Exec(false, IDLE, MAKE + CHECK + LOCK + READ + OVERTAKEN);
            && s.raised == [2, 2]
            && s.log == MADE_LOG + [DirectoryDeleted(2, 7, 2), DirectoryMoved(Shown(7, 1, 3, MOVED)), DirectoryDeleted(2, 7, 2)]
  {
    hide Next, MADE_LOG, MAKE, CHECK, LOCK, READ, CROSSED;
    CrossedRun();
    ExecAppend(IDLE, MAKE + CHECK + LOCK + READ, OVERTAKEN);
    ExecThree(CROSSED, OVERTAKEN[0], OVERTAKEN[1], OVERTAKEN[2]);
    FirstFinish();
    var s1 := Next(false, CROSSED, OVERTAKEN[0]);
    MoveJoins(s1);
    SecondFinish(Next(false, s1, OVERTAKEN[1]));
  }
}
