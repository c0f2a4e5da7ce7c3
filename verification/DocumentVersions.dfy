/** The versions the document events carry, over every run: a directory's carry 1, 2, and on from
    each creation, and a file's 2, 3, and on from each time it was begun, its first version being
    the pending row's, which no event carries. */
module DocumentVersions {
  import opened Forest
  import opened Events
  import opened Documents
  import opened DocumentScope
  import opened DocumentReplay
  import opened DocumentRuns
  import opened DocumentOnce
  import Organizations

  function DirVersion(e: Event, d: Id): seq<nat> {
    match e
    case DirectoryCreated(data) => if data.id == d then [data.version] else []
    case DirectoryMoved(data) => if data.id == d then [data.version] else []
    case DirectoryDeleted(id, _, v) => if id == d then [v] else []
    case _ => []
  }

  /** The versions of the events about the directory since its last creation. */
  function DirVersions(log: seq<Event>, d: Id): seq<nat> {
    if log == [] then []
    else
      var e := log[|log| - 1];
      if e.DirectoryCreated? && e.dir.id == d then [e.dir.version] else DirVersions(log[..|log| - 1], d) + DirVersion(e, d)
  }

  function FileVersion(e: Event, f: FileId): seq<nat> {
    match e
    case FileUploaded(data) => if data.id == f then [data.version] else []
    case FileMoved(data) => if data.id == f then [data.version] else []
    case FileDeleted(id, _, v) => if id == f then [v] else []
    case _ => []
  }

  /** What a command's event carries about the file. */
  ghost function FileCarried(s: State, c: Command, f: FileId): seq<nat> {
    if Enabled(s, c) && Run(s.rows, c).Committed? && Run(s.rows, c).event.Some? then FileVersion(Run(s.rows, c).event.value, f) else []
  }

  /** The versions a run's events carry about the file since its write was last begun, after
      those of the events before the run. */
  ghost function SinceBegun(s: State, commands: seq<Command>, f: FileId, before: seq<nat>): seq<nat>
    decreases |commands|
  {
    if commands == [] then before
    else
      SinceBegun(Next(s, commands[0]), commands[1..], f,
                 if BeginsFile(s, commands[0], f) then [] else before + FileCarried(s, commands[0], f))
  }

  lemma VersionsNext(log: seq<Event>, e: Event, d: Id)
    ensures DirVersions(log + [e], d) == if e.DirectoryCreated? && e.dir.id == d then [e.dir.version] else DirVersions(log, d) + DirVersion(e, d)
  {
    assert (log + [e])[..|log|] == log;
  }

  /** 2, 3, ..., n. */
  function FromTwo(n: nat): (s: seq<nat>)
    ensures |s| == (if n == 0 then 0 else n - 1) && forall i :: 0 <= i < |s| ==> s[i] == i + 2
  {
    if n < 2 then [] else FromTwo(n - 1) + [n]
  }

  /** Since its creation an active directory's events carry 1 to its version. A deleting one's
      carry as much, or one less where its branch's mark raised none for it; once it is gone, a
      plain delete's may have carried the last version again. */
  ghost predicate DirHistory(s: State, d: Id) {
    var versions := DirVersions(s.log, d);
    if d in s.rows.dirs then
      var v := s.rows.dirs[d].version;
      v >= 1 && (versions == Organizations.UpTo(v) || (!Stands(s.rows, d) && versions == Organizations.UpTo(v - 1)))
    else exists n: nat :: versions == Organizations.UpTo(n) || (n > 0 && versions == Organizations.UpTo(n) + [n])
  }

  /** Since its write was begun a file's events carry 2 to its version, while its delete has not
      begun, and 2 to its last once it has. */
  ghost predicate FileHistory(h: Hierarchy, f: FileId, versions: seq<nat>) {
    if f in h.files && h.files[f].status != Doomed then h.files[f].version >= 1 && versions == FromTwo(h.files[f].version)
    else exists n: nat :: versions == FromTwo(n)
  }

  /** What one transaction does to one directory: nothing, its end, or its mark with its
      branch, with no event; its creation at version 1; its next version with an event; or the
      end of its row with an event at the version it had. */
  ghost predicate DirStepped(h: Hierarchy, h': Hierarchy, c: Command, d: Id, carried: seq<nat>) {
    || (carried == [] && (d in h'.dirs ==> d in h.dirs && Unraised(h.dirs[d], h'.dirs[d])))
    || (carried == [1] && Inserted(h, c) == Some(d) && d in h'.dirs && h'.dirs[d].version == 1)
    || (Stands(h, d) && carried == [h.dirs[d].version + 1] && d in h'.dirs && h'.dirs[d].version == h.dirs[d].version + 1)
    || (d in h.dirs && carried == [h.dirs[d].version] && d !in h'.dirs && c.DeleteDirectory?)
  }

  predicate Unraised(row: Directory, row': Directory) {
    (row'.version == row.version && row'.status == row.status)
    || (row.status == Active && row'.status == Deleting && row'.version == row.version + 1)
  }

  function Carried(e: Option<Event>, d: Id): seq<nat> {
    if e.Some? then DirVersion(e.value, d) else []
  }

  lemma RootStep(h: Hierarchy, c: Command, d: Id)
    requires Sound(h) && c.EnsureRoot? && Run(h, c).Committed?
    ensures DirStepped(h, Run(h, c).after, c, d, Carried(Run(h, c).event, d))
  {
    hide IsForest, Unique, Housed;
    if c.org !in h.roots {
      forall x | x in h.dirs && h.dirs[x].parent == TOP
        ensures h.dirs[x].name != OfOrganization(c.org)
      {
        UnboundMeansAbsent(h, c.org, x);
      }
    }
  }

  lemma MarkStep(h: Hierarchy, org: Id, x: Id, version: nat, c: Command, d: Id)
    requires RunMark(h, org, x, version).Committed?
    ensures DirStepped(h, RunMark(h, org, x, version).after, c, d, Carried(RunMark(h, org, x, version).event, d))
  {
    if d in h.dirs {
      MarkedOrSame(h, x, d);
    }
    MarkedRow(h, x);
    hide Mark;
  }

  lemma MarkedOrSame(h: Hierarchy, x: Id, d: Id)
    requires d in h.dirs
    ensures d in Mark(h, x).dirs && (Mark(h, x).dirs[d] == h.dirs[d] || Mark(h, x).dirs[d] == MarkedDir(h.dirs[d]))
  {
    hide Within;
  }

  lemma DirStep(h: Hierarchy, c: Command, d: Id)
    requires Sound(h) && Mintable(c) && Run(h, c).Committed?
    ensures DirStepped(h, Run(h, c).after, c, d, Carried(Run(h, c).event, d))
  {
    hide Sound, Scope, FileScope, WithinRoot, Occupied, DirectoryNamed, FileNamed, RunMark, RunEnsureRoot, DirStepped,
         Carried, Run;
    if c.EnsureRoot? {
      RootStep(h, c, d);
    } else if c.MarkBranch? {
      MarkIsRun(h, c);
      MarkStep(h, c.org, Scope(h, c.org, c.dir).dir, c.version, c, d);
    } else {
      OtherStep(h, c, d);
    }
  }

  lemma MarkIsRun(h: Hierarchy, c: Command)
    requires c.MarkBranch? && Run(h, c).Committed?
    ensures Scope(h, c.org, c.dir).In? && Run(h, c) == RunMark(h, c.org, Scope(h, c.org, c.dir).dir, c.version)
  {
    hide Scope, RunMark;
  }

  lemma OtherStep(h: Hierarchy, c: Command, d: Id)
    requires !c.EnsureRoot? && !c.MarkBranch? && Run(h, c).Committed?
    ensures DirStepped(h, Run(h, c).after, c, d, Carried(Run(h, c).event, d))
  {
    hide Scope, FileScope, WithinRoot, Occupied, DirectoryNamed, FileNamed, Mark, Within;
  }

  lemma FileStep(h: Hierarchy, c: Command, f: FileId)
    requires Sound(h) && Run(h, c).Committed?
    ensures var h', e := Run(h, c).after, Run(h, c).event;
            var carried := if e.Some? then FileVersion(e.value, f) else [];
            || (carried == [] && f in h'.files && f !in h.files && c.BeginUpload? && c.file == f && h'.files[f].version == 1)
            || (carried == [] && (f in h'.files && h'.files[f].status != Doomed ==> f in h.files && h'.files[f] == h.files[f]))
            || (f in h.files && h.files[f].status != Doomed && carried == [h.files[f].version + 1]
                && (f in h'.files && h'.files[f].status != Doomed ==> h'.files[f].version == h.files[f].version + 1))
  {
    hide IsForest, Bound, Unique, Housed, Scope, FileScope, WithinRoot, RunEnsureRoot, Occupied, DirectoryNamed,
         FileNamed, Within;
    if c.EnsureRoot? {
      RootLeavesFiles(h, c.org, c.stands, c.id);
      RootEventIsCreation(h, c.org, c.stands, c.id);
    }
  }

  lemma UpToNext(n: nat)
    ensures Organizations.UpTo(n + 1) == Organizations.UpTo(n) + [n + 1]
    ensures n >= 1 ==> FromTwo(n + 1) == FromTwo(n) + [n + 1]
    ensures Organizations.UpTo(1) == [1] && FromTwo(1) == []
  {
    assert Organizations.UpTo(1) == Organizations.UpTo(0) + [1];
  }

  /** A directory's history, a step on, from what the step's event carried about it. */
  lemma DirHistoryNext(s: State, t: State, c: Command, d: Id, carried: seq<nat>)
    requires DirHistory(s, d) && DirStepped(s.rows, t.rows, c, d, carried)
    requires DirVersions(t.log, d) == if Inserted(s.rows, c) == Some(d) then carried else DirVersions(s.log, d) + carried
    requires Inserted(s.rows, c) == Some(d) ==> d !in s.rows.dirs && carried == [1]
    ensures DirHistory(t, d)
  {
    var versions := DirVersions(s.log, d);
    hide DirVersions, Organizations.UpTo, Inserted;
    assert versions + [] == versions;
    UpToNext(0);
    assert Organizations.UpTo(0) == [];
    if d in s.rows.dirs {
      UpToNext(s.rows.dirs[d].version);
      UpToNext(s.rows.dirs[d].version - 1);
    }
  }

  lemma NextKeepsDirHistory(s: State, c: Command, d: Id)
    requires Sound(s.rows) && DirHistory(s, d)
    ensures DirHistory(Next(s, c), d)
  {
    hide Sound, Run, DirVersions, DirHistory, DirStepped, Inserted, Mintable;
    if Enabled(s, c) && Run(s.rows, c).Committed? {
      var e := Run(s.rows, c).event;
      var carried := Carried(e, d);
      DirStep(s.rows, c, d);
      if e.Some? {
        VersionsNext(s.log, e.value, d);
        CreationInserts(s.rows, c, d);
        if e.value.DirectoryCreated? {
          CreationIsFirst(s.rows, c);
        }
      } else {
        NothingInserted(s.rows, c);
        assert DirVersions(s.log, d) + [] == DirVersions(s.log, d);
      }
      DirHistoryNext(s, Next(s, c), c, d, carried);
    }
  }

  /** A directory is created at version 1. */
  lemma CreationIsFirst(h: Hierarchy, c: Command)
    requires Run(h, c).Committed? && Run(h, c).event.Some? && Run(h, c).event.value.DirectoryCreated?
    ensures Run(h, c).event.value.dir.version == 1
  {
    hide Scope, FileScope, WithinRoot, Occupied, DirectoryNamed, FileNamed, Mark;
  }

  /** A write begins with a row at version 1, and no event. */
  lemma BeginsAtOne(h: Hierarchy, c: Command)
    requires c.BeginUpload? && Run(h, c).Committed?
    ensures c.file in Run(h, c).after.files && Run(h, c).after.files[c.file].version == 1
    ensures Run(h, c).after.files[c.file].status == Pending
  {
    hide Scope, FileNamed;
  }

  lemma NextKeepsFileHistory(s: State, c: Command, f: FileId, versions: seq<nat>)
    requires Sound(s.rows) && FileHistory(s.rows, f, versions)
    ensures FileHistory(Next(s, c).rows, f, if BeginsFile(s, c, f) then [] else versions + FileCarried(s, c, f))
  {
    hide Sound, Run, FileVersion, FromTwo, Mintable;
    assert versions + [] == versions;
    if Enabled(s, c) && Run(s.rows, c).Committed? {
      UpToNext(0);
      if BeginsFile(s, c, f) {
        BeginsAtOne(s.rows, c);
      } else {
        FileStep(s.rows, c, f);
        FileHistoryNext(s.rows, Next(s, c).rows, f, versions, FileCarried(s, c, f));
      }
    }
  }

  lemma FileHistoryNext(h: Hierarchy, h': Hierarchy, f: FileId, versions: seq<nat>, carried: seq<nat>)
    requires FileHistory(h, f, versions)
    requires || (carried == [] && (f in h'.files && h'.files[f].status != Doomed ==> f in h.files && h'.files[f] == h.files[f]))
             || (f in h.files && h.files[f].status != Doomed && carried == [h.files[f].version + 1]
                 && (f in h'.files && h'.files[f].status != Doomed ==> h'.files[f].version == h.files[f].version + 1))
    ensures FileHistory(h', f, versions + carried)
  {
    hide FromTwo;
    assert versions + [] == versions;
    if f in h.files {
      UpToNext(h.files[f].version);
    }
  }

  lemma {:induction false} RunsKeepDirHistory(s: State, commands: seq<Command>, d: Id)
    requires Sound(s.rows) && DirHistory(s, d)
    ensures DirHistory(Exec(s, commands), d)
    decreases |commands|
  {
    hide Sound, DirHistory, Next;
    if commands != [] {
      NextKeepsDirHistory(s, commands[0], d);
      NextKeepsSound(s, commands[0]);
      RunsKeepDirHistory(Next(s, commands[0]), commands[1..], d);
    }
  }

  lemma {:induction false} RunsKeepFileHistory(s: State, commands: seq<Command>, f: FileId, versions: seq<nat>)
    requires Sound(s.rows) && FileHistory(s.rows, f, versions)
    ensures FileHistory(Exec(s, commands).rows, f, SinceBegun(s, commands, f, versions))
    decreases |commands|
  {
    hide Sound, FileHistory, Next, BeginsFile, FileCarried;
    if commands != [] {
      NextKeepsFileHistory(s, commands[0], f, versions);
      NextKeepsSound(s, commands[0]);
      RunsKeepFileHistory(Next(s, commands[0]), commands[1..], f,
                          if BeginsFile(s, commands[0], f) then [] else versions + FileCarried(s, commands[0], f));
    }
  }

  /** Over every run, stale versions, refusals, ids used again, and plain deletes of deleting
      directories among its commands: from each creation the events about a directory carry 1, 2,
      and on with no gap, from each beginning the events about a file 2, 3, and on, and each ends
      where its row's version does. */
  lemma VersionsInOrder(commands: seq<Command>, d: Id, f: FileId)
    ensures DirHistory(Exec(INITIAL, commands), d)
    ensures FileHistory(Exec(INITIAL, commands).rows, f, SinceBegun(INITIAL, commands, f, []))
  {
    assert ParentsIn(EMPTY) == map[];
    assert Sound(EMPTY);
    assert DirVersions([], d) == Organizations.UpTo(0) && FromTwo(0) == [];
    RunsKeepDirHistory(INITIAL, commands, d);
    RunsKeepFileHistory(INITIAL, commands, f, []);
  }
}
